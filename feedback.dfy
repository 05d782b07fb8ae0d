/** The reviews page of `project/src/components/Feedback.jsx`: a carousel
    of testimonials with one dot per testimonial, star ratings, and a form
    for a new review. */
module Feedback {
  import opened Carousel

  datatype Testimonial = Testimonial(id: nat, name: string, rating: int, language: string, tutor: string)

  const Testimonials: seq<Testimonial> := [
    Testimonial(1, "Sarah Chen", 5, "French", "Pierre Dubois"),
    Testimonial(2, "Marcus Rodriguez", 5, "Korean", "Minjun Kim"),
    Testimonial(3, "Emma Thompson", 4, "Spanish", "Mar\U{ED}a Gonz\U{E1}lez"),
    Testimonial(4, "David Kim", 5, "French", "Pierre Dubois"),
    Testimonial(5, "Lisa Wang", 5, "Spanish", "Mar\U{ED}a Gonz\U{E1}lez"),
    Testimonial(6, "Alex Johnson", 4, "Korean", "Minjun Kim")
  ]

  /** `newReview` */
  datatype Review = Review(rating: int, language: string, tutor: string, feedback: string, name: string)

  /** The form's starting value, and what a submission resets it to. */
  const BlankReview := Review(5, "", "", "", "")

  /** `renderStars(rating)`: five stars, star `i` filled when `i < rating`. */
  function RenderStars(rating: int): (stars: seq<bool>)
    ensures |stars| == 5
    ensures forall i :: 0 <= i < 5 ==> (stars[i] <==> i < rating)
  {
    seq(5, i requires 0 <= i < 5 => i < rating)
  }

  function CountFilled(stars: seq<bool>): nat {
    if stars == [] then 0 else (if stars[0] then 1 else 0) + CountFilled(stars[1..])
  }

  /** The filled stars come first and number the rating, cut to 0..5. */
  lemma FilledStars(rating: int)
    ensures CountFilled(RenderStars(rating)) == if rating < 0 then 0 else if rating > 5 then 5 else rating
    ensures forall i, j :: 0 <= i < j < 5 && RenderStars(rating)[j] ==> RenderStars(rating)[i]
  {
    var s := RenderStars(rating);
    var s1, s2, s3, s4 := s[1..], s[2..], s[3..], s[4..];
    assert s1[1..] == s2 && s2[1..] == s3 && s3[1..] == s4 && s4[1..] == [];
    assert CountFilled(s4) == (if s[4] then 1 else 0);
    assert CountFilled(s3) == (if s[3] then 1 else 0) + CountFilled(s4);
    assert CountFilled(s2) == (if s[2] then 1 else 0) + CountFilled(s3);
    assert CountFilled(s1) == (if s[1] then 1 else 0) + CountFilled(s2);
  }

  /** The page's state. */
  class FeedbackPage {
    var current: nat        // currentTestimonial
    var review: Review      // newReview
    var showForm: bool      // showReviewForm

    predicate Valid()
      reads this
    {
      current < |Testimonials|
    }

    constructor ()
      ensures Valid() && current == 0 && review == BlankReview && !showForm
    {
      current, review, showForm := 0, BlankReview, false;
    }

    /** `nextTestimonial` */
    method NextTestimonial()
      requires Valid()
      modifies this
      ensures Valid() && review == old(review) && showForm == old(showForm)
      ensures current == Next(old(current), |Testimonials|)
    {
      current := (current + 1) % |Testimonials|;
    }

    /** `prevTestimonial` */
    method PrevTestimonial()
      requires Valid()
      modifies this
      ensures Valid() && review == old(review) && showForm == old(showForm)
      ensures current == Prev(old(current), |Testimonials|)
    {
      current := (current - 1 + |Testimonials|) % |Testimonials|;
    }

    /** The dot of testimonial `k`. */
    method SelectDot(k: nat)
      requires k < |Testimonials|
      modifies this
      ensures Valid() && current == k && review == old(review) && showForm == old(showForm)
    {
      current := k;
    }

    method OpenForm()
      modifies this
      ensures showForm && current == old(current) && review == old(review)
    {
      showForm := true;
    }

    /** The close and cancel buttons keep what was typed. */
    method CloseForm()
      modifies this
      ensures !showForm && current == old(current) && review == old(review)
    {
      showForm := false;
    }

    /** Star `star` of the rating picker. */
    method PickStar(star: int)
      modifies this
      ensures review == old(review).(rating := star)
      ensures current == old(current) && showForm == old(showForm)
    {
      review := review.(rating := star);
    }

    /** The name, language, tutor and text inputs. */
    method SetName(name: string)
      modifies this
      ensures review == old(review).(name := name)
      ensures current == old(current) && showForm == old(showForm)
    {
      review := review.(name := name);
    }

    method SetLanguage(language: string)
      modifies this
      ensures review == old(review).(language := language)
      ensures current == old(current) && showForm == old(showForm)
    {
      review := review.(language := language);
    }

    method SetTutor(tutor: string)
      modifies this
      ensures review == old(review).(tutor := tutor)
      ensures current == old(current) && showForm == old(showForm)
    {
      review := review.(tutor := tutor);
    }

    method SetText(text: string)
      modifies this
      ensures review == old(review).(feedback := text)
      ensures current == old(current) && showForm == old(showForm)
    {
      review := review.(feedback := text);
    }

    /** `handleSubmitReview`: the review goes nowhere; the form closes and
        is reset. `submitted` is the review that was logged. */
    method SubmitReview() returns (submitted: Review)
      modifies this
      ensures submitted == old(review)
      ensures !showForm && review == BlankReview && current == old(current)
    {
      submitted := review;
      showForm := false;
      review := BlankReview;
    }
  }

  /** Picking a star changes the rating only; what was typed is kept. */
  lemma PickKeepsText(r: Review, star: int)
    requires 1 <= star <= 5
    ensures r.(rating := star).rating == star
    ensures var p := r.(rating := star);
      p.language == r.language && p.tutor == r.tutor && p.feedback == r.feedback && p.name == r.name
    ensures CountFilled(RenderStars(r.(rating := star).rating)) == star
  {
    FilledStars(star);
  }

  /** The testimonial carousel: wraps both ways, the buttons undo each
      other, and as many presses as there are testimonials come back. */
  lemma TestimonialCarousel(i: nat)
    requires i < |Testimonials|
    ensures Next(|Testimonials| - 1, |Testimonials|) == 0
    ensures Prev(0, |Testimonials|) == |Testimonials| - 1
    ensures Prev(Next(i, |Testimonials|), |Testimonials|) == i
    ensures Next(Prev(i, |Testimonials|), |Testimonials|) == i
    ensures Forward(i, |Testimonials|, |Testimonials|) == i
  {
    Wraps(|Testimonials| - 1, |Testimonials|);
    Wraps(0, |Testimonials|);
    PrevUndoesNext(i, |Testimonials|);
    FullRound(i, |Testimonials|);
  }

  /** Every shipped testimonial renders its own rating's stars: four or
      five filled. */
  lemma ShippedRatings(k: nat)
    requires k < |Testimonials|
    ensures 4 <= CountFilled(RenderStars(Testimonials[k].rating)) <= 5
  {
    FilledStars(Testimonials[k].rating);
  }
}
