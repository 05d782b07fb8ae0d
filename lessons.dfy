/** The lesson page of `project/src/components/Lessons.jsx`: one fixed
    question, a typed answer judged by a substring test, a log of attempts,
    a simulated pronunciation check and two step buttons that only test
    their bounds. */
module Lessons {
  import opened JsText

  /** The parts of `currentLesson` the handlers read. */
  datatype Lesson = Lesson(title: string, totalSteps: int, currentStep: int)

  const CurrentLesson := Lesson("French Greetings & Politeness", 5, 3)

  /** `lessonContent.answer`; the check does not use it. */
  const StoredAnswer := "Je vais bien, merci"

  /** What a typed answer must contain, once lower-cased. */
  const Phrase := "je vais bien"

  const Excellent := "Excellent! Perfect pronunciation and grammar!"
  const GoodTry := "Good try! Let's practice the correct pronunciation."

  /** The two pronunciation messages, with the characters the file holds
      (UTF-8 emoji read back as Windows-1252). */
  const ListeningGarbled := "\U{F0}\U{178}\U{17D}\U{A4} Listening..."
  const GreatGarbled := "\U{E2}\U{153}\U{2026} Great pronunciation! Your accent is improving!"

  datatype LessonAttempt = LessonAttempt(text: string, isCorrect: bool)

  datatype LessonState = LessonState(
    input: string,               // userInput
    feedback: string,
    showAnswer: bool,
    attempts: seq<LessonAttempt>,
    listening: bool,             // isListening
    pronunciation: string,       // pronunciationFeedback
    pendingChecks: nat)          // simulated checks whose timeout is still due

  /** `userInput.toLowerCase().includes('je vais bien')` */
  predicate Correct(input: string) {
    Contains(Lower(input), Phrase)
  }

  /** `handleSubmit` */
  function Submit(s: LessonState): LessonState {
    if IsBlank(s.input) then s
    else
      var ok := Correct(s.input);
      s.(attempts := s.attempts + [LessonAttempt(s.input, ok)])
       .(showAnswer := true)
       .(feedback := if ok then Excellent else GoodTry)
       .(input := "")
  }

  /** A blank submission changes nothing. */
  lemma BlankSubmitIgnored(s: LessonState)
    requires IsBlank(s.input)
    ensures Submit(s) == s
  {
  }

  /** Any other submission appends exactly one attempt, holding the raw
      input and its verdict, after the earlier ones; it shows the answer,
      praises exactly the correct answers and clears the input. */
  lemma SubmitAppendsOne(s: LessonState)
    requires !IsBlank(s.input)
    ensures var r := Submit(s);
      |r.attempts| == |s.attempts| + 1 && r.attempts[..|s.attempts|] == s.attempts
      && r.attempts[|s.attempts|].text == s.input
      && (r.attempts[|s.attempts|].isCorrect <==> Correct(s.input))
      && (r.feedback == Excellent <==> Correct(s.input))
      && (r.feedback == GoodTry <==> !Correct(s.input))
      && r.showAnswer && r.input == ""
      && r.listening == s.listening && r.pronunciation == s.pronunciation
  {
    var r := Submit(s);
    assert r.attempts[..|s.attempts|] == s.attempts;
  }

  /** Submitting again at once does nothing: the input was cleared. */
  lemma SubmitTwice(s: LessonState)
    ensures Submit(Submit(s)) == Submit(s)
  {
    if !IsBlank(s.input) {
      assert Submit(s).input == "";
      assert IsBlank("");
    }
  }

  lemma {:induction false} LowerConcat(a: string, b: string)
    ensures Lower(a + b) == Lower(a) + Lower(b)
  {
    assert forall i :: 0 <= i < |a + b| ==> Lower(a + b)[i] == (Lower(a) + Lower(b))[i];
  }

  lemma PhraseIsLower()
    ensures Lower(Phrase) == Phrase
  {
  }

  /** Words around the phrase, in any case, do not matter. */
  lemma ExtraWordsAllowed(before: string, after: string)
    ensures Correct(before + Phrase + after)
  {
    LowerConcat(before + Phrase, after);
    LowerConcat(before, Phrase);
    PhraseIsLower();
    var t := Lower(before + Phrase + after);
    assert t == Lower(before) + Phrase + Lower(after);
    assert OccursAt(t, Phrase, |before|);
    ContainsIff(t, Phrase);
  }

  /** The verdict ignores case. */
  lemma CaseIgnored(input: string)
    ensures Correct(Lower(input)) == Correct(input)
  {
    assert Lower(Lower(input)) == Lower(input) by {
      forall i | 0 <= i < |input|
        ensures Lower(Lower(input))[i] == Lower(input)[i]
      {
        LowerCharIdempotent(input[i]);
      }
    }
  }

  /** An answer with no letter j in either case is wrong. */
  lemma NoJIsWrong(input: string)
    requires 'j' !in input && 'J' !in input
    ensures !Correct(input)
  {
    MissingFirstChar(Lower(input), Phrase);
  }

  /** The stored answer passes: its first three words are the phrase. */
  lemma StoredAnswerPasses()
    ensures Correct(StoredAnswer)
  {
    assert StoredAnswer == "Je vais bien" + ", merci";
    LowerConcat("Je vais bien", ", merci");
    assert Lower("Je vais bien") == Phrase;
    assert Lower(", merci") == ", merci";
    ExtraWordsAllowed("", ", merci");
    assert "" + Phrase + ", merci" == Phrase + ", merci";
  }

  /** The phrase with a doubled space fails. */
  lemma DoubledSpaceFails()
    ensures !Correct("je vais  bien")
  {
    var t := "je vais  bien";
    assert forall i :: 0 <= i < |t| ==> Lower(t)[i] == LowerChar(t[i]) == t[i];
    assert Lower(t) == t;
    forall k: int
      ensures !OccursAt(t, Phrase, k)
    {
      if k == 0 {
        assert t[k..k + |Phrase|][8] == ' ';
      } else if k == 1 {
        assert t[k..k + |Phrase|][0] == 'e';
      }
    }
    ContainsIff(t, Phrase);
  }

  /** `handlePronunciationCheck`: it listens and schedules the simulated
      result. */
  function StartCheck(s: LessonState): (r: LessonState)
    ensures r.listening && r.pendingChecks == s.pendingChecks + 1
  {
    s.(listening := true).(pronunciation := ListeningGarbled).(pendingChecks := s.pendingChecks + 1)
  }

  /** The check's timeout: whatever was said, it reports success. */
  function CheckTimeout(s: LessonState): (r: LessonState)
    requires s.pendingChecks > 0
    ensures !r.listening && r.pendingChecks == s.pendingChecks - 1
  {
    s.(listening := false).(pronunciation := GreatGarbled).(pendingChecks := s.pendingChecks - 1)
  }

  /** A check always ends in praise, and the typed-answer state is
      untouched by it. */
  lemma CheckAlwaysPraises(s: LessonState)
    ensures var r := CheckTimeout(StartCheck(s));
      r.pronunciation == GreatGarbled && !r.listening && r.pendingChecks == s.pendingChecks
      && r.input == s.input && r.attempts == s.attempts && r.feedback == s.feedback
  {
  }

  /** `nextStep` and `previousStep` only test their bounds. */
  predicate CanGoNext(l: Lesson) {
    l.currentStep < l.totalSteps
  }

  predicate CanGoBack(l: Lesson) {
    l.currentStep > 1
  }

  /** On the shipped lesson both buttons pass their test, yet neither moves
      the lesson: the step shown stays 3 of 5 whatever is clicked. */
  lemma ShippedStepBounds()
    ensures CanGoNext(CurrentLesson) && CanGoBack(CurrentLesson)
    ensures CurrentLesson.currentStep == 3
  {
  }

  class LessonPage {
    const lesson: Lesson
    var input: string
    var feedback: string
    var showAnswer: bool
    var attempts: seq<LessonAttempt>
    var listening: bool
    var pronunciation: string
    var pendingChecks: nat

    function State(): LessonState
      reads this
    {
      LessonState(input, feedback, showAnswer, attempts, listening, pronunciation, pendingChecks)
    }

    constructor ()
      ensures lesson == CurrentLesson
      ensures State() == LessonState("", "", false, [], false, "", 0)
    {
      lesson := CurrentLesson;
      input, feedback, showAnswer, attempts := "", "", false, [];
      listening, pronunciation, pendingChecks := false, "", 0;
    }

    method Type(text: string)
      modifies this
      ensures State() == old(State()).(input := text)
    {
      input := text;
    }

    method HandleSubmit()
      modifies this
      ensures State() == Submit(old(State()))
    {
      if IsBlank(input) {
        return;
      }
      var ok := Correct(input);
      ghost var s := State();
      attempts := attempts + [LessonAttempt(input, ok)];
      showAnswer := true;
      feedback := if ok then Excellent else GoodTry;
      input := "";
      assert State() == s.(attempts := s.attempts + [LessonAttempt(s.input, ok)])
        .(showAnswer := true).(feedback := if ok then Excellent else GoodTry).(input := "");
    }

    method HandlePronunciationCheck()
      modifies this
      ensures State() == StartCheck(old(State()))
    {
      listening := true;
      pronunciation := ListeningGarbled;
      pendingChecks := pendingChecks + 1;
    }

    /** One of the scheduled two-second timeouts fires. */
    method CheckTimeoutFires()
      requires pendingChecks > 0
      modifies this
      ensures State() == CheckTimeout(old(State()))
    {
      listening := false;
      pronunciation := GreatGarbled;
      pendingChecks := pendingChecks - 1;
    }

    /** `nextStep`: `moves` is whether the bound test passes; the page's
        state is left as it was. */
    method NextStep() returns (moves: bool)
      ensures moves <==> lesson.currentStep < lesson.totalSteps
    {
      moves := lesson.currentStep < lesson.totalSteps;
    }

    method PreviousStep() returns (moves: bool)
      ensures moves <==> lesson.currentStep > 1
    {
      moves := lesson.currentStep > 1;
    }
  }
}
