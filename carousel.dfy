/** The wrap-around arithmetic of the two carousels: the daily word of
    `project/src/components/Explore.jsx` and the testimonial of
    `project/src/components/Feedback.jsx`. Both indices start at 0 and only
    these two steps and a direct pick move them, so the `%` operands are
    never negative and JavaScript's remainder agrees with Dafny's. */
module Carousel {

  /** `(prev + 1) % length` */
  function Next(i: nat, n: nat): (r: nat)
    requires n > 0
    ensures r < n
  {
    (i + 1) % n
  }

  /** `(prev - 1 + length) % length` */
  function Prev(i: nat, n: nat): (r: nat)
    requires n > 0
    ensures r < n
  {
    (i - 1 + n) % n
  }

  /** Stepping forward from the last item wraps to the first, and back from
      the first wraps to the last; inside, each moves by one. */
  lemma Wraps(i: nat, n: nat)
    requires i < n
    ensures Next(i, n) == if i == n - 1 then 0 else i + 1
    ensures Prev(i, n) == if i == 0 then n - 1 else i - 1
  {
  }

  /** Each step undoes the other. */
  lemma PrevUndoesNext(i: nat, n: nat)
    requires i < n
    ensures Prev(Next(i, n), n) == i
    ensures Next(Prev(i, n), n) == i
  {
    Wraps(i, n);
    Wraps(Next(i, n), n);
    Wraps(Prev(i, n), n);
  }

  /** `k` steps forward. */
  function Forward(i: nat, n: nat, k: nat): (r: nat)
    requires i < n
    ensures r < n
  {
    if k == 0 then i else Next(Forward(i, n, k - 1), n)
  }

  /** Within the list, `k` steps forward move `k` places. */
  lemma {:induction false} ForwardInside(i: nat, n: nat, k: nat)
    requires i + k < n
    ensures Forward(i, n, k) == i + k
  {
    if k > 0 {
      ForwardInside(i, n, k - 1);
      Wraps(i + k - 1, n);
    }
  }

  /** The first step can be taken first. */
  lemma {:induction false} ForwardFirst(i: nat, n: nat, k: nat)
    requires i < n
    ensures Forward(i, n, k + 1) == Forward(Next(i, n), n, k)
  {
    if k > 0 {
      ForwardFirst(i, n, k - 1);
    }
  }

  /** Steps add up. */
  lemma {:induction false} ForwardAdds(i: nat, n: nat, a: nat, b: nat)
    requires i < n
    ensures Forward(i, n, a + b) == Forward(Forward(i, n, a), n, b)
  {
    if b > 0 {
      ForwardAdds(i, n, a, b - 1);
    }
  }

  /** A full round of steps comes back to where it started. */
  lemma FullRound(i: nat, n: nat)
    requires i < n
    ensures Forward(i, n, n) == i
  {
    ForwardAdds(i, n, n - 1 - i, i + 1);
    ForwardInside(i, n, n - 1 - i);
    ForwardFirst(n - 1, n, i);
    Wraps(n - 1, n);
    ForwardInside(0, n, i);
  }
}
