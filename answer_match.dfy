/** The answer normaliser of the chat page,
      str.toLowerCase().replace(/[^kept]/g, '').replace(/\s+/g, ' ').trim()
    with its two kept alphabets, the typed-answer verdict built on it, and the
    looser matcher used for recognised speech. */
module AnswerMatch {
  import opened JsText
  import opened Sequences

  /** The kept class: `[a-zA-Z0-9À-ÿ''\s]` in the project's chat (the
      apostrophe is written twice, both times the straight one) and
      `[a-zA-Z0-9À-ÿ'’\s]` in my-app's chat (straight and curly). */
  datatype Alphabet = Straight | StraightAndCurly

  predicate Kept(a: Alphabet, c: char) {
    ('a' <= c <= 'z') || ('A' <= c <= 'Z') || ('0' <= c <= '9') || ('\U{C0}' <= c <= '\U{FF}')
    || c == '\'' || (a == StraightAndCurly && c == '\U{2019}') || IsSpace(c)
  }

  /** `replace(/[^kept]/g, '')`: drops every character outside the kept
      class and keeps the others, in their order. */
  function KeepOnly(a: Alphabet, s: string): (r: string)
    ensures |r| <= |s|
    ensures forall i :: 0 <= i < |r| ==> Kept(a, r[i])
    ensures forall c {:trigger c in r} {:trigger c in s} :: c in r <==> c in s && Kept(a, c)
    ensures IsSubsequence(r, s)
  {
    if s == [] then []
    else
      var r := (if Kept(a, s[0]) then [s[0]] else []) + KeepOnly(a, s[1..]);
      assert IsSubsequence(r, s) by {
        if Kept(a, s[0]) {
          assert r[0] == s[0] && r[1..] == KeepOnly(a, s[1..]);
        } else {
          assert r == KeepOnly(a, s[1..]);
        }
      }
      r
  }

  /** No two adjacent plain spaces. */
  predicate NoDoubleSpace(s: string) {
    forall i :: 0 <= i < |s| - 1 ==> !(s[i] == ' ' && s[i + 1] == ' ')
  }

  /** `replace(/\s+/g, ' ')`: every maximal run of `\s` becomes a single space. */
  function Collapse(s: string): (r: string)
    decreases |s|
    ensures r == [] <==> s == []
    ensures r != [] ==> (r[0] == ' ' <==> IsSpace(s[0]))
    ensures NoDoubleSpace(r)
  {
    if s == [] then []
    else if IsSpace(s[0]) then [' '] + Collapse(TrimStart(s))
    else [s[0]] + Collapse(s[1..])
  }

  /** The chat page's `normalize`. */
  function Normalize(a: Alphabet, s: string): string {
    Trim(Collapse(KeepOnly(a, Lower(s))))
  }

  /** A character that can survive normalisation other than the space. */
  predicate Solid(a: Alphabet, c: char) {
    Kept(a, c) && !IsSpace(c) && LowerChar(c) == c
  }

  /** The shape of every normalised string: lower-case kept characters and
      single plain spaces, with no space at either end. */
  predicate IsNormal(a: Alphabet, t: string) {
    (forall i :: 0 <= i < |t| ==> t[i] == ' ' || Solid(a, t[i]))
    && NoDoubleSpace(t)
    && (t != [] ==> t[0] != ' ' && t[|t| - 1] != ' ')
  }

  /** Some character of `s` lower-cases to a kept character outside `\s`:
      exactly the characters that `normalize` lets through. */
  predicate HasKeptVisible(a: Alphabet, s: string) {
    exists i :: 0 <= i < |s| && Kept(a, LowerChar(s[i])) && !IsSpace(s[i])
  }

  /** Every character is in `\s` or could survive normalisation. */
  predicate SpaceOrSolid(a: Alphabet, x: string) {
    forall i :: 0 <= i < |x| ==> IsSpace(x[i]) || Solid(a, x[i])
  }

  lemma {:induction false} KeepOnlyLower(a: Alphabet, x: string)
    requires forall i :: 0 <= i < |x| ==> LowerChar(x[i]) == x[i]
    ensures SpaceOrSolid(a, KeepOnly(a, x))
  {
    if x != [] {
      KeepOnlyLower(a, x[1..]);
    }
  }

  lemma {:induction false} CollapseSolid(a: Alphabet, x: string)
    requires SpaceOrSolid(a, x)
    ensures forall i :: 0 <= i < |Collapse(x)| ==> Collapse(x)[i] == ' ' || Solid(a, Collapse(x)[i])
    decreases |x|
  {
    if x != [] {
      if IsSpace(x[0]) {
        var t := TrimStart(x);
        assert forall i :: 0 <= i < |t| ==> t[i] == x[|x| - |t| + i];
        CollapseSolid(a, t);
      } else {
        assert forall i :: 0 <= i < |x| - 1 ==> x[1..][i] == x[i + 1];
        CollapseSolid(a, x[1..]);
      }
    }
  }

  lemma NormalizeIsNormal(a: Alphabet, s: string)
    ensures IsNormal(a, Normalize(a, s))
  {
    var w := Collapse(KeepOnly(a, Lower(s)));
    LowerSpaceOrSolid(a, s);
    CollapseSolid(a, KeepOnly(a, Lower(s)));
    TrimNormal(a, w);
  }

  /** After lower-casing and filtering, only `\s` and solid characters remain. */
  lemma LowerSpaceOrSolid(a: Alphabet, s: string)
    ensures SpaceOrSolid(a, KeepOnly(a, Lower(s)))
  {
    var u := Lower(s);
    forall i | 0 <= i < |u| ensures LowerChar(u[i]) == u[i] {
      LowerCharIdempotent(s[i]);
    }
    KeepOnlyLower(a, u);
  }

  /** Trimming a collapsed string of solid characters and spaces leaves a
      normal one. */
  lemma TrimNormal(a: Alphabet, w: string)
    requires forall i :: 0 <= i < |w| ==> w[i] == ' ' || Solid(a, w[i])
    requires NoDoubleSpace(w)
    ensures IsNormal(a, Trim(w))
  {
    var t := TrimStart(w);
    var r := TrimEnd(t);
    assert forall i :: 0 <= i < |r| ==> r[i] == w[|w| - |t| + i];
  }

  lemma {:induction false} KeepOnlyAllKept(a: Alphabet, t: string)
    requires forall i :: 0 <= i < |t| ==> Kept(a, t[i])
    ensures KeepOnly(a, t) == t
  {
    if t != [] {
      KeepOnlyAllKept(a, t[1..]);
    }
  }

  lemma {:induction false} CollapseFixed(t: string)
    requires forall i :: 0 <= i < |t| ==> t[i] == ' ' || !IsSpace(t[i])
    requires NoDoubleSpace(t)
    ensures Collapse(t) == t
  {
    if t != [] {
      var rest := t[1..];
      assert forall i :: 0 <= i < |rest| ==> rest[i] == t[i + 1];
      CollapseFixed(rest);
      if IsSpace(t[0]) {
        assert rest == [] || !IsSpace(rest[0]);
        assert TrimStart(rest) == rest;
      }
    }
  }

  /** A normalised string is left as it is by `normalize`. */
  lemma NormalFixed(a: Alphabet, t: string)
    requires IsNormal(a, t)
    ensures Normalize(a, t) == t
  {
    assert Lower(t) == t;
    KeepOnlyAllKept(a, t);
    CollapseFixed(t);
    if t != [] {
      assert TrimStart(t) == t;
      assert TrimEnd(t) == t;
    }
  }

  /** `normalize` is idempotent. */
  lemma NormalizeIdempotent(a: Alphabet, s: string)
    ensures Normalize(a, Normalize(a, s)) == Normalize(a, s)
  {
    NormalizeIsNormal(a, s);
    NormalFixed(a, Normalize(a, s));
  }

  lemma {:induction false} KeepOnlyConcat(a: Alphabet, x: string, y: string)
    ensures KeepOnly(a, x + y) == KeepOnly(a, x) + KeepOnly(a, y)
  {
    if x == [] {
      assert x + y == y;
    } else {
      assert (x + y)[1..] == x[1..] + y;
      KeepOnlyConcat(a, x[1..], y);
    }
  }

  /** Lower-casing first changes nothing: `normalize` already lower-cases. */
  lemma NormalizeLower(a: Alphabet, s: string)
    ensures Normalize(a, Lower(s)) == Normalize(a, s)
  {
    forall i | 0 <= i < |s| ensures LowerChar(LowerChar(s[i])) == LowerChar(s[i]) {
      LowerCharIdempotent(s[i]);
    }
    assert Lower(Lower(s)) == Lower(s);
  }

  lemma {:induction false} CollapseVisible(s: string)
    ensures Visible(Collapse(s)) == Visible(s)
    decreases |s|
  {
    if s != [] {
      if IsSpace(s[0]) {
        var t := TrimStart(s);
        CollapseVisible(t);
        VisibleConcat([' '], Collapse(t));
        VisibleDropSpaces(s, |s| - |t|);
      } else {
        CollapseVisible(s[1..]);
        VisibleConcat([s[0]], Collapse(s[1..]));
      }
    }
  }

  lemma {:induction false} KeepOnlyVisibleEmpty(a: Alphabet, t: string)
    ensures Visible(KeepOnly(a, t)) == [] <==> forall i :: 0 <= i < |t| ==> !Kept(a, t[i]) || IsSpace(t[i])
  {
    if t != [] {
      KeepOnlyVisibleEmpty(a, t[1..]);
      VisibleConcat(if Kept(a, t[0]) then [t[0]] else [], KeepOnly(a, t[1..]));
      assert forall i :: 1 <= i < |t| ==> t[i] == t[1..][i - 1];
    }
  }

  /** `normalize` yields the empty string exactly when no character of the
      input lower-cases to a kept character outside `\s`. */
  lemma NormalizeEmptyIff(a: Alphabet, s: string)
    ensures Normalize(a, s) == [] <==> !HasKeptVisible(a, s)
  {
    NormalizeVisible(a, s);
    NormalEmptyIffInvisible(a, s);
    KeepOnlyVisibleEmpty(a, Lower(s));
    LowerKeptVisible(a, s);
  }

  /** Normalising keeps exactly the kept characters outside `\s`. */
  lemma NormalizeVisible(a: Alphabet, s: string)
    ensures Visible(Normalize(a, s)) == Visible(KeepOnly(a, Lower(s)))
  {
    var v := KeepOnly(a, Lower(s));
    VisibleTrim(Collapse(v));
    CollapseVisible(v);
  }

  /** A normalised string is empty exactly when it has nothing outside `\s`. */
  lemma NormalEmptyIffInvisible(a: Alphabet, s: string)
    ensures Normalize(a, s) == [] <==> Visible(Normalize(a, s)) == []
  {
    var r := Normalize(a, s);
    NormalizeIsNormal(a, s);
    VisibleEmptyIff(r);
    assert r != [] ==> !IsSpace(r[0]);
  }

  /** Lower-casing keeps `\s`, so the lower-cased input has a kept
      character outside `\s` exactly when the input has one that
      lower-cases to a kept character. */
  lemma LowerKeptVisible(a: Alphabet, s: string)
    ensures (forall i :: 0 <= i < |Lower(s)| ==> !Kept(a, Lower(s)[i]) || IsSpace(Lower(s)[i]))
      <==> !HasKeptVisible(a, s)
  {
    var u := Lower(s);
    assert forall i :: 0 <= i < |u| ==> u[i] == LowerChar(s[i]) && IsSpace(u[i]) == IsSpace(s[i]);
  }

  lemma {:induction false} KeepOnlyOnlySpaces(a: Alphabet, x: string)
    requires forall i :: 0 <= i < |x| ==> IsSpace(x[i]) || !Kept(a, x[i])
    ensures forall i :: 0 <= i < |KeepOnly(a, x)| ==> IsSpace(KeepOnly(a, x)[i])
  {
    if x != [] {
      assert forall i :: 0 <= i < |x| - 1 ==> x[1..][i] == x[i + 1];
      KeepOnlyOnlySpaces(a, x[1..]);
    }
  }

  /** A Hangul syllable block (U+AC00 to U+D7A3). */
  predicate IsHangul(c: char) {
    '\U{AC00}' <= c <= '\U{D7A3}'
  }

  /** Text made of Hangul and spaces normalises to the empty string under
      either alphabet. */
  lemma HangulNormalizesEmpty(a: Alphabet, s: string)
    requires forall i :: 0 <= i < |s| ==> IsHangul(s[i]) || IsSpace(s[i])
    ensures Normalize(a, s) == []
  {
    forall i | 0 <= i < |s| ensures !Kept(a, LowerChar(s[i])) || IsSpace(s[i]) {
      assert IsHangul(s[i]) ==> LowerChar(s[i]) == s[i];
    }
    assert !HasKeptVisible(a, s);
    NormalizeEmptyIff(a, s);
  }

  /** The typed-answer verdict: equality after normalisation. */
  predicate TypedCorrect(a: Alphabet, input: string, answer: string) {
    Normalize(a, input) == Normalize(a, answer)
  }

  /** Against an answer that normalises to the empty string, an input is
      judged correct exactly when it contains no kept character outside `\s`:
      a Latin letter or digit makes it wrong, Hangul and punctuation do not. */
  lemma VerdictAgainstEmptyAnswer(a: Alphabet, input: string, answer: string)
    requires Normalize(a, answer) == []
    ensures TypedCorrect(a, input, answer) <==> !HasKeptVisible(a, input)
  {
    NormalizeEmptyIff(a, input);
  }

  /** `currentPrompt.answer.toLowerCase().replace(/[^a-zA-Z0-9À-ÿ'\s]/g, '').trim()`:
      the pattern recognised speech is searched for (no whitespace collapse). */
  function SpeechPattern(answer: string): string {
    Trim(KeepOnly(Straight, Lower(answer)))
  }

  /** `transcript.trim().toLowerCase()` */
  function Transcript(raw: string): string {
    Lower(Trim(raw))
  }

  /** The pronunciation check passes when the transcript contains the pattern. */
  predicate SpeechPasses(raw: string, answer: string) {
    Contains(Transcript(raw), SpeechPattern(answer))
  }

  /** An answer of Hangul and spaces gives the empty pattern, so every
      transcript passes. */
  lemma HangulSpeechAlwaysPasses(raw: string, answer: string)
    requires forall i :: 0 <= i < |answer| ==> IsHangul(answer[i]) || IsSpace(answer[i])
    ensures SpeechPattern(answer) == []
    ensures SpeechPasses(raw, answer)
  {
    var u := Lower(answer);
    forall i | 0 <= i < |u| ensures IsSpace(u[i]) || !Kept(Straight, u[i]) {
      assert IsHangul(answer[i]) ==> u[i] == answer[i];
    }
    KeepOnlyOnlySpaces(Straight, u);
    BlankIffAllSpace(KeepOnly(Straight, u));
  }
}
