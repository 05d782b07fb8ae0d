/** The few JavaScript string primitives the application relies on:
    the `\s` character class, `toLowerCase`, `trim` and `includes`. */
module JsText {

  /** JavaScript's `\s` class; `String.prototype.trim` strips exactly the same set. */
  predicate IsSpace(c: char) {
    c == '\t' || c == '\n' || c == '\U{B}' || c == '\U{C}' || c == '\r' || c == ' '
    || c == '\U{A0}' || c == '\U{1680}' || ('\U{2000}' <= c <= '\U{200A}')
    || c == '\U{2028}' || c == '\U{2029}' || c == '\U{202F}' || c == '\U{205F}'
    || c == '\U{3000}' || c == '\U{FEFF}'
  }

  /** `toLowerCase` on one character, for ASCII and Latin-1 and for the four
      characters outside Latin-1 whose lower case lies in ASCII or Latin-1
      (Y with diaeresis, capital sharp s, the Kelvin sign and the Angstrom sign).
      Every other character is returned unchanged. */
  function LowerChar(c: char): (r: char)
    ensures IsSpace(r) == IsSpace(c)
  {
    if 'A' <= c <= 'Z' then (c as int + 32) as char
    else if '\U{C0}' <= c <= '\U{DE}' && c != '\U{D7}' then (c as int + 32) as char
    else if c == '\U{178}' then '\U{FF}'
    else if c == '\U{1E9E}' then '\U{DF}'
    else if c == '\U{212A}' then 'k'
    else if c == '\U{212B}' then '\U{E5}'
    else c
  }

  lemma LowerCharIdempotent(c: char)
    ensures LowerChar(LowerChar(c)) == LowerChar(c)
  {
  }

  /** `s.toLowerCase()` */
  function Lower(s: string): (r: string)
    ensures |r| == |s|
  {
    seq(|s|, i requires 0 <= i < |s| => LowerChar(s[i]))
  }

  /** Removes the leading `\s` characters. */
  function TrimStart(s: string): (r: string)
    ensures |r| <= |s| && r == s[|s| - |r|..]
    ensures r == [] || !IsSpace(r[0])
    ensures forall i :: 0 <= i < |s| - |r| ==> IsSpace(s[i])
    ensures s != [] && IsSpace(s[0]) ==> |r| < |s|
  {
    if s != [] && IsSpace(s[0]) then TrimStart(s[1..]) else s
  }

  /** Removes the trailing `\s` characters. */
  function TrimEnd(s: string): (r: string)
    ensures |r| <= |s| && r == s[..|r|]
    ensures r == [] || !IsSpace(r[|r| - 1])
    ensures forall i :: |r| <= i < |s| ==> IsSpace(s[i])
  {
    if s != [] && IsSpace(s[|s| - 1]) then TrimEnd(s[..|s| - 1]) else s
  }

  /** `TrimStart` stops at the first character outside `\s`. */
  lemma {:induction false} TrimStartAt(s: string, k: nat)
    requires k <= |s|
    requires forall i :: 0 <= i < k ==> IsSpace(s[i])
    requires k < |s| ==> !IsSpace(s[k])
    ensures TrimStart(s) == s[k..]
  {
    if k > 0 {
      assert forall i :: 0 <= i < k - 1 ==> s[1..][i] == s[i + 1];
      TrimStartAt(s[1..], k - 1);
      assert s[1..][k - 1..] == s[k..];
    }
  }

  /** `TrimEnd` stops at the last character outside `\s`. */
  lemma {:induction false} TrimEndAt(s: string, k: nat)
    requires k <= |s|
    requires forall i :: k <= i < |s| ==> IsSpace(s[i])
    requires 0 < k ==> !IsSpace(s[k - 1])
    ensures TrimEnd(s) == s[..k]
    decreases |s|
  {
    if k < |s| {
      var p := s[..|s| - 1];
      assert forall i :: k <= i < |p| ==> p[i] == s[i];
      TrimEndAt(p, k);
      assert p[..k] == s[..k];
    }
  }

  /** `s.trim()` */
  function Trim(s: string): string {
    TrimEnd(TrimStart(s))
  }

  /** `!s.trim()`: the string is empty once trimmed. */
  predicate IsBlank(s: string) {
    Trim(s) == []
  }

  /** A string is blank exactly when every character of it is in `\s`. */
  lemma BlankIffAllSpace(s: string)
    ensures IsBlank(s) <==> forall i :: 0 <= i < |s| ==> IsSpace(s[i])
  {
    var t := TrimStart(s);
    if IsBlank(s) {
      forall i | 0 <= i < |s| ensures IsSpace(s[i]) {
        assert i < |s| - |t| || i - (|s| - |t|) < |t|;
      }
    } else {
      var u := TrimEnd(t);
      assert u[0] == t[0] == s[|s| - |t|];
    }
  }

  /** The characters of `s` that are not in `\s`, in order. */
  function Visible(s: string): string {
    if s == [] then [] else (if IsSpace(s[0]) then [] else [s[0]]) + Visible(s[1..])
  }

  lemma {:induction false} VisibleConcat(x: string, y: string)
    ensures Visible(x + y) == Visible(x) + Visible(y)
  {
    if x != [] {
      assert (x + y)[1..] == x[1..] + y;
      VisibleConcat(x[1..], y);
    } else {
      assert x + y == y;
    }
  }

  /** A string has no visible character exactly when it is all `\s`. */
  lemma {:induction false} VisibleEmptyIff(x: string)
    ensures Visible(x) == [] <==> forall i :: 0 <= i < |x| ==> IsSpace(x[i])
  {
    if x != [] {
      VisibleEmptyIff(x[1..]);
      assert forall i :: 1 <= i < |x| ==> x[i] == x[1..][i - 1];
    }
  }

  /** Dropping a prefix of `\s` characters keeps the visible text. */
  lemma VisibleDropSpaces(s: string, k: nat)
    requires k <= |s|
    requires forall i :: 0 <= i < k ==> IsSpace(s[i])
    ensures Visible(s[k..]) == Visible(s)
  {
    assert s == s[..k] + s[k..];
    VisibleConcat(s[..k], s[k..]);
    VisibleEmptyIff(s[..k]);
  }

  /** Dropping a suffix of `\s` characters keeps the visible text. */
  lemma VisibleCutSpaces(s: string, k: nat)
    requires k <= |s|
    requires forall i :: k <= i < |s| ==> IsSpace(s[i])
    ensures Visible(s[..k]) == Visible(s)
  {
    assert s == s[..k] + s[k..];
    VisibleConcat(s[..k], s[k..]);
    VisibleEmptyIff(s[k..]);
  }

  /** Trimming removes only `\s` characters. */
  lemma VisibleTrim(s: string)
    ensures Visible(Trim(s)) == Visible(s)
  {
    var t := TrimStart(s);
    VisibleDropSpaces(s, |s| - |t|);
    VisibleCutSpaces(t, |TrimEnd(t)|);
  }

  /** `s.includes(p)`: `p` occurs in `s` as a contiguous block. */
  predicate Contains(s: string, p: string)
    decreases |s|
  {
    p <= s || (s != [] && Contains(s[1..], p))
  }

  /** `p` occurs in `s` starting at position `k`. */
  predicate OccursAt(s: string, p: string, k: int) {
    0 <= k <= |s| - |p| && s[k..k + |p|] == p
  }

  /** `includes` finds the block wherever it starts. */
  lemma {:induction false} ContainsIff(s: string, p: string)
    ensures Contains(s, p) <==> exists k :: OccursAt(s, p, k)
  {
    if p <= s {
      assert OccursAt(s, p, 0);
    } else if s == [] {
    } else {
      ContainsIff(s[1..], p);
      if exists k :: OccursAt(s, p, k) {
        var k :| OccursAt(s, p, k);
        assert OccursAt(s[1..], p, k - 1);
      }
      if Contains(s[1..], p) {
        var k :| OccursAt(s[1..], p, k);
        assert OccursAt(s, p, k + 1);
      }
    }
  }

  /** The empty pattern is found in every string. */
  lemma ContainsEmpty(s: string)
    ensures Contains(s, [])
  {
  }

  /** A non-empty block can only be found in a string holding its first character. */
  lemma ContainsFirstChar(s: string, p: string)
    requires p != []
    requires Contains(s, p)
    ensures p[0] in s
  {
    ContainsIff(s, p);
    var k :| OccursAt(s, p, k);
    assert s[k] == s[k..k + |p|][0];
  }

  /** A string without the block's first character does not contain it. */
  lemma MissingFirstChar(s: string, p: string)
    requires p != [] && p[0] !in s
    ensures !Contains(s, p)
  {
    if Contains(s, p) {
      ContainsFirstChar(s, p);
    }
  }
}
