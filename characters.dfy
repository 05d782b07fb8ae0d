/** The tutor directory of `project/src/components/Characters.jsx`: a
    search box and three drop-down filters over a fixed roster, and the
    option lists of the drop-downs. */
module Characters {
  import opened JsText
  import opened Sequences

  /** The fields of a roster entry that the search and filters read. */
  datatype Character = Character(id: string, name: string, title: string, level: string, language: string, tone: string)

  const Roster: seq<Character> := [
    Character("french-basics", "Pierre Dubois", "French Chef", "Beginner", "French", "Encouraging"),
    Character("spanish-conversation", "Mar\U{ED}a Gonz\U{E1}lez", "Spanish Teacher", "Intermediate", "Spanish", "Energetic"),
    Character("korean-basics", "Minjun Kim", "Korean Actor", "Beginner", "Korean", "Fun"),
    Character("italian-romance", "Sofia Romano", "Italian Artist", "Intermediate", "Italian", "Passionate"),
    Character("german-business", "Hans Mueller", "Business Consultant", "Advanced", "German", "Professional"),
    Character("japanese-anime", "Yuki Tanaka", "Anime Voice Actor", "Beginner", "Japanese", "Energetic")
  ]

  const All := "All"

  /** `searchTerm`, `filterLanguage`, `filterLevel` and `filterTone`. */
  datatype Filters = Filters(search: string, language: string, level: string, tone: string)

  /** What the page starts with, and what Clear Filters sets. */
  const Cleared := Filters("", All, All, All)

  /** The search term, lower-cased, occurs in the lower-cased name, title
      or language. */
  predicate MatchesSearch(c: Character, term: string) {
    Contains(Lower(c.name), Lower(term)) || Contains(Lower(c.title), Lower(term))
    || Contains(Lower(c.language), Lower(term))
  }

  /** A drop-down passes a value when it is set to `'All'` or to that value. */
  predicate Selects(choice: string, value: string) {
    choice == All || value == choice
  }

  predicate Keeps(f: Filters, c: Character) {
    MatchesSearch(c, f.search) && Selects(f.language, c.language)
    && Selects(f.level, c.level) && Selects(f.tone, c.tone)
  }

  /** `filteredCharacters`: the entries that every test keeps, in roster
      order. */
  function Filtered(cs: seq<Character>, f: Filters): (r: seq<Character>)
    ensures IsSubsequence(r, cs)
    ensures forall c :: c in r <==> c in cs && Keeps(f, c)
    ensures |r| <= |cs|
  {
    if cs == [] then []
    else
      var rest := Filtered(cs[1..], f);
      if Keeps(f, cs[0]) then
        assert forall c :: c in [cs[0]] + rest <==> c == cs[0] || c in rest;
        [cs[0]] + rest
      else rest
  }

  /** Every string contains the empty search term. */
  lemma EmptySearchMatches(c: Character)
    ensures MatchesSearch(c, "")
  {
    assert Lower("") == "";
    ContainsEmpty(Lower(c.name));
  }

  /** With the filters cleared every entry is kept, in order: Clear Filters
      restores the whole list. */
  lemma {:induction false} ClearedKeepsAll(cs: seq<Character>)
    ensures Filtered(cs, Cleared) == cs
  {
    if cs != [] {
      EmptySearchMatches(cs[0]);
      ClearedKeepsAll(cs[1..]);
      assert [cs[0]] + cs[1..] == cs;
    }
  }

  /** Setting a drop-down to a value narrows the result: it keeps exactly
      the entries the old filters kept that carry that value. */
  lemma {:induction false} LanguageNarrows(cs: seq<Character>, f: Filters, language: string)
    requires f.language == All
    ensures Filtered(cs, f.(language := language)) ==
      Filtered(Filtered(cs, f), Filters("", language, All, All))
  {
    if cs != [] {
      EmptySearchMatches(cs[0]);
      LanguageNarrows(cs[1..], f, language);
    }
  }

  // ---------------------------------------------------------------------
  // The option lists

  /** `[...new Set(values)]`: each value once, in order of first
      appearance. */
  function Distinct(values: seq<string>): (r: seq<string>)
    decreases |values|
  {
    if values == [] then []
    else
      var d := Distinct(values[..|values| - 1]);
      if values[|values| - 1] in d then d else d + [values[|values| - 1]]
  }

  /** The position where `v` first occurs in `values`. */
  function FirstIndex(values: seq<string>, v: string): (k: nat)
    requires v in values
    ensures k < |values| && values[k] == v && v !in values[..k]
  {
    if values[0] == v then 0
    else
      var k := FirstIndex(values[1..], v);
      assert values[1..][..k] == values[1..k + 1];
      1 + k
  }

  lemma FirstIndexSnoc(values: seq<string>, x: string, v: string)
    requires v in values
    ensures FirstIndex(values + [x], v) == FirstIndex(values, v)
  {
    var k := FirstIndex(values, v);
    var w := values + [x];
    assert w[..k] == values[..k] && w[k] == v;
    FirstIndexUnique(w, v, k);
  }

  /** The first occurrence is the only position before which `v` is missing. */
  lemma {:induction false} FirstIndexUnique(values: seq<string>, v: string, k: nat)
    requires k < |values| && values[k] == v && v !in values[..k]
    ensures FirstIndex(values, v) == k
  {
    if values[0] != v {
      assert k > 0;
      assert values[1..][..k - 1] == values[1..k];
      FirstIndexUnique(values[1..], v, k - 1);
    }
  }

  /** The list has no repeats, holds exactly the values, and lists them in
      the order of their first appearance. */
  lemma {:induction false} DistinctSpec(values: seq<string>)
    ensures forall i, j :: 0 <= i < j < |Distinct(values)| ==> Distinct(values)[i] != Distinct(values)[j]
    ensures forall v :: v in Distinct(values) <==> v in values
    ensures forall i, j :: 0 <= i < j < |Distinct(values)| ==>
      FirstIndex(values, Distinct(values)[i]) < FirstIndex(values, Distinct(values)[j])
    decreases |values|
  {
    if values != [] {
      var init, x := values[..|values| - 1], values[|values| - 1];
      assert values == init + [x];
      DistinctSpec(init);
      var d := Distinct(init);
      forall v | v in init
        ensures FirstIndex(values, v) == FirstIndex(init, v)
      {
        FirstIndexSnoc(init, x, v);
      }
      forall v | v in values
        ensures v in init || v == x
      {
        var i :| 0 <= i < |values| && values[i] == v;
        if i < |init| {
          assert init[i] == v;
        }
      }
      if x !in d {
        assert x !in init;
        assert FirstIndex(values, x) == |init| by {
          assert values[..|init|] == init;
          FirstIndexUnique(values, x, |init|);
        }
        forall i, j | 0 <= i < j < |d + [x]|
          ensures FirstIndex(values, (d + [x])[i]) < FirstIndex(values, (d + [x])[j])
        {
          if j == |d| {
            assert (d + [x])[i] == d[i] && d[i] in init;
          } else {
            assert (d + [x])[i] == d[i] && (d + [x])[j] == d[j];
          }
        }
      }
    }
  }

  /** The three option lists: `'All'` and then the roster's distinct values. */
  function Languages(): seq<string> {
    [All] + Distinct(seq(|Roster|, i requires 0 <= i < |Roster| => Roster[i].language))
  }

  function Levels(): seq<string> {
    [All] + Distinct(seq(|Roster|, i requires 0 <= i < |Roster| => Roster[i].level))
  }

  function Tones(): seq<string> {
    [All] + Distinct(seq(|Roster|, i requires 0 <= i < |Roster| => Roster[i].tone))
  }

  /** One more value: appended when new, otherwise the list is unchanged. */
  lemma DistinctSnoc(values: seq<string>, x: string)
    ensures Distinct(values + [x]) ==
      if x in Distinct(values) then Distinct(values) else Distinct(values) + [x]
  {
    assert (values + [x])[..|values|] == values;
  }

  /** The roster's level column, entry by entry. */
  lemma LevelColumn()
    ensures seq(|Roster|, k requires 0 <= k < |Roster| => Roster[k].level)
      == ["Beginner", "Intermediate", "Beginner", "Intermediate", "Advanced", "Beginner"]
  {
  }

  /** The first two levels, then a repeat. */
  lemma DistinctLevelsHead(b: string, i: string)
    requires b != i
    ensures Distinct([b, i, b]) == [b, i]
  {
    DistinctSnoc([], b);
    assert [] + [b] == [b];
    DistinctSnoc([b], i);
    assert [b] + [i] == [b, i];
    DistinctSnoc([b, i], b);
    assert [b, i] + [b] == [b, i, b];
  }

  /** The remaining three levels: a repeat, a new one and a repeat. */
  lemma DistinctLevelsTail(b: string, i: string, a: string)
    requires b != i && a != b && a != i
    ensures Distinct([b, i, b, i, a, b]) == [b, i, a]
  {
    DistinctLevelsHead(b, i);
    DistinctSnoc([b, i, b], i);
    assert [b, i, b] + [i] == [b, i, b, i];
    DistinctSnoc([b, i, b, i], a);
    assert [b, i, b, i] + [a] == [b, i, b, i, a];
    DistinctSnoc([b, i, b, i, a], b);
    assert [b, i, b, i, a] + [b] == [b, i, b, i, a, b];
  }

  /** The level drop-down offers the three levels the roster uses, once
      each, in roster order. */
  lemma ShippedLevels()
    ensures Levels() == [All, "Beginner", "Intermediate", "Advanced"]
  {
    LevelColumn();
    DistinctLevelsTail("Beginner", "Intermediate", "Advanced");
  }

  /** Each value offered in a drop-down other than `'All'` keeps at least
      one tutor once chosen, with the search empty and the other two
      drop-downs on `'All'`. */
  lemma OptionsSelectSomeone(language: string)
    requires language in Languages()[1..]
    ensures Filtered(Roster, Cleared.(language := language)) != []
  {
    var ls := seq(|Roster|, i requires 0 <= i < |Roster| => Roster[i].language);
    DistinctSpec(ls);
    assert language in Distinct(ls);
    var i :| 0 <= i < |Roster| && ls[i] == language;
    var c := Roster[i];
    EmptySearchMatches(c);
    assert Keeps(Cleared.(language := language), c);
    assert c in Roster;
  }
}
