/** The culture page of `project/src/components/Explore.jsx`: cultural
    facts shown by category, and a carousel of daily words. */
module Explore {
  import opened Sequences
  import opened Carousel

  datatype Fact = Fact(language: string, title: string, category: string)

  const CulturalFacts: seq<Fact> := [
    Fact("French", "The Art of French Dining", "Culture"),
    Fact("Spanish", "La Siesta Tradition", "Lifestyle"),
    Fact("Korean", "Bowing Etiquette", "Etiquette"),
    Fact("Italian", "Coffee Culture", "Food"),
    Fact("German", "Punctuality is Sacred", "Business"),
    Fact("Japanese", "Gift Wrapping Art", "Tradition")
  ]

  datatype Word = Word(language: string, word: string, pronunciation: string)

  const DailyWords: seq<Word> := [
    Word("French", "Fl\U{E2}ner", "flah-NAY"),
    Word("Spanish", "Sobremesa", "so-breh-MEH-sa"),
    Word("Korean", "\U{C815}", "jeong"),
    Word("Italian", "Sprezzatura", "spret-sa-TOO-ra"),
    Word("German", "Gem\U{FC}tlichkeit", "geh-MUET-likh-kite"),
    Word("Japanese", "\U{6728}\U{6F0F}\U{308C}\U{65E5}", "komorebi")
  ]

  const All := "All"

  /** The category buttons. */
  const Categories: seq<string> := [All, "Culture", "Lifestyle", "Etiquette", "Food", "Business", "Tradition"]

  /** `culturalFacts.filter(fact => fact.category === selectedCategory)` */
  function InCategory(facts: seq<Fact>, category: string): (r: seq<Fact>)
    ensures IsSubsequence(r, facts)
    ensures forall f :: f in r <==> f in facts && f.category == category
  {
    if facts == [] then []
    else
      var rest := InCategory(facts[1..], category);
      if facts[0].category == category then
        assert forall f :: f in [facts[0]] + rest <==> f == facts[0] || f in rest;
        [facts[0]] + rest
      else rest
  }

  /** `filteredFacts` */
  function FilteredFacts(category: string): (r: seq<Fact>)
    ensures category == All ==> r == CulturalFacts
    ensures IsSubsequence(r, CulturalFacts)
    ensures category != All ==> forall f :: f in r <==> f in CulturalFacts && f.category == category
  {
    if category == All then
      AllIsSubsequence(CulturalFacts);
      CulturalFacts
    else InCategory(CulturalFacts, category)
  }

  lemma {:induction false} AllIsSubsequence<T>(s: seq<T>)
    ensures IsSubsequence(s, s)
  {
    if s != [] {
      AllIsSubsequence(s[1..]);
    }
  }

  /** With the shipped facts every category button shows exactly one fact,
      the one of that category. */
  lemma EveryCategoryShowsOne(k: nat)
    requires 1 <= k < |Categories|
    ensures |FilteredFacts(Categories[k])| == 1
    ensures FilteredFacts(Categories[k]) == [CulturalFacts[k - 1]]
  {
    FactCategories();
    CategoriesDistinct();
    OnlyMatch(CulturalFacts, Categories[k], k - 1);
  }

  /** The n-th fact carries the n-th category button's label. */
  lemma FactCategories()
    ensures |CulturalFacts| == |Categories| - 1
    ensures forall j :: 0 <= j < |CulturalFacts| ==> CulturalFacts[j].category == Categories[j + 1]
  {
  }

  /** No two category buttons share a label. */
  lemma CategoriesDistinct()
    ensures forall i, j :: 0 <= i < j < |Categories| ==> Categories[i] != Categories[j]
  {
    forall i, j | 0 <= i < j < |Categories|
      ensures Categories[i] != Categories[j]
    {
      assert Categories[i][0] != Categories[j][0];
    }
  }

  /** A category carried by exactly one fact selects just that fact. */
  lemma {:induction false} OnlyMatch(facts: seq<Fact>, category: string, j: nat)
    requires j < |facts| && facts[j].category == category
    requires forall i :: 0 <= i < |facts| && i != j ==> facts[i].category != category
    ensures InCategory(facts, category) == [facts[j]]
  {
    if j == 0 {
      NoMatch(facts[1..], category);
    } else {
      OnlyMatch(facts[1..], category, j - 1);
    }
  }

  lemma {:induction false} NoMatch(facts: seq<Fact>, category: string)
    requires forall i :: 0 <= i < |facts| ==> facts[i].category != category
    ensures InCategory(facts, category) == []
  {
    if facts != [] {
      NoMatch(facts[1..], category);
    }
  }

  /** The page's state: the selected category and the word on show. */
  class ExplorePage {
    var category: string
    var wordIndex: nat

    predicate Valid()
      reads this
    {
      wordIndex < |DailyWords|
    }

    constructor ()
      ensures Valid() && category == All && wordIndex == 0
    {
      category, wordIndex := All, 0;
    }

    /** A category button. */
    method SelectCategory(c: string)
      modifies this
      ensures category == c && wordIndex == old(wordIndex)
    {
      category := c;
    }

    /** The facts on show. */
    method Facts() returns (r: seq<Fact>)
      ensures r == FilteredFacts(category)
    {
      r := FilteredFacts(category);
    }

    /** `nextWord` */
    method NextWord()
      requires Valid()
      modifies this
      ensures Valid() && category == old(category)
      ensures wordIndex == Next(old(wordIndex), |DailyWords|)
    {
      wordIndex := (wordIndex + 1) % |DailyWords|;
    }

    /** `prevWord` */
    method PrevWord()
      requires Valid()
      modifies this
      ensures Valid() && category == old(category)
      ensures wordIndex == Prev(old(wordIndex), |DailyWords|)
    {
      wordIndex := (wordIndex - 1 + |DailyWords|) % |DailyWords|;
    }

    /** The word on show. */
    method CurrentWord() returns (w: Word)
      requires Valid()
      ensures w == DailyWords[wordIndex]
    {
      w := DailyWords[wordIndex];
    }
  }

  /** After the last word comes the first, before the first the last, the
      two buttons undo each other, and six presses of either come back. */
  lemma WordCarousel(i: nat)
    requires i < |DailyWords|
    ensures Next(|DailyWords| - 1, |DailyWords|) == 0
    ensures Prev(0, |DailyWords|) == |DailyWords| - 1
    ensures Prev(Next(i, |DailyWords|), |DailyWords|) == i
    ensures Next(Prev(i, |DailyWords|), |DailyWords|) == i
    ensures Forward(i, |DailyWords|, |DailyWords|) == i
  {
    Wraps(|DailyWords| - 1, |DailyWords|);
    Wraps(0, |DailyWords|);
    PrevUndoesNext(i, |DailyWords|);
    FullRound(i, |DailyWords|);
  }
}
