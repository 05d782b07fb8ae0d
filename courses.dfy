/** The three courses of the chat page and their fixed decks of prompts,
    shared by both copies of the page, with the derived texts the page
    builds from a prompt: the default hint and the slow pronunciation. */
module Courses {
  import opened Options
  import opened JsText
  import opened AnswerMatch

  datatype Course = French | Spanish | Korean

  /** A prompt. An absent `hint` or `pronunciation` is the empty string,
      which JavaScript treats as falsy just like `undefined`. */
  datatype Prompt = Prompt(text: string, answer: string, english: string,
                           hint: string, pronunciation: string)

  /** The route parameter selects a course; any other value has no deck. */
  function CourseOf(id: string): (r: Option<Course>)
    ensures r.Some? <==> id in {"french-basics", "spanish-conversation", "korean-basics"}
  {
    if id == "french-basics" then Some(French)
    else if id == "spanish-conversation" then Some(Spanish)
    else if id == "korean-basics" then Some(Korean)
    else None
  }

  function CourseName(c: Course): string {
    match c
    case French => "Pierre the French Chef"
    case Spanish => "Mar\U{ED}a the Spanish Teacher"
    case Korean => "Minjun the Korean Actor"
  }

  function CourseIntro(c: Course): string {
    match c
    case French => "Bonjour! I'm Pierre, your friendly French chef. Together, we'll cook up some delicious French phrases and have fun learning! Did you know? In France, people greet each other with a kiss on each cheek!"
    case Spanish => "\U{A1}Hola! I'm Mar\U{ED}a, your Spanish teacher. Let's have fun practicing Spanish conversation together! Did you know? In Spain, people often have dinner as late as 10pm!"
    case Korean => "\U{C548}\U{B155}\U{D558}\U{C138}\U{C694}! I'm Minjun, your Korean actor friend. Let's learn Korean basics and pronunciation! Did you know? Bowing is a common way to greet people in Korea!"
  }

  /** What the intro screen speaks: the name, a full stop, the intro. */
  function WelcomeText(c: Course): string {
    CourseName(c) + ". " + CourseIntro(c)
  }

  function Deck(c: Course): (d: seq<Prompt>)
    ensures |d| == 4
  {
    match c
    case French => FrenchDeck
    case Spanish => SpanishDeck
    case Korean => KoreanDeck
  }

  /** `prompts[character]` for the route's course. An unknown course has no
      deck, so `prompts[character]?.[i]` is undefined for every `i`: it
      reads as an empty deck. */
  function RouteDeck(c: Option<Course>): (d: seq<Prompt>)
    ensures c.None? <==> d == []
    ensures c.Some? ==> d == Deck(c.value)
  {
    match c
    case None => []
    case Some(course) => Deck(course)
  }

  const FrenchDeck := [
    Prompt("Bonjour", "bonjour", "Hello", "Try saying: 'bonjour' (bon-zhoor).", ""),
    Prompt("Comment \U{E7}a va?", "\U{E7}a va bien", "How are you? -> I am well.", "Reply with: '\U{E7}a va bien' (sah vah byan).", ""),
    Prompt("Merci", "merci", "Thank you", "Say: 'merci' (mehr-see).", ""),
    Prompt("Au revoir", "au revoir", "Goodbye", "Say: 'au revoir' (oh ruh-vwar).", "")]

  const SpanishDeck := [
    Prompt("Hola, \U{BF}c\U{F3}mo est\U{E1}s?", "estoy bien", "Hello, how are you? -> I am fine.", "Reply: 'estoy bien' (eh-stoy byen).", ""),
    Prompt("\U{BF}De d\U{F3}nde eres?", "soy de", "Where are you from? -> I am from...", "Say: 'soy de...' (soy deh).", ""),
    Prompt("\U{BF}Qu\U{E9} te gusta hacer?", "me gusta", "What do you like to do? -> I like to...", "Start with: 'me gusta...' (meh goos-tah).", ""),
    Prompt("Adi\U{F3}s", "adi\U{F3}s", "Goodbye", "Say: 'adi\U{F3}s' (ah-dee-os).", "")]

  const KoreanDeck := [
    Prompt(Hello, Hello, "Hello", "Say: 'annyeonghaseyo' (ahn-nyoung-ha-se-yo).", "annyeonghaseyo"),
    Prompt("\U{C774}\U{B984}\U{C774} \U{BB50}\U{C608}\U{C694}?", MyNameIs, "What is your name? -> My name is...", "Reply: 'je ireumeun ...' (jeh ee-reum-eun ...).", "ireumi mwoyeyo? -> je ireumeun..."),
    Prompt(ThankYou, ThankYou, "Thank you", "Say: 'gamsahamnida' (gam-sa-ham-ni-da).", "gamsahamnida"),
    Prompt(Goodbye, Goodbye, "Goodbye", "Say: 'annyeonghi gaseyo' (an-nyoung-hee ga-se-yo).", "annyeonghi gaseyo")]

  /** The four Korean answers. */
  const Hello := "\U{C548}\U{B155}\U{D558}\U{C138}\U{C694}"
  const MyNameIs := "\U{C81C} \U{C774}\U{B984}\U{C740}"
  const ThankYou := "\U{AC10}\U{C0AC}\U{D569}\U{B2C8}\U{B2E4}"
  const Goodbye := "\U{C548}\U{B155}\U{D788} \U{AC00}\U{C138}\U{C694}"

  /** The hint shown for a prompt: its own, or `Try saying: "<answer>"`
      when it has none (the page writes this default into the prompt). */
  function HintOf(p: Prompt): (h: string)
    ensures h != []
    ensures p.hint != [] ==> h == p.hint
    ensures p.hint == [] ==> h == "Try saying: \"" + p.answer + "\""
    ensures p.hint == [] ==> h[|"Try saying: \""|..|h| - 1] == p.answer
  {
    if p.hint != [] then p.hint else "Try saying: \"" + p.answer + "\""
  }

  /** Every shipped prompt carries its own hint, so the default is never used. */
  lemma ShippedHintsKept(c: Course, i: nat)
    requires i < |Deck(c)|
    ensures HintOf(Deck(c)[i]) == Deck(c)[i].hint
  {
    var p := Deck(c)[i];
    assert p.hint != [] by {
      match c
      case French => assert p == FrenchDeck[i];
      case Spanish => assert p == SpanishDeck[i];
      case Korean => assert p == KoreanDeck[i];
    }
  }

  /** `s.split('').join(' ')`: one space between each pair of adjacent characters. */
  function SpacedOut(s: string): (r: string)
    ensures s == [] ==> r == []
    ensures s != [] ==> |r| == 2 * |s| - 1
  {
    if |s| <= 1 then s else [s[0], ' '] + SpacedOut(s[1..])
  }

  /** Character `i` of the input sits at position `2i`; every odd position is a space. */
  lemma {:induction false} SpacedOutLayout(s: string)
    ensures forall i :: 0 <= i < |s| ==> SpacedOut(s)[2 * i] == s[i]
    ensures forall j :: 0 <= j < |SpacedOut(s)| && j % 2 == 1 ==> SpacedOut(s)[j] == ' '
  {
    if |s| > 1 {
      SpacedOutLayout(s[1..]);
      var r := SpacedOut(s);
      assert r == [s[0], ' '] + SpacedOut(s[1..]);
      forall i | 1 <= i < |s| ensures r[2 * i] == s[i] {
        assert r[2 * i] == SpacedOut(s[1..])[2 * (i - 1)];
      }
      forall j | 2 < j < |r| && j % 2 == 1 ensures r[j] == ' ' {
        assert r[j] == SpacedOut(s[1..])[j - 2];
      }
    }
  }

  /** The characters at even positions: the inverse of `SpacedOut`. */
  function EvenPositions(r: string): string
    decreases |r|
  {
    if |r| <= 2 then r[..if |r| == 0 then 0 else 1] else [r[0]] + EvenPositions(r[2..])
  }

  /** Reading every other character of the slow text gives back the original. */
  lemma {:induction false} SpacedOutInverse(s: string)
    ensures EvenPositions(SpacedOut(s)) == s
  {
    if |s| > 1 {
      SpacedOutInverse(s[1..]);
      assert SpacedOut(s)[2..] == SpacedOut(s[1..]);
      assert s == [s[0]] + s[1..];
    }
  }

  /** The text spoken by the "Hear It" (`slow` false) and "Slower" (`slow`
      true) buttons: slow speech spaces out the romanisation when the prompt
      has one, the prompt text otherwise. */
  function SpokenText(p: Prompt, slow: bool): (t: string)
    ensures !slow ==> t == p.text
    ensures slow ==> var source := SlowSource(p);
      && |t| == (if source == [] then 0 else 2 * |source| - 1)
      && (forall i :: 0 <= i < |source| ==> t[2 * i] == source[i])
      && (forall j :: 0 <= j < |t| && j % 2 == 1 ==> t[j] == ' ')
      && EvenPositions(t) == source
  {
    if !slow then p.text
    else
      SpacedOutLayout(SlowSource(p));
      SpacedOutInverse(SlowSource(p));
      SpacedOut(SlowSource(p))
  }

  /** What the slow speech spells out: the romanisation when the prompt has
      one, the prompt text otherwise. */
  function SlowSource(p: Prompt): (s: string)
    ensures p.pronunciation != [] ==> s == p.pronunciation
    ensures p.pronunciation == [] ==> s == p.text
  {
    if p.pronunciation != [] then p.pronunciation else p.text
  }

  /** `recognition.lang`: French and Spanish by prefix; Korean falls through
      to American English. */
  function RecognitionLang(c: Option<Course>): string {
    match c
    case Some(French) => "fr-FR"
    case Some(Spanish) => "es-ES"
    case _ => "en-US"
  }

  /** What the tutor says after a passed pronunciation check, chosen by the
      route's prefix; an unknown route falls through to English. */
  function Cheer(c: Option<Course>): string {
    match c
    case Some(French) => "Bien! Prochaine question!"
    case Some(Spanish) => "\U{A1}Bien! Siguiente pregunta!"
    case Some(Korean) => "\U{C88B}\U{C544}\U{C694}! \U{B2E4}\U{C74C} \U{C9C8}\U{BB38}!"
    case None => "Good! Next question!"
  }

  /** `correctFeedbacks` */
  const Praise := [
    "Bravo! That's perfect pronunciation!",
    "Excellent! You sound just like a native speaker!",
    "Great job! You nailed it!",
    "Fantastic! Your accent is impressive!",
    "Superb! Keep it up!"]

  /** `incorrectFeedbacks` */
  const Encouragement := [
    "Almost there! Try listening to the pronunciation again.",
    "Don't worry, practice makes perfect. Give it another shot!",
    "Not quite, but you're getting closer!",
    "Keep trying! You'll get it soon!",
    "Let's try that one more time together."]

  /** `getRandomFeedback`: `pick` stands for `Math.floor(Math.random() * 5)`. */
  function RandomFeedback(correct: bool, pick: nat): (m: string)
    requires pick < 5
    ensures correct ==> m in Praise
    ensures !correct ==> m in Encouragement
  {
    if correct then Praise[pick] else Encouragement[pick]
  }

  predicate AllHangulOrSpace(s: string) {
    forall i :: 0 <= i < |s| ==> IsHangul(s[i]) || IsSpace(s[i])
  }

  lemma KoreanAnswersHangul(i: nat)
    requires i < |KoreanDeck|
    ensures AllHangulOrSpace(KoreanDeck[i].answer)
  {
    var d := KoreanDeck;
    if i == 0 {
      assert d[0].answer == Hello;
    } else if i == 1 {
      assert d[1].answer == MyNameIs;
    } else if i == 2 {
      assert d[2].answer == ThankYou;
    } else {
      assert d[3].answer == Goodbye;
    }
  }

  /** Every Korean answer normalises to the empty string, under either
      alphabet, and gives the empty speech pattern. */
  lemma KoreanAnswersVanish(a: Alphabet, i: nat)
    requires i < |Deck(Korean)|
    ensures Normalize(a, Deck(Korean)[i].answer) == []
    ensures SpeechPattern(Deck(Korean)[i].answer) == []
  {
    KoreanAnswersHangul(i);
    var answer := Deck(Korean)[i].answer;
    HangulNormalizesEmpty(a, answer);
    HangulSpeechAlwaysPasses("", answer);
  }

  /** On a Korean prompt the typed verdict only asks whether the input has a
      Latin letter, a digit, a Latin-1 letter or an apostrophe in it: with
      none of them (Hangul, punctuation, blanks) it is correct. */
  lemma KoreanVerdict(a: Alphabet, i: nat, input: string)
    requires i < |Deck(Korean)|
    ensures TypedCorrect(a, input, Deck(Korean)[i].answer) <==> !HasKeptVisible(a, input)
  {
    KoreanAnswersVanish(a, i);
    VerdictAgainstEmptyAnswer(a, input, Deck(Korean)[i].answer);
  }

  /** On a Korean prompt every transcript passes the pronunciation check. */
  lemma KoreanSpeechAlwaysPasses(i: nat, raw: string)
    requires i < |Deck(Korean)|
    ensures SpeechPasses(raw, Deck(Korean)[i].answer)
  {
    KoreanAnswersHangul(i);
    HangulSpeechAlwaysPasses(raw, Deck(Korean)[i].answer);
  }
}
