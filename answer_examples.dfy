module AnswerExamples {
  import opened JsText
  import opened AnswerMatch

  lemma PaddedLower()
    ensures Lower("  BONJOUR ") == "  bonjour "
  {
  }

  lemma PaddedKeep()
    ensures KeepOnly(Straight, "  bonjour ") == "  bonjour "
  {
    var s := "  bonjour ";
    assert forall i :: 0 <= i < |s| ==> s[i] == ' ' || 'a' <= s[i] <= 'z';
    KeepOnlyAllKept(Straight, s);
  }

  lemma PaddedCollapse()
    ensures Collapse("  bonjour ") == " bonjour "
  {
    var s := "  bonjour ";
    TrimStartAt(s, 2);
    assert s[2..] == "bonjour ";
    WordCollapsed();
  }

  lemma WordCollapsed()
    ensures Collapse("bonjour ") == "bonjour "
  {
    CollapseFixed("bonjour ");
  }

  lemma PaddedTrim()
    ensures Trim(" bonjour ") == "bonjour"
  {
    var c := " bonjour ";
    TrimStartAt(c, 1);
    TrimEndAt(c[1..], 7);
  }

  lemma PaddedNormalize()
    ensures Normalize(Straight, "  BONJOUR ") == "bonjour"
  {
    PaddedLower();
    PaddedKeep();
    PaddedCollapse();
    PaddedTrim();
  }

  lemma BangLower()
    ensures Lower("bonjour!") == "bonjour!"
  {
  }

  lemma BangKeep()
    ensures KeepOnly(Straight, "bonjour!") == "bonjour"
  {
    var s := "bonjour";
    assert forall i :: 0 <= i < |s| ==> 'a' <= s[i] <= 'z';
    KeepOnlyAllKept(Straight, s);
    BangDropped();
    KeepOnlyConcat(Straight, s, "!");
    assert s + "!" == "bonjour!";
  }

  lemma BangDropped()
    ensures KeepOnly(Straight, "!") == ""
  {
    assert !Kept(Straight, '!');
    assert "!"[1..] == "";
  }

  lemma BonjourTrim()
    ensures Trim("bonjour") == "bonjour"
  {
    var s := "bonjour";
    TrimStartAt(s, 0);
    TrimEndAt(s, 7);
  }

  lemma BonjourCollapsed()
    ensures Collapse("bonjour") == "bonjour"
  {
    CollapseFixed("bonjour");
  }

  lemma BangNormalize()
    ensures Normalize(Straight, "bonjour!") == "bonjour"
  {
    BangLower();
    BangKeep();
    BonjourCollapsed();
    BonjourTrim();
  }

  lemma BonjourNormalize()
    ensures Normalize(Straight, "bonjour") == "bonjour"
  {
    NormalFixed(Straight, "bonjour");
  }

  lemma PleaseLower()
    ensures Lower("Bonjour please") == "bonjour please"
  {
  }

  lemma PleaseNormal()
    ensures Normalize(Straight, "bonjour please") == "bonjour please"
  {
    NormalFixed(Straight, "bonjour please");
  }

  lemma PleaseNormalize()
    ensures Normalize(Straight, "Bonjour please") == "bonjour please"
  {
    PleaseLower();
    NormalizeLower(Straight, "Bonjour please");
    PleaseNormal();
  }

  /** Case, surrounding blanks and punctuation are ignored; an extra word is not. */
  lemma BonjourVerdicts()
    ensures TypedCorrect(Straight, "  BONJOUR ", "bonjour")
    ensures TypedCorrect(Straight, "bonjour!", "bonjour")
    ensures !TypedCorrect(Straight, "Bonjour please", "bonjour")
  {
    BonjourNormalize();
    PaddedNormalize();
    BangNormalize();
    PleaseNormalize();
  }

  lemma SentenceTranscript()
    ensures Transcript("i think it is bonjour yes") == "i think it is bonjour yes"
  {
    SentenceTrim();
    SentenceLower();
  }

  lemma SentenceTrim()
    ensures Trim("i think it is bonjour yes") == "i think it is bonjour yes"
  {
    var s := "i think it is bonjour yes";
    TrimStartAt(s, 0);
    TrimEndAt(s, 25);
  }

  lemma SentenceLower()
    ensures Lower("i think it is bonjour yes") == "i think it is bonjour yes"
  {
  }

  lemma BonjourLower()
    ensures Lower("bonjour") == "bonjour"
  {
  }

  lemma BonjourPattern()
    ensures SpeechPattern("bonjour") == "bonjour"
  {
    BonjourLower();
    KeepOnlyAllKept(Straight, "bonjour");
    BonjourTrim();
  }

  lemma SentenceNormalize()
    ensures Normalize(Straight, "i think it is bonjour yes") == "i think it is bonjour yes"
  {
    NormalFixed(Straight, "i think it is bonjour yes");
  }

  lemma SentenceHasBonjour()
    ensures Contains("i think it is bonjour yes", "bonjour")
  {
    var t := "i think it is bonjour yes";
    assert OccursAt(t, "bonjour", 14);
    ContainsIff(t, "bonjour");
  }

  /** Recognised speech only has to contain the answer somewhere; typed, the
      same sentence is wrong. */
  lemma SpeechContainsExample()
    ensures SpeechPasses("i think it is bonjour yes", "bonjour")
    ensures !TypedCorrect(Straight, "i think it is bonjour yes", "bonjour")
  {
    SentenceTranscript();
    BonjourPattern();
    SentenceHasBonjour();
    SentenceNormalize();
    BonjourNormalize();
  }
}
