/** The effects and handlers that both copies of the chat page share word
    for word, as step functions over the session. `v` says which copy's
    `playAudioAndWait` runs. */
module ChatHandlers {
  import opened Options
  import opened JsText
  import opened AnswerMatch
  import opened Audio
  import opened Courses
  import opened ChatSession

  /** The start of the per-prompt intro effect: the answer, the feedback and
      the attempts are cleared, the audio is stopped and the index is marked
      as introduced before anything is said. */
  function ResetView(s: Session): (r: Session)
    ensures r.index == s.index && r.timers == s.timers && r.firstQuestionPlayed == s.firstQuestionPlayed
    ensures r.introPlayed == s.introPlayed + {s.index}
    ensures !r.showAnswer && r.feedback == "" && r.attempts == [] && !r.player.loaded
  {
    var s1 := s.(showAnswer := false).(feedback := "").(attempts := []);
    StopAudio(s1).(introPlayed := s.introPlayed + {s.index})
  }

  /** The course intro effect, while the intro screen is shown. */
  function Welcome(v: Variant, s: Session, f: Fetch): (r: Session)
    ensures !s.showIntro || s.course.None? ==> r == s
  {
    if s.showIntro && s.course.Some? then Speak(v, s, WelcomeText(s.course.value), false, f, Attempts) else s
  }

  /** The completion effect with its congratulations `text`: past the last
      prompt it stops the audio and plays the text once; on a prompt it
      re-arms. */
  function Completion(v: Variant, text: string, s: Session, f: Fetch): (r: Session)
    ensures r.deck == s.deck && r.index == s.index && r.attempts == s.attempts
  {
    if !HasPrompt(s) && !s.completionPlayed then
      Speak(v, StopAudio(s), text, false, f, Attempts).(completionPlayed := true)
    else if HasPrompt(s) then s.(completionPlayed := false)
    else s
  }

  /** The congratulations are requested at most once per arrival at the
      end: a second run of the effect changes nothing. */
  lemma CompletionOnce(v: Variant, text: string, s: Session, f: Fetch, g: Fetch)
    ensures !HasPrompt(s) ==> Completion(v, text, s, f).completionPlayed
    ensures Completion(v, text, Completion(v, text, s, f), g) == Completion(v, text, s, f)
  {
    var r := Completion(v, text, s, f);
    if !HasPrompt(s) && !s.completionPlayed {
      assert r.completionPlayed && r.deck == s.deck && r.index == s.index;
    }
  }

  /** A known course opens with its welcome. */
  lemma KnownRouteWelcomes(v: Variant, id: string, f: Fetch)
    requires CourseOf(id).Some?
    ensures Welcome(v, Start(id), f).spoken == [Request(WelcomeText(CourseOf(id).value), false)]
  {
    FreeCallTakesLock(v, Start(id).player, f, Attempts);
  }

  /** On a known course the completion effect stays silent: the deck has a
      first prompt. */
  lemma KnownRouteNotCompleted(v: Variant, id: string, text: string, f: Fetch)
    requires CourseOf(id).Some?
    ensures Completion(v, text, Start(id), f).spoken == []
    ensures !Completion(v, text, Start(id), f).completionPlayed
  {
    assert HasPrompt(Start(id));
  }

  /** An unknown course has no prompt: the welcome stays silent, and the
      completion effect congratulates at once, behind the page's
      "Character Not Found" screen. */
  lemma UnknownRouteCongratulates(v: Variant, id: string, text: string, f: Fetch)
    requires CourseOf(id).None?
    ensures Welcome(v, Start(id), f) == Start(id)
    ensures Completion(v, text, Start(id), f).spoken == [Request(text, false)]
    ensures Completion(v, text, Start(id), f).completionPlayed
  {
    var s := Start(id);
    assert !HasPrompt(s) && !s.completionPlayed;
    FreeCallTakesLock(v, StopAudio(s).player, f, Attempts);
  }

  /** `recognition.onresult` with the raw transcript: a pass says the
      course's cheer and schedules the advance. */
  function RecognitionResult(v: Variant, s: Session, raw: string, f: Fetch): Session
    requires HasPrompt(s)
  {
    if SpeechPasses(raw, Current(s).answer) then Cheered(v, s, raw, f)
    else s.(pronunciation := "\U{274C} Try again. You said: \"" + Transcript(raw) + "\"\nTip: Speak slowly and clearly for the best results.")
  }

  /** The passing branch of the check. */
  function Cheered(v: Variant, s: Session, raw: string, f: Fetch): (r: Session)
    ensures r.index == s.index && Projected(r) == Projected(s) + 1
  {
    var s1 := s.(pronunciation := "\U{2705} Good pronunciation! You said: \"" + Transcript(raw) + "\"\nWould you like to try saying it faster?");
    Schedule(Speak(v, s1, Cheer(s.course), false, f, Attempts), AdvanceAfterSpeech)
  }

  /** A passed check schedules exactly one advance; a failed one none. */
  lemma SpeechAdvancesIffPasses(v: Variant, s: Session, raw: string, f: Fetch)
    requires HasPrompt(s)
    ensures RecognitionResult(v, s, raw, f).index == s.index
    ensures Projected(RecognitionResult(v, s, raw, f)) ==
      Projected(s) + (if SpeechPasses(raw, Current(s).answer) then 1 else 0)
  {
    if !SpeechPasses(raw, Current(s).answer) {
      assert RecognitionResult(v, s, raw, f).timers == s.timers;
    }
  }

  /** On a Korean prompt whatever was heard passes and the lesson moves on. */
  lemma KoreanSpeechAdvances(v: Variant, s: Session, raw: string, f: Fetch)
    requires HasPrompt(s) && s.deck == Deck(Korean)
    ensures Projected(RecognitionResult(v, s, raw, f)) == Projected(s) + 1
  {
    KoreanSpeechAlwaysPasses(s.index, raw);
  }

  /** `speakPronunciation(slow)` */
  function SpeakPrompt(v: Variant, s: Session, slow: bool, f: Fetch): (r: Session)
    ensures !HasPrompt(s) ==> r == s
  {
    if HasPrompt(s) then Speak(v, s, SpokenText(Current(s), slow), false, f, Attempts) else s
  }

  /** `speakAnswer`: skipped while audio is playing. */
  function SpeakAnswer(v: Variant, s: Session, f: Fetch): (r: Session)
    ensures s.player.lock ==> r == s
  {
    if !HasPrompt(s) || s.player.lock then s else Speak(v, s, Current(s).answer, false, f, Attempts)
  }

  /** `playQuestionAudio`: skipped while audio is playing; the question is
      the one request that asks the backend to teach. */
  function PlayQuestion(v: Variant, s: Session, f: Fetch): (r: Session)
    requires HasPrompt(s)
    ensures s.player.lock ==> r == s
  {
    if s.player.lock then s else Speak(v, s, Current(s).text, true, f, Attempts)
  }
}
