/** The lesson session controller of `project/src/components/Chat.jsx`:
    the step functions for each handler and effect, the properties they
    keep, and the page as a class whose methods follow those steps. */
module ProjectChat {
  import opened Options
  import opened JsText
  import opened AnswerMatch
  import opened Audio
  import opened Courses
  import opened ChatSession
  import opened ChatHandlers

  const CompletionText := "\U{1F389} F\U{E9}licitations! You've completed the lesson. Keep practicing, and you'll be speaking like a local in no time! Would you like to try another language or review this lesson?"
  const CorrectFallback := "That's right! Great job!"

  /** The typed verdict of this copy: the straight-apostrophe alphabet. */
  predicate Correct(s: Session)
    requires HasPrompt(s)
  {
    TypedCorrect(Straight, s.input, Current(s).answer)
  }

  /** What every non-blank submission does before the verdict matters:
      the raw input is appended to the attempts, the answer is shown, the
      audio is stopped, and the tutor is asked about the input. */
  function Record(s: Session): (r: Session)
    requires HasPrompt(s)
    ensures r.attempts == s.attempts + [s.input] && r.showAnswer
    ensures r.chats == s.chats + [ChatRequest(s.input, AnswerContext(Current(s).answer))]
    ensures r.index == s.index && r.course == s.course && r.input == s.input && r.timers == s.timers
  {
    var s1 := StopAudio(s.(attempts := s.attempts + [s.input]).(showAnswer := true));
    s1.(chats := s1.chats + [ChatRequest(s.input, AnswerContext(Current(s).answer))])
  }

  /** The correct branch: praise, clear the input, say the tutor's reply
      (or a stock line when the tutor is unreachable), schedule the advance. */
  function Praised(s: Session, pick: nat, tutor: Tutor, f: Fetch): (r: Session)
    requires pick < 5
    ensures r.index == s.index && Projected(r) == Projected(s) + 1
    ensures r.timers[|r.timers| - 1] == AdvanceAfterAnswer
    ensures r.attempts == s.attempts && r.showAnswer == s.showAnswer && r.chats == s.chats
    ensures r.input == ""
  {
    var said := if tutor.Replied? then tutor.reply else CorrectFallback;
    var r := Speak(Project, s.(feedback := "\U{2705} " + Praise[pick]).(input := ""), said, false, f, Attempts);
    Schedule(r, AdvanceAfterAnswer)
  }

  /** The wrong branch: say the tutor's reply, or report that it could not
      be reached; then clear the input. */
  function Checked(s: Session, tutor: Tutor, f: Fetch): (r: Session)
    ensures r.index == s.index && Projected(r) == Projected(s)
    ensures r.attempts == s.attempts && r.showAnswer == s.showAnswer && r.chats == s.chats
    ensures r.input == ""
  {
    var s1 := s.(feedback := Checking);
    var s2 := if tutor.Replied? then Speak(Project, s1, tutor.reply, false, f, Attempts)
              else s1.(feedback := TutorDown);
    s2.(input := "")
  }

  /** `handleSubmit`: `pick` is the random index into the praise pool,
      `tutor` the `/chat` outcome and `f` the outcome of the one spoken reply.
      The form only exists while a prompt is shown. */
  function Submit(s: Session, pick: nat, tutor: Tutor, f: Fetch): Session
    requires HasPrompt(s) && pick < 5
  {
    if IsBlank(s.input) then s
    else if Correct(s) then Praised(Record(s), pick, tutor, f)
    else Checked(Record(s), tutor, f)
  }

  /** A blank submission changes nothing at all. */
  lemma BlankSubmitIgnored(s: Session, pick: nat, tutor: Tutor, f: Fetch)
    requires HasPrompt(s) && pick < 5
    requires IsBlank(s.input)
    ensures Submit(s, pick, tutor, f) == s
  {
  }

  /** Any other submission appends exactly the raw input to the attempts,
      shows the answer, clears the input and asks the tutor about it. */
  lemma SubmitRecordsAttempt(s: Session, pick: nat, tutor: Tutor, f: Fetch)
    requires HasPrompt(s) && pick < 5
    requires !IsBlank(s.input)
    ensures Submit(s, pick, tutor, f).attempts == s.attempts + [s.input]
    ensures Submit(s, pick, tutor, f).showAnswer
    ensures Submit(s, pick, tutor, f).input == ""
    ensures Submit(s, pick, tutor, f).chats == s.chats + [ChatRequest(s.input, AnswerContext(Current(s).answer))]
  {
  }

  /** A correct answer does not move the cursor at once but schedules
      exactly one advance, whatever the tutor and the audio do; a wrong one
      schedules none and keeps the cursor. */
  lemma SubmitAdvancesIffCorrect(s: Session, pick: nat, tutor: Tutor, f: Fetch)
    requires HasPrompt(s) && pick < 5
    requires !IsBlank(s.input)
    ensures Submit(s, pick, tutor, f).index == s.index
    ensures Projected(Submit(s, pick, tutor, f)) == Projected(s) + (if Correct(s) then 1 else 0)
  {
    var r := Record(s);
    assert Projected(r) == Projected(s);
    if Correct(s) {
      assert Submit(s, pick, tutor, f) == Praised(r, pick, tutor, f);
    } else {
      assert Submit(s, pick, tutor, f) == Checked(r, tutor, f);
    }
  }

  /** When the timer a correct answer scheduled fires, the cursor has moved
      by exactly one and the feedback and the shown answer are cleared; this
      holds when the tutor is unreachable and when the audio fails. */
  lemma CorrectAnswerAdvances(s: Session, pick: nat, tutor: Tutor, f: Fetch, g: Fetch)
    requires HasPrompt(s) && pick < 5
    requires !IsBlank(s.input) && Correct(s)
    ensures var r := Submit(s, pick, tutor, f);
      |r.timers| > 0 &&
      var t := Fire(Project, r, |r.timers| - 1, g);
      t.index == s.index + 1 && t.feedback == "" && !t.showAnswer
      && t.attempts == s.attempts + [s.input]
  {
    var r := Submit(s, pick, tutor, f);
    FireAnswerTimer(Project, r, |r.timers| - 1, g);
  }

  /** Unless its spoken reply fails, a correct answer shows a praise message
      from the pool; a wrong answer shows that it is being checked, or that
      the tutor could not be reached. */
  lemma SubmitFeedback(s: Session, pick: nat, tutor: Tutor, f: Fetch)
    requires HasPrompt(s) && pick < 5
    requires !IsBlank(s.input)
    requires !Play(Project, Release(s.player), f, Attempts).outcome.Failed?
    ensures Submit(s, pick, tutor, f).feedback ==
      if Correct(s) then "\U{2705} " + Praise[pick]
      else if tutor.Replied? then Checking
      else TutorDown
  {
    var r := Record(s);
    assert r.player == Release(s.player);
    if Correct(s) {
      assert Submit(s, pick, tutor, f) == Praised(r, pick, tutor, f);
    } else {
      assert Submit(s, pick, tutor, f) == Checked(r, tutor, f);
    }
  }

  /** On a Korean prompt a submission is judged correct exactly when it has
      no Latin letter, digit or apostrophe in it. */
  lemma KoreanSubmitCorrectIff(s: Session)
    requires HasPrompt(s) && s.deck == Deck(Korean)
    ensures Correct(s) <==> !HasKeptVisible(Straight, s.input)
  {
    KoreanVerdict(Straight, s.index, s.input);
  }

  /** The per-prompt intro effect. It runs once the intro screen is gone,
      for a prompt whose index is not yet in the map: it resets the prompt's
      view, marks the index, says the intro line, then the question itself
      unless this is the first prompt and its question was already said. */
  function PromptIntro(s: Session, f: Fetch, g: Fetch): (r: Session)
    ensures r.index == s.index && Projected(r) == Projected(s)
  {
    if HasPrompt(s) && s.index !in s.introPlayed && !s.showIntro then Introduced(s, f, g) else s
  }

  /** The body of the intro effect, once its guard holds. */
  function Introduced(s: Session, f: Fetch, g: Fetch): (r: Session)
    requires HasPrompt(s)
    ensures r.index == s.index && Projected(r) == Projected(s)
  {
    var s3 := Speak(Project, ResetView(s), IntroLine(Current(s).text), false, f, Attempts);
    if !s.firstQuestionPlayed || s.index > 0 then
      Speak(Project, s3, Current(s).text, true, g, Attempts).(firstQuestionPlayed := true)
    else s3
  }

  /** The intro of a prompt is requested at most once: the effect marks the
      index before speaking, and a second run is a no-op. */
  lemma PromptIntroOnce(s: Session, f: Fetch, g: Fetch, f2: Fetch, g2: Fetch)
    ensures HasPrompt(s) && !s.showIntro ==> s.index in PromptIntro(s, f, g).introPlayed
    ensures PromptIntro(PromptIntro(s, f, g), f2, g2) == PromptIntro(s, f, g)
  {
  }

  /** Once the intro line has started playing it holds the lock, so the
      question the effect asks for next is dropped: only the intro line is
      requested. */
  lemma QuestionAfterIntroDropped(s: Session, g: Fetch)
    requires HasPrompt(s) && s.index !in s.introPlayed && !s.showIntro
    requires !s.player.lock || s.player.loaded
    ensures PromptIntro(s, Playing, g).spoken == s.spoken + [Request(IntroLine(Current(s).text), false)]
  {
  }

  /** `checkPronunciation` up to `recognition.start()`: `supported` is
      whether the browser has speech recognition, `started` whether
      `start()` returned normally. */
  function StartRecognition(s: Session, supported: bool, started: bool): (r: Session)
    ensures !supported ==> r.recognizing == s.recognizing && r.pronunciation == NotSupported
    ensures supported && started ==> r.recognizing && r.pronunciation == Listening
    ensures supported && !started ==> !r.recognizing && r.pronunciation == "\U{274C} Could not start speech recognition."
  {
    if !supported then s.(pronunciation := NotSupported)
    else if started then s.(recognizing := true, pronunciation := Listening)
    else s.(recognizing := false, pronunciation := "\U{274C} Could not start speech recognition.")
  }

  /** `recognition.onerror` */
  function RecognitionError(s: Session, error: string): (r: Session)
    ensures !r.recognizing
    ensures r.pronunciation == "\U{274C} Error: " + error
  {
    s.(pronunciation := "\U{274C} Error: " + error, recognizing := false)
  }

  /** Two correct submissions of the same prompt before the first timer
      fires schedule two advances: the next prompt is skipped. */
  lemma DoubleSubmitSkipsPrompt(s: Session, f: Fetch, f2: Fetch)
    requires HasPrompt(s) && !IsBlank(s.input) && Correct(s)
    ensures var again := Submit(s, 0, Unreachable, f).(input := s.input);
      HasPrompt(again) && Correct(again)
      && Projected(Submit(again, 0, Unreachable, f2)) == Projected(s) + 2
  {
    var r := Submit(s, 0, Unreachable, f);
    SubmitAdvancesIffCorrect(s, 0, Unreachable, f);
    var again := r.(input := s.input);
    assert again.deck == s.deck && again.index == s.index;
    assert Projected(again) == Projected(s) + 1;
    SubmitAdvancesIffCorrect(again, 0, Unreachable, f2);
  }

  /** The page itself: its state and refs as fields, each handler and
      effect a method that performs the source's steps in order. */
  class Page {
    const course: Option<Course>
    const deck: seq<Prompt>
    var index: nat
    var input: string
    var attempts: seq<string>
    var feedback: string
    var showAnswer: bool
    var demoMode: bool
    var lock: bool
    var loaded: bool
    var spoken: seq<Request>
    var chats: seq<ChatRequest>
    var introPlayed: set<nat>
    var showIntro: bool
    var firstQuestionPlayed: bool
    var completionPlayed: bool
    var pronunciation: string
    var recognizing: bool
    var timers: seq<Timer>

    function State(): Session
      reads this
    {
      Session(course, deck, index, input, attempts, feedback, showAnswer, demoMode,
              Player(lock, loaded), spoken, chats, introPlayed, showIntro,
              firstQuestionPlayed, completionPlayed, pronunciation, recognizing, timers)
    }

    constructor (id: string)
      ensures State() == Start(id)
    {
      course, deck := CourseOf(id), RouteDeck(CourseOf(id));
      index, input, attempts, feedback := 0, "", [], "";
      showAnswer, demoMode, lock, loaded := false, false, false, false;
      spoken, chats, introPlayed := [], [], {};
      showIntro, firstQuestionPlayed, completionPlayed := true, false, false;
      pronunciation, recognizing, timers := "", false, [];
    }

    /** The input box's `onChange`. */
    method Type(text: string)
      modifies this
      ensures State() == old(State()).(input := text)
    {
      input := text;
    }

    /** The intro screen's start button. */
    method BeginLesson()
      modifies this
      ensures State() == old(State()).(showIntro := false)
    {
      showIntro := false;
    }

    // The state setters the handlers call, one per piece of state.

    method SetFeedback(message: string)
      modifies this
      ensures State() == old(State()).(feedback := message)
    {
      feedback := message;
    }

    method SetShowAnswer(shown: bool)
      modifies this
      ensures State() == old(State()).(showAnswer := shown)
    {
      showAnswer := shown;
    }

    method SetUserAttempts(all: seq<string>)
      modifies this
      ensures State() == old(State()).(attempts := all)
    {
      attempts := all;
    }

    method SetPronunciationFeedback(message: string)
      modifies this
      ensures State() == old(State()).(pronunciation := message)
    {
      pronunciation := message;
    }

    method SetFirstQuestionPlayed(played: bool)
      modifies this
      ensures State() == old(State()).(firstQuestionPlayed := played)
    {
      firstQuestionPlayed := played;
    }

    method SetCompletionPlayed(played: bool)
      modifies this
      ensures State() == old(State()).(completionPlayed := played)
    {
      completionPlayed := played;
    }

    /** `hasPlayedIntroRef.current[i] = true` */
    method MarkIntroPlayed(i: nat)
      modifies this
      ensures State() == old(State()).(introPlayed := old(introPlayed) + {i})
    {
      introPlayed := introPlayed + {i};
    }

    /** A request posted to `/chat`. */
    method AskTutor(request: ChatRequest)
      modifies this
      ensures State() == old(State()).(chats := old(chats) + [request])
    {
      chats := chats + [request];
    }

    method SetCurrentPromptIndex(i: nat)
      modifies this
      ensures State() == old(State()).(index := i)
    {
      index := i;
    }

    /** A timer that has fired leaves the pending list. */
    method RemoveTimer(k: nat)
      requires k < |timers|
      modifies this
      ensures State() == old(State()).(timers := old(timers)[..k] + old(timers)[k + 1..])
    {
      timers := timers[..k] + timers[k + 1..];
    }

    /** `setTimeout`: the callback joins the pending timers. */
    method SetTimer(t: Timer)
      modifies this
      ensures State() == Schedule(old(State()), t)
    {
      timers := timers + [t];
    }

    method StopCurrentAudio()
      modifies this
      ensures State() == StopAudio(old(State()))
    {
      if loaded {
        loaded := false;
        lock := false;
      }
    }

    method PlayAudioAndWait(text: string, skipTeach: bool, retries: nat, f: Fetch)
      modifies this
      ensures State() == Speak(Project, old(State()), text, !skipTeach, f, retries)
    {
      var step := Play(Project, Player(lock, loaded), f, retries);
      Settle(step, text, !skipTeach);
    }

    /** The page after the call: the refs take the step's values, the
        request is logged unless the call was dropped, a failure turns on
        demo mode with its message, and the follow-up timer is set. */
    method Settle(step: Step, text: string, teach: bool)
      modifies this
      ensures State() == AfterPlay(old(State()), step, text, teach)
    {
      var demo, message, pending := demoMode, feedback, timers;
      SetRefs(step.player);
      LogSpeech(Sent(step.outcome, text, teach));
      SetDemoMode(demo || step.outcome.Failed?);
      SetFeedback(Shown(step.outcome, message));
      SetTimers(pending + FollowUp(step.outcome, text, teach));
    }

    /** `isAudioPlayingRef.current` and whether `audioRef.current` holds a clip. */
    method SetRefs(p: Player)
      modifies this
      ensures State() == old(State()).(player := p)
    {
      lock, loaded := p.lock, p.loaded;
    }

    /** Requests posted to `/speak`. */
    method LogSpeech(requests: seq<Request>)
      modifies this
      ensures State() == old(State()).(spoken := old(spoken) + requests)
    {
      spoken := spoken + requests;
    }

    method SetDemoMode(on: bool)
      modifies this
      ensures State() == old(State()).(demoMode := on)
    {
      demoMode := on;
    }

    method SetTimers(pending: seq<Timer>)
      modifies this
      ensures State() == old(State()).(timers := pending)
    {
      timers := pending;
    }

    method HandleSubmit(pick: nat, tutor: Tutor, f: Fetch)
      requires index < |deck| && pick < 5
      modifies this
      ensures State() == Submit(old(State()), pick, tutor, f)
    {
      if IsBlank(input) {
        return;
      }
      var typed, answer := input, deck[index].answer;
      var correct := TypedCorrect(Straight, typed, answer);
      SetUserAttempts(attempts + [typed]);
      SetShowAnswer(true);
      StopCurrentAudio();
      AskTutor(ChatRequest(typed, AnswerContext(answer)));
      if correct {
        PraiseAnswer(pick, tutor, f);
      } else {
        CheckAnswer(tutor, f);
      }
    }

    method PraiseAnswer(pick: nat, tutor: Tutor, f: Fetch)
      requires pick < 5
      modifies this
      ensures State() == Praised(old(State()), pick, tutor, f)
    {
      SetFeedback("\U{2705} " + Praise[pick]);
      Type("");
      var said := if tutor.Replied? then tutor.reply else CorrectFallback;
      PlayAudioAndWait(said, true, Attempts, f);
      SetTimer(AdvanceAfterAnswer);
    }

    method CheckAnswer(tutor: Tutor, f: Fetch)
      modifies this
      ensures State() == Checked(old(State()), tutor, f)
    {
      SetFeedback(Checking);
      if tutor.Replied? {
        PlayAudioAndWait(tutor.reply, true, Attempts, f);
      } else {
        SetFeedback(TutorDown);
      }
      Type("");
    }

    method PromptIntroEffect(f: Fetch, g: Fetch)
      modifies this
      ensures State() == PromptIntro(old(State()), f, g)
    {
      if index < |deck| && index !in introPlayed && !showIntro {
        IntroducePrompt(f, g);
      }
    }

    method IntroducePrompt(f: Fetch, g: Fetch)
      requires index < |deck|
      modifies this
      ensures State() == Introduced(old(State()), f, g)
    {
      var prompt, i, first := deck[index], index, firstQuestionPlayed;
      ResetPrompt();
      PlayAudioAndWait(IntroLine(prompt.text), true, Attempts, f);
      if !first || i > 0 {
        PlayAudioAndWait(prompt.text, false, Attempts, g);
        SetFirstQuestionPlayed(true);
      }
    }

    method ResetPrompt()
      modifies this
      ensures State() == ResetView(old(State()))
    {
      var i := index;
      SetShowAnswer(false);
      SetFeedback("");
      SetUserAttempts([]);
      StopCurrentAudio();
      MarkIntroPlayed(i);
    }

    method CompletionEffect(f: Fetch)
      modifies this
      ensures State() == Completion(Project, CompletionText, old(State()), f)
    {
      if index >= |deck| && !completionPlayed {
        StopCurrentAudio();
        PlayAudioAndWait(CompletionText, true, Attempts, f);
        SetCompletionPlayed(true);
      } else if index < |deck| {
        SetCompletionPlayed(false);
      }
    }

    method WelcomeEffect(f: Fetch)
      modifies this
      ensures State() == Welcome(Project, old(State()), f)
    {
      if showIntro && course.Some? {
        PlayAudioAndWait(WelcomeText(course.value), true, Attempts, f);
      }
    }

    method CheckPronunciation(supported: bool, started: bool)
      modifies this
      ensures State() == StartRecognition(old(State()), supported, started)
    {
      if !supported {
        pronunciation := NotSupported;
        return;
      }
      recognizing := true;
      pronunciation := Listening;
      if !started {
        pronunciation := "\U{274C} Could not start speech recognition.";
        recognizing := false;
      }
    }

    method OnRecognitionResult(raw: string, f: Fetch)
      requires index < |deck|
      modifies this
      ensures State() == RecognitionResult(Project, old(State()), raw, f)
    {
      var transcript := Transcript(raw);
      if Contains(transcript, SpeechPattern(deck[index].answer)) {
        CheerAndAdvance(raw, f);
      } else {
        SetPronunciationFeedback("\U{274C} Try again. You said: \"" + transcript + "\"\nTip: Speak slowly and clearly for the best results.");
      }
    }

    method CheerAndAdvance(raw: string, f: Fetch)
      modifies this
      ensures State() == Cheered(Project, old(State()), raw, f)
    {
      SetPronunciationFeedback("\U{2705} Good pronunciation! You said: \"" + Transcript(raw) + "\"\nWould you like to try saying it faster?");
      PlayAudioAndWait(Cheer(course), true, Attempts, f);
      SetTimer(AdvanceAfterSpeech);
    }

    method OnRecognitionError(error: string)
      modifies this
      ensures State() == RecognitionError(old(State()), error)
    {
      pronunciation := "\U{274C} Error: " + error;
      recognizing := false;
    }

    method OnRecognitionEnd()
      modifies this
      ensures State() == old(State()).(recognizing := false)
    {
      recognizing := false;
    }

    method SpeakPronunciation(slow: bool, f: Fetch)
      modifies this
      ensures State() == SpeakPrompt(Project, old(State()), slow, f)
    {
      if index >= |deck| {
        return;
      }
      PlayAudioAndWait(SpokenText(deck[index], slow), true, Attempts, f);
    }

    method SpeakAnswerButton(f: Fetch)
      modifies this
      ensures State() == SpeakAnswer(Project, old(State()), f)
    {
      if index >= |deck| || lock {
        return;
      }
      PlayAudioAndWait(deck[index].answer, true, Attempts, f);
    }

    method PlayQuestionAudio(f: Fetch)
      requires index < |deck|
      modifies this
      ensures State() == PlayQuestion(Project, old(State()), f)
    {
      if lock {
        return;
      }
      PlayAudioAndWait(deck[index].text, false, Attempts, f);
    }

    /** The playing clip's `onended`. */
    method AudioEnded()
      modifies this
      ensures State() == old(State()).(player := Release(old(State()).player))
    {
      StopCurrentAudio();
    }

    /** The playing clip's `onerror`. */
    method AudioError()
      modifies this
      ensures State() == old(State()).(player := PlaybackError(Project, old(State()).player))
    {
      StopCurrentAudio();
    }

    /** Timer `k` fires: it leaves the pending list, then runs. */
    method TimerFires(k: nat, f: Fetch)
      modifies this
      ensures State() == Fire(Project, old(State()), k, f)
    {
      if k >= |timers| {
        return;
      }
      var t := timers[k];
      RemoveTimer(k);
      match t
      case AdvanceAfterAnswer =>
        SetFeedback("");
        SetShowAnswer(false);
        SetCurrentPromptIndex(index + 1);
      case AdvanceAfterSpeech =>
        SetPronunciationFeedback("");
        SetCurrentPromptIndex(index + 1);
      case ClearFeedback =>
        SetFeedback("");
      case RetrySpeak(text, teach, left) =>
        PlayAudioAndWait(text, !teach, left, f);
    }
  }
}
