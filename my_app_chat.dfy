/** The lesson session controller of `my-app/src/pages/Chat.jsx`. It shares
    the decks, the lock and most handlers with the project copy but differs
    in the submit handler (no blank guard, no stop of the audio, a chain of
    three spoken lines, a normaliser that also keeps the curly apostrophe),
    in the per-prompt intro (no intro-screen guard, no question), in its
    recognition handlers, and it adds a microphone recorder. */
module MyAppChat {
  import opened Options
  import opened JsText
  import opened AnswerMatch
  import opened Audio
  import opened Courses
  import opened ChatSession
  import opened ChatHandlers

  const CompletionText := "\U{1F389} F\U{E9}licitations! You've completed the French basics lesson. Keep practicing, and you'll be speaking like a local in no time! Would you like to try another language or review this lesson?"
  const Confirmation := "That's right!"
  const NoTeacher := "\n(Could not get teacher feedback)"

  /** The typed verdict of this copy: the alphabet with both apostrophes. */
  predicate Correct(s: Session)
    requires HasPrompt(s)
  {
    TypedCorrect(StraightAndCurly, s.input, Current(s).answer)
  }

  /** What every submission does, blank or not: the raw input is appended
      to the attempts, the answer is shown and the tutor is asked. */
  function Record(s: Session): (r: Session)
    requires HasPrompt(s)
    ensures r.attempts == s.attempts + [s.input] && r.showAnswer
    ensures r.chats == s.chats + [ChatRequest(s.input, AnswerContext(Current(s).answer))]
    ensures r.index == s.index && r.deck == s.deck && r.input == s.input && r.timers == s.timers
    ensures r.player == s.player && r.spoken == s.spoken
  {
    s.(attempts := s.attempts + [s.input]).(showAnswer := true)
     .(chats := s.chats + [ChatRequest(s.input, AnswerContext(Current(s).answer))])
  }

  /** Say `text`, show `shown`, then say `reply`: the tutor's reply
      arriving, with `f` and `g` how the two requests come out. */
  function Exchange(s: Session, text: string, shown: string, reply: string, f: Fetch, g: Fetch): (r: Session)
    ensures r.index == s.index && r.attempts == s.attempts && r.showAnswer == s.showAnswer
    ensures r.chats == s.chats && r.input == s.input
  {
    var a := Speak(MyApp, s, text, false, f, Attempts);
    Speak(MyApp, a.(feedback := shown), reply, false, g, Attempts)
  }

  /** No line of the exchange schedules an advance. */
  lemma ExchangeKeepsProjection(s: Session, text: string, shown: string, reply: string, f: Fetch, g: Fetch)
    ensures Projected(Exchange(s, text, shown, reply, f, g)) == Projected(s)
  {
    var a := Speak(MyApp, s, text, false, f, Attempts);
    var b := a.(feedback := shown);
    assert b.index == a.index && b.timers == a.timers;
    assert Exchange(s, text, shown, reply, f, g) == Speak(MyApp, b, reply, false, g, Attempts);
  }

  /** The lines said between the praise and the confirmation: with a reply,
      the question, then the reply under the praise; without one, a note
      under the praise, then the question. */
  function Taught(s: Session, text: string, praise: string, tutor: Tutor, f: Fetch, g: Fetch): (r: Session)
    ensures r.index == s.index && r.attempts == s.attempts && r.showAnswer == s.showAnswer
    ensures r.chats == s.chats && r.input == s.input
  {
    match tutor
    case Replied(reply) => Exchange(s, text, praise + "\n" + reply, reply, f, g)
    case Unreachable => Speak(MyApp, s.(feedback := praise + NoTeacher), text, false, f, Attempts)
  }

  /** The correct branch: praise, clear the input, the taught lines, the
      confirmation (its request comes out as `h`), then the advance. */
  function Praised(s: Session, text: string, pick: nat, tutor: Tutor, f: Fetch, g: Fetch, h: Fetch): (r: Session)
    requires pick < 5
    ensures r.index == s.index && r.attempts == s.attempts && r.showAnswer == s.showAnswer
    ensures r.chats == s.chats && r.input == ""
    ensures |r.timers| > 0 && r.timers[|r.timers| - 1] == AdvanceAfterAnswer
  {
    var praise := "\U{2705} " + Praise[pick];
    var s1 := Taught(s.(feedback := praise).(input := ""), text, praise, tutor, f, g);
    Schedule(Speak(MyApp, s1, Confirmation, false, h, Attempts), AdvanceAfterAnswer)
  }

  /** The wrong branch: with a reply, say the question, show an
      encouragement and the reply, say the reply; without one, report that
      the tutor could not be reached. The input is cleared at the end. */
  function Checked(s: Session, text: string, pick: nat, tutor: Tutor, f: Fetch, g: Fetch): (r: Session)
    requires pick < 5
    ensures r.index == s.index && r.attempts == s.attempts && r.showAnswer == s.showAnswer
    ensures r.chats == s.chats && r.input == ""
  {
    var s1 := s.(feedback := Checking);
    var s2 := match tutor
      case Replied(reply) => Exchange(s1, text, Encouragement[pick] + "\n" + reply, reply, f, g)
      case Unreachable => s1.(feedback := TutorDown);
    s2.(input := "")
  }

  /** Praise schedules exactly one advance. */
  lemma PraisedAdvances(s: Session, text: string, pick: nat, tutor: Tutor, f: Fetch, g: Fetch, h: Fetch)
    requires pick < 5
    ensures Projected(Praised(s, text, pick, tutor, f, g, h)) == Projected(s) + 1
  {
    var praise := "\U{2705} " + Praise[pick];
    var s0 := s.(feedback := praise).(input := "");
    assert Projected(s0) == Projected(s);
    if tutor.Replied? {
      ExchangeKeepsProjection(s0, text, praise + "\n" + tutor.reply, tutor.reply, f, g);
    }
    var s1 := Taught(s0, text, praise, tutor, f, g);
    assert Projected(s1) == Projected(s);
    assert Projected(Speak(MyApp, s1, Confirmation, false, h, Attempts)) == Projected(s);
  }

  /** Checking schedules none. */
  lemma CheckedKeepsProjection(s: Session, text: string, pick: nat, tutor: Tutor, f: Fetch, g: Fetch)
    requires pick < 5
    ensures Projected(Checked(s, text, pick, tutor, f, g)) == Projected(s)
  {
    var s1 := s.(feedback := Checking);
    assert Projected(s1) == Projected(s);
    if tutor.Replied? {
      ExchangeKeepsProjection(s1, text, Encouragement[pick] + "\n" + tutor.reply, tutor.reply, f, g);
    }
  }

  /** `handleSubmit`: `pick` is the random index into the pool of the
      verdict, `tutor` the `/chat` outcome and `f`, `g`, `h` the outcomes of
      the spoken lines in order. */
  function Submit(s: Session, pick: nat, tutor: Tutor, f: Fetch, g: Fetch, h: Fetch): Session
    requires HasPrompt(s) && pick < 5
  {
    Respond(Record(s), Current(s).text, Correct(s), pick, tutor, f, g, h)
  }

  /** What follows the verdict on the question `text`. */
  function Respond(s: Session, text: string, correct: bool, pick: nat, tutor: Tutor, f: Fetch, g: Fetch, h: Fetch): (r: Session)
    requires pick < 5
    ensures r.index == s.index && r.attempts == s.attempts && r.showAnswer == s.showAnswer
    ensures r.chats == s.chats && r.input == ""
  {
    if correct then Praised(s, text, pick, tutor, f, g, h) else Checked(s, text, pick, tutor, f, g)
  }

  /** There is no blank guard: every submission, the empty one included,
      is appended to the attempts, shows the answer, clears the input and
      is sent to the tutor. */
  lemma SubmitRecordsAttempt(s: Session, pick: nat, tutor: Tutor, f: Fetch, g: Fetch, h: Fetch)
    requires HasPrompt(s) && pick < 5
    ensures Submit(s, pick, tutor, f, g, h).attempts == s.attempts + [s.input]
    ensures Submit(s, pick, tutor, f, g, h).showAnswer
    ensures Submit(s, pick, tutor, f, g, h).input == ""
    ensures Submit(s, pick, tutor, f, g, h).chats == s.chats + [ChatRequest(s.input, AnswerContext(Current(s).answer))]
  {
    assert Submit(s, pick, tutor, f, g, h) == Respond(Record(s), Current(s).text, Correct(s), pick, tutor, f, g, h);
  }

  /** A correct answer schedules exactly one advance and a wrong one none;
      the cursor itself does not move. */
  lemma SubmitAdvancesIffCorrect(s: Session, pick: nat, tutor: Tutor, f: Fetch, g: Fetch, h: Fetch)
    requires HasPrompt(s) && pick < 5
    ensures Submit(s, pick, tutor, f, g, h).index == s.index
    ensures Projected(Submit(s, pick, tutor, f, g, h)) == Projected(s) + (if Correct(s) then 1 else 0)
  {
    var r := Record(s);
    assert Projected(r) == Projected(s);
    RespondAdvances(r, Current(s).text, Correct(s), pick, tutor, f, g, h);
    assert Submit(s, pick, tutor, f, g, h) == Respond(r, Current(s).text, Correct(s), pick, tutor, f, g, h);
  }

  lemma RespondAdvances(s: Session, text: string, correct: bool, pick: nat, tutor: Tutor, f: Fetch, g: Fetch, h: Fetch)
    requires pick < 5
    ensures Projected(Respond(s, text, correct, pick, tutor, f, g, h)) == Projected(s) + (if correct then 1 else 0)
  {
    if correct {
      PraisedAdvances(s, text, pick, tutor, f, g, h);
    } else {
      CheckedKeepsProjection(s, text, pick, tutor, f, g);
    }
  }

  /** On a Korean prompt the empty submission is judged correct, and the
      lesson moves on. */
  lemma KoreanEmptySubmitAdvances(s: Session, pick: nat, tutor: Tutor, f: Fetch, g: Fetch, h: Fetch)
    requires HasPrompt(s) && pick < 5
    requires s.deck == Deck(Korean) && s.input == ""
    ensures Correct(s)
    ensures Projected(Submit(s, pick, tutor, f, g, h)) == Projected(s) + 1
  {
    KoreanVerdict(StraightAndCurly, s.index, s.input);
    SubmitAdvancesIffCorrect(s, pick, tutor, f, g, h);
  }

  /** With no clip loaded and the tutor's reply in hand, the question
      starts playing and holds the lock, so the reply and the confirmation
      are dropped: the question is the only line requested, while the
      feedback shows the praise and the reply. */
  lemma ReplyNeverSpoken(s: Session, pick: nat, reply: string, g: Fetch, h: Fetch)
    requires HasPrompt(s) && pick < 5 && Correct(s)
    requires s.player == Player(false, false)
    ensures var r := Submit(s, pick, Replied(reply), Playing, g, h);
      r.spoken == s.spoken + [Request(Current(s).text, false)]
      && r.feedback == "\U{2705} " + Praise[pick] + "\n" + reply
  {
    var praise := "\U{2705} " + Praise[pick];
    var text := Current(s).text;
    var s0 := Record(s).(feedback := praise).(input := "");
    assert s0.spoken == s.spoken && s0.player == Player(false, false);
    var s2 := Exchange(s0, text, praise + "\n" + reply, reply, Playing, g);
    PlayingExchange(s0, text, praise + "\n" + reply, reply, g);
    assert Taught(s0, text, praise, Replied(reply), Playing, g) == s2;
    DroppedWhileLocked(MyApp, s2.player, h, Attempts);
    assert Submit(s, pick, Replied(reply), Playing, g, h) == Praised(Record(s), text, pick, Replied(reply), Playing, g, h);
  }

  /** When the question starts playing, the reply after it is dropped. */
  lemma PlayingExchange(s: Session, text: string, shown: string, reply: string, g: Fetch)
    requires s.player == Player(false, false)
    ensures var r := Exchange(s, text, shown, reply, Playing, g);
      r.spoken == s.spoken + [Request(text, false)] && r.player.lock && r.feedback == shown
  {
    var a := Speak(MyApp, s, text, false, Playing, Attempts);
    assert a.player.lock && a.spoken == s.spoken + [Request(text, false)];
    DroppedWhileLocked(MyApp, a.player, g, Attempts);
  }

  /** The per-prompt intro effect of this copy: for a prompt whose index is
      not yet in the map it resets the view, marks the index and says the
      intro line. It does not wait for the intro screen to go, and it does
      not say the question. */
  function PromptIntro(s: Session, f: Fetch): (r: Session)
    ensures r.index == s.index && Projected(r) == Projected(s)
  {
    if HasPrompt(s) && s.index !in s.introPlayed then
      Speak(MyApp, ResetView(s), IntroLine(Current(s).text), false, f, Attempts)
    else s
  }

  /** The intro of a prompt is requested at most once. */
  lemma PromptIntroOnce(s: Session, f: Fetch, f2: Fetch)
    ensures HasPrompt(s) ==> s.index in PromptIntro(s, f).introPlayed
    ensures PromptIntro(PromptIntro(s, f), f2) == PromptIntro(s, f)
  {
    if HasPrompt(s) && s.index !in s.introPlayed {
      var r := PromptIntro(s, f);
      assert r.introPlayed == s.introPlayed + {s.index} && r.index == s.index && r.deck == s.deck;
    }
  }

  /** At mount the welcome effect runs first and takes the lock before its
      request to `/speak` comes back (the lock held, no clip loaded yet). The
      intro effect then marks the prompt as introduced, `stopCurrentAudio`
      finds no clip to release the lock with, and the intro line is dropped:
      it is never requested, and a later run of the effect does not bring it
      back. */
  lemma IntroLostBehindWelcome(s: Session, f: Fetch, g: Fetch)
    requires HasPrompt(s) && s.index !in s.introPlayed
    requires s.player.lock && !s.player.loaded
    ensures PromptIntro(s, f).spoken == s.spoken
    ensures s.index in PromptIntro(s, f).introPlayed
    ensures PromptIntro(PromptIntro(s, f), g).spoken == s.spoken
  {
    var r := ResetView(s);
    assert r.player == s.player;
    DroppedWhileLocked(MyApp, r.player, f, Attempts);
    PromptIntroOnce(s, f, g);
  }

  /** `checkPronunciation` up to `recognition.start()`; a throwing `start()`
      is not caught here, so the page stays listening. */
  function StartRecognition(s: Session, supported: bool): (r: Session)
    ensures !supported ==> r.recognizing == s.recognizing && r.pronunciation == NotSupported
    ensures supported ==> r.recognizing && r.pronunciation == Listening
  {
    if !supported then s.(pronunciation := NotSupported)
    else s.(recognizing := true).(pronunciation := Listening)
  }

  /** `recognition.onerror`: reports the error but leaves `isRecognizing`. */
  function RecognitionError(s: Session, error: string): (r: Session)
    ensures r.pronunciation == "\U{274C} Error: " + error
  {
    s.(pronunciation := "\U{274C} Error: " + error)
  }

  /** Only `onend` ends listening: after an error the page still listens. */
  lemma ListeningSurvivesError(s: Session, error: string)
    ensures RecognitionError(StartRecognition(s, true), error).recognizing
    ensures RecognitionError(StartRecognition(s, true), error).pronunciation == "\U{274C} Error: " + error
  {
  }

  /** A piece of recorded audio. */
  type Chunk = nat

  /** `mediaRecorderRef` (whether it holds a recorder), `isRecording` and
      `audioChunksRef`. */
  datatype Recorder = Recorder(present: bool, recording: bool, chunks: seq<Chunk>)

  const MicError := "\U{274C} Error accessing microphone"
  const Recorded := "\U{1F3A4} Audio recorded! (Speech-to-text would analyze pronunciation here)"

  /** `startRecording`: `granted` is whether `getUserMedia` resolved. A new
      recorder replaces any old one and starts with no chunks. */
  function RecorderStart(r: Recorder, s: Session, granted: bool): (Recorder, Session) {
    if granted then (Recorder(true, true, []), s) else (r, s.(pronunciation := MicError))
  }

  /** `ondataavailable` appends the chunk. */
  function RecorderData(r: Recorder, c: Chunk): (q: Recorder)
    requires r.present
    ensures q.chunks == r.chunks + [c] && q.present && q.recording == r.recording
  {
    r.(chunks := r.chunks + [c])
  }

  /** `stopRecording` and the recorder's `onstop`: only a running recording
      is stopped. */
  function RecorderStop(r: Recorder, s: Session): (Recorder, Session) {
    if r.present && r.recording then (r.(recording := false), s.(pronunciation := Recorded)) else (r, s)
  }

  /** The recorder after a run of data events. */
  function Feed(r: Recorder, cs: seq<Chunk>): Recorder
    requires r.present
    decreases |cs|
  {
    if cs == [] then r else Feed(RecorderData(r, cs[0]), cs[1..])
  }

  lemma {:induction false} FeedAppends(r: Recorder, cs: seq<Chunk>)
    requires r.present
    ensures Feed(r, cs) == r.(chunks := r.chunks + cs)
    decreases |cs|
  {
    if cs != [] {
      FeedAppends(RecorderData(r, cs[0]), cs[1..]);
      assert r.chunks + [cs[0]] + cs[1..] == r.chunks + cs;
    }
  }

  /** A granted start, any data, then a stop: the recorder holds exactly
      the chunks of this recording, is no longer recording, and the page
      says that audio was recorded. */
  lemma RecordingRoundTrip(r: Recorder, s: Session, cs: seq<Chunk>)
    ensures var (started, s1) := RecorderStart(r, s, true);
      started.present &&
      var (stopped, s2) := RecorderStop(Feed(started, cs), s1);
      stopped == Recorder(true, false, cs) && s2 == s.(pronunciation := Recorded)
  {
    FeedAppends(Recorder(true, true, []), cs);
  }

  /** A stop with nothing recording changes nothing; a refused start only
      reports the error. */
  lemma StopIgnoredUnlessRecording(r: Recorder, s: Session)
    requires !r.present || !r.recording
    ensures RecorderStop(r, s) == (r, s)
    ensures RecorderStart(r, s, false) == (r, s.(pronunciation := MicError))
  {
  }

  /** The recorder's refs, kept apart from the lesson state. */
  class Microphone {
    var present: bool
    var recording: bool
    var chunks: seq<Chunk>

    function Rec(): Recorder
      reads this
    {
      Recorder(present, recording, chunks)
    }

    constructor ()
      ensures Rec() == Recorder(false, false, [])
    {
      present, recording, chunks := false, false, [];
    }
  }

  /** The page itself: its state and refs as fields, each handler and
      effect a method that performs the source's steps in order. */
  class Page {
    const course: Option<Course>
    const deck: seq<Prompt>
    const mic: Microphone
    var index: nat
    var input: string
    var attempts: seq<string>
    var feedback: string
    var showAnswer: bool
    var demoMode: bool
    var lock: bool
    var loaded: bool
    var spoken: seq<Request>
    var chats: seq<ChatRequest>
    var introPlayed: set<nat>
    var showIntro: bool
    var completionPlayed: bool
    var pronunciation: string
    var recognizing: bool
    var timers: seq<Timer>

    /** This copy has no first-question flag; it stays false. */
    function State(): Session
      reads this
    {
      Session(course, deck, index, input, attempts, feedback, showAnswer, demoMode,
              Player(lock, loaded), spoken, chats, introPlayed, showIntro,
              false, completionPlayed, pronunciation, recognizing, timers)
    }

    constructor (id: string)
      ensures State() == Start(id)
      ensures fresh(mic) && mic.Rec() == Recorder(false, false, [])
    {
      course, deck := CourseOf(id), RouteDeck(CourseOf(id));
      index, input, attempts, feedback := 0, "", [], "";
      showAnswer, demoMode, lock, loaded := false, false, false, false;
      spoken, chats, introPlayed := [], [], {};
      showIntro, completionPlayed := true, false;
      pronunciation, recognizing, timers := "", false, [];
      mic := new Microphone();
    }

    /** The input box's `onChange`. */
    method Type(text: string)
      modifies this
      ensures State() == old(State()).(input := text)
    {
      input := text;
    }

    /** The intro screen's start button. */
    method BeginLesson()
      modifies this
      ensures State() == old(State()).(showIntro := false)
    {
      showIntro := false;
    }

    // The state setters the handlers call, one per piece of state.

    method SetFeedback(message: string)
      modifies this
      ensures State() == old(State()).(feedback := message)
    {
      feedback := message;
    }

    method SetShowAnswer(shown: bool)
      modifies this
      ensures State() == old(State()).(showAnswer := shown)
    {
      showAnswer := shown;
    }

    method SetUserAttempts(all: seq<string>)
      modifies this
      ensures State() == old(State()).(attempts := all)
    {
      attempts := all;
    }

    method SetPronunciationFeedback(message: string)
      modifies this
      ensures State() == old(State()).(pronunciation := message)
    {
      pronunciation := message;
    }

    method SetIsRecognizing(on: bool)
      modifies this
      ensures State() == old(State()).(recognizing := on)
    {
      recognizing := on;
    }

    method SetCompletionPlayed(played: bool)
      modifies this
      ensures State() == old(State()).(completionPlayed := played)
    {
      completionPlayed := played;
    }

    method SetCurrentPromptIndex(i: nat)
      modifies this
      ensures State() == old(State()).(index := i)
    {
      index := i;
    }

    /** `hasPlayedIntroRef.current[i] = true` */
    method MarkIntroPlayed(i: nat)
      modifies this
      ensures State() == old(State()).(introPlayed := old(introPlayed) + {i})
    {
      introPlayed := introPlayed + {i};
    }

    /** A request posted to `/chat`. */
    method AskTutor(request: ChatRequest)
      modifies this
      ensures State() == old(State()).(chats := old(chats) + [request])
    {
      chats := chats + [request];
    }

    /** `setTimeout`: the callback joins the pending timers. */
    method SetTimer(t: Timer)
      modifies this
      ensures State() == Schedule(old(State()), t)
    {
      timers := timers + [t];
    }

    /** A timer that has fired leaves the pending list. */
    method RemoveTimer(k: nat)
      requires k < |timers|
      modifies this
      ensures State() == old(State()).(timers := old(timers)[..k] + old(timers)[k + 1..])
    {
      timers := timers[..k] + timers[k + 1..];
    }

    /** `isAudioPlayingRef.current` and whether `audioRef.current` holds a clip. */
    method SetRefs(p: Player)
      modifies this
      ensures State() == old(State()).(player := p)
    {
      lock, loaded := p.lock, p.loaded;
    }

    /** Requests posted to `/speak`. */
    method LogSpeech(requests: seq<Request>)
      modifies this
      ensures State() == old(State()).(spoken := old(spoken) + requests)
    {
      spoken := spoken + requests;
    }

    method SetDemoMode(on: bool)
      modifies this
      ensures State() == old(State()).(demoMode := on)
    {
      demoMode := on;
    }

    method SetTimers(pending: seq<Timer>)
      modifies this
      ensures State() == old(State()).(timers := pending)
    {
      timers := pending;
    }

    method StopCurrentAudio()
      modifies this
      ensures State() == StopAudio(old(State()))
    {
      if loaded {
        loaded := false;
        lock := false;
      }
    }

    method PlayAudioAndWait(text: string, skipTeach: bool, retries: nat, f: Fetch)
      modifies this
      ensures State() == Speak(MyApp, old(State()), text, !skipTeach, f, retries)
    {
      var step := Play(MyApp, Player(lock, loaded), f, retries);
      Settle(step, text, !skipTeach);
    }

    /** The page after the call: the refs take the step's values, the
        request is logged unless the call was dropped, a failure turns on
        demo mode with its message, and the follow-up timer is set. */
    method Settle(step: Step, text: string, teach: bool)
      modifies this
      ensures State() == AfterPlay(old(State()), step, text, teach)
    {
      var demo, message, pending := demoMode, feedback, timers;
      SetRefs(step.player);
      LogSpeech(Sent(step.outcome, text, teach));
      SetDemoMode(demo || step.outcome.Failed?);
      SetFeedback(Shown(step.outcome, message));
      SetTimers(pending + FollowUp(step.outcome, text, teach));
    }

    method HandleSubmit(pick: nat, tutor: Tutor, f: Fetch, g: Fetch, h: Fetch)
      requires index < |deck| && pick < 5
      modifies this
      ensures State() == Submit(old(State()), pick, tutor, f, g, h)
    {
      var text := deck[index].text;
      var correct := TypedCorrect(StraightAndCurly, input, deck[index].answer);
      RecordAttempt();
      Answer(text, correct, pick, tutor, f, g, h);
    }

    /** The verdict's branch of `handleSubmit`. */
    method Answer(text: string, correct: bool, pick: nat, tutor: Tutor, f: Fetch, g: Fetch, h: Fetch)
      requires pick < 5
      modifies this
      ensures State() == Respond(old(State()), text, correct, pick, tutor, f, g, h)
    {
      if correct {
        PraiseAnswer(text, pick, tutor, f, g, h);
      } else {
        CheckAnswer(text, pick, tutor, f, g);
      }
    }

    /** The steps every submission takes before the verdict. */
    method RecordAttempt()
      requires index < |deck|
      modifies this
      ensures State() == Record(old(State()))
    {
      var typed, answer := input, deck[index].answer;
      SetUserAttempts(attempts + [typed]);
      SetShowAnswer(true);
      AskTutor(ChatRequest(typed, AnswerContext(answer)));
    }

    method PraiseAnswer(text: string, pick: nat, tutor: Tutor, f: Fetch, g: Fetch, h: Fetch)
      requires pick < 5
      modifies this
      ensures State() == Praised(old(State()), text, pick, tutor, f, g, h)
    {
      var praise := "\U{2705} " + Praise[pick];
      SetFeedback(praise);
      Type("");
      Teach(text, praise, tutor, f, g);
      PlayAudioAndWait(Confirmation, true, Attempts, h);
      SetTimer(AdvanceAfterAnswer);
    }

    method Teach(text: string, praise: string, tutor: Tutor, f: Fetch, g: Fetch)
      modifies this
      ensures State() == Taught(old(State()), text, praise, tutor, f, g)
    {
      match tutor
      case Replied(reply) =>
        Converse(text, praise + "\n" + reply, reply, f, g);
      case Unreachable =>
        SetFeedback(praise + NoTeacher);
        PlayAudioAndWait(text, true, Attempts, f);
    }

    method Converse(text: string, shown: string, reply: string, f: Fetch, g: Fetch)
      modifies this
      ensures State() == Exchange(old(State()), text, shown, reply, f, g)
    {
      PlayAudioAndWait(text, true, Attempts, f);
      SetFeedback(shown);
      PlayAudioAndWait(reply, true, Attempts, g);
    }

    method CheckAnswer(text: string, pick: nat, tutor: Tutor, f: Fetch, g: Fetch)
      requires pick < 5
      modifies this
      ensures State() == Checked(old(State()), text, pick, tutor, f, g)
    {
      SetFeedback(Checking);
      match tutor {
        case Replied(reply) =>
          Converse(text, Encouragement[pick] + "\n" + reply, reply, f, g);
        case Unreachable =>
          SetFeedback(TutorDown);
      }
      Type("");
    }

    method PromptIntroEffect(f: Fetch)
      modifies this
      ensures State() == PromptIntro(old(State()), f)
    {
      if index < |deck| && index !in introPlayed {
        var text := deck[index].text;
        ResetPrompt();
        PlayAudioAndWait(IntroLine(text), true, Attempts, f);
      }
    }

    method ResetPrompt()
      modifies this
      ensures State() == ResetView(old(State()))
    {
      var i := index;
      SetShowAnswer(false);
      SetFeedback("");
      SetUserAttempts([]);
      StopCurrentAudio();
      MarkIntroPlayed(i);
    }

    method CompletionEffect(f: Fetch)
      modifies this
      ensures State() == Completion(MyApp, CompletionText, old(State()), f)
    {
      if index >= |deck| && !completionPlayed {
        StopCurrentAudio();
        PlayAudioAndWait(CompletionText, true, Attempts, f);
        SetCompletionPlayed(true);
      } else if index < |deck| {
        SetCompletionPlayed(false);
      }
    }

    method WelcomeEffect(f: Fetch)
      modifies this
      ensures State() == Welcome(MyApp, old(State()), f)
    {
      if showIntro && course.Some? {
        PlayAudioAndWait(WelcomeText(course.value), true, Attempts, f);
      }
    }

    method CheckPronunciation(supported: bool)
      modifies this
      ensures State() == StartRecognition(old(State()), supported)
    {
      if !supported {
        SetPronunciationFeedback(NotSupported);
        return;
      }
      SetIsRecognizing(true);
      SetPronunciationFeedback(Listening);
    }

    method OnRecognitionResult(raw: string, f: Fetch)
      requires index < |deck|
      modifies this
      ensures State() == RecognitionResult(MyApp, old(State()), raw, f)
    {
      var transcript := Transcript(raw);
      if Contains(transcript, SpeechPattern(deck[index].answer)) {
        CheerAndAdvance(raw, f);
      } else {
        SetPronunciationFeedback("\U{274C} Try again. You said: \"" + transcript + "\"\nTip: Speak slowly and clearly for the best results.");
      }
    }

    method CheerAndAdvance(raw: string, f: Fetch)
      modifies this
      ensures State() == Cheered(MyApp, old(State()), raw, f)
    {
      SetPronunciationFeedback("\U{2705} Good pronunciation! You said: \"" + Transcript(raw) + "\"\nWould you like to try saying it faster?");
      PlayAudioAndWait(Cheer(course), true, Attempts, f);
      SetTimer(AdvanceAfterSpeech);
    }

    method OnRecognitionError(error: string)
      modifies this
      ensures State() == RecognitionError(old(State()), error)
    {
      SetPronunciationFeedback("\U{274C} Error: " + error);
    }

    method OnRecognitionEnd()
      modifies this
      ensures State() == old(State()).(recognizing := false)
    {
      SetIsRecognizing(false);
    }

    method SpeakPronunciation(slow: bool, f: Fetch)
      modifies this
      ensures State() == SpeakPrompt(MyApp, old(State()), slow, f)
    {
      if index >= |deck| {
        return;
      }
      PlayAudioAndWait(SpokenText(deck[index], slow), true, Attempts, f);
    }

    method SpeakAnswerButton(f: Fetch)
      modifies this
      ensures State() == SpeakAnswer(MyApp, old(State()), f)
    {
      if index >= |deck| || lock {
        return;
      }
      PlayAudioAndWait(deck[index].answer, true, Attempts, f);
    }

    method PlayQuestionAudio(f: Fetch)
      requires index < |deck|
      modifies this
      ensures State() == PlayQuestion(MyApp, old(State()), f)
    {
      if lock {
        return;
      }
      PlayAudioAndWait(deck[index].text, false, Attempts, f);
    }

    /** The playing clip's `onended`; this copy installs no `onerror`. */
    method AudioEnded()
      modifies this
      ensures State() == old(State()).(player := Release(old(State()).player))
    {
      StopCurrentAudio();
    }

    /** Timer `k` fires: it leaves the pending list, then runs. */
    method TimerFires(k: nat, f: Fetch)
      modifies this
      ensures State() == Fire(MyApp, old(State()), k, f)
    {
      if k >= |timers| {
        return;
      }
      var t, i := timers[k], index;
      RemoveTimer(k);
      match t
      case AdvanceAfterAnswer =>
        SetFeedback("");
        SetShowAnswer(false);
        SetCurrentPromptIndex(i + 1);
      case AdvanceAfterSpeech =>
        SetPronunciationFeedback("");
        SetCurrentPromptIndex(i + 1);
      case ClearFeedback =>
        SetFeedback("");
      case RetrySpeak(text, teach, left) =>
        PlayAudioAndWait(text, !teach, left, f);
    }

    method StartRecording(granted: bool)
      modifies this, mic
      ensures (mic.Rec(), State()) == RecorderStart(old(mic.Rec()), old(State()), granted)
    {
      if granted {
        mic.present, mic.chunks := true, [];
        mic.recording := true;
      } else {
        SetPronunciationFeedback(MicError);
      }
    }

    method OnDataAvailable(c: Chunk)
      requires mic.present
      modifies mic
      ensures mic.Rec() == RecorderData(old(mic.Rec()), c)
    {
      mic.chunks := mic.chunks + [c];
    }

    method StopRecording()
      modifies this, mic
      ensures (mic.Rec(), State()) == RecorderStop(old(mic.Rec()), old(State()))
    {
      if mic.present && mic.recording {
        mic.recording := false;
        SetPronunciationFeedback(Recorded);
      }
    }
  }
}
