/** The state shared by both copies of the chat page: the React state and
    refs of one lesson session, the log of requests sent to the backend,
    and the `setTimeout` callbacks that are still pending. */
module ChatSession {
  import opened Options
  import opened JsText
  import opened Audio
  import opened Courses

  /** A request to `/speak`; `teach` is the negation of `skipTeach`. */
  datatype Request = Request(text: string, teach: bool)

  /** A request to `/chat`. */
  datatype ChatRequest = ChatRequest(message: string, context: string)

  /** How the request to `/chat` came out. */
  datatype Tutor = Replied(reply: string) | Unreachable

  /** A pending `setTimeout` callback. */
  datatype Timer =
    | AdvanceAfterAnswer                          // clear feedback and the answer, next prompt
    | AdvanceAfterSpeech                          // clear the pronunciation feedback, next prompt
    | ClearFeedback                               // clear the audio error message
    | RetrySpeak(text: string, teach: bool, left: nat) // `playAudioAndWait` once more

  datatype Session = Session(
    course: Option<Course>,    // the route's course; None for an unknown route
    deck: seq<Prompt>,         // prompts[character], selected once
    index: nat,                // currentPromptIndex
    input: string,             // userInput
    attempts: seq<string>,     // userAttempts
    feedback: string,
    showAnswer: bool,
    demoMode: bool,
    player: Player,            // isAudioPlayingRef and audioRef
    spoken: seq<Request>,      // requests sent to /speak
    chats: seq<ChatRequest>,   // requests sent to /chat
    introPlayed: set<nat>,     // the keys of hasPlayedIntroRef
    showIntro: bool,
    firstQuestionPlayed: bool,
    completionPlayed: bool,
    pronunciation: string,     // pronunciationFeedback
    recognizing: bool,
    timers: seq<Timer>)

  /** The page as it is first rendered for a course. */
  function Start(id: string): (s: Session)
    ensures s.course == CourseOf(id) && s.deck == RouteDeck(CourseOf(id))
    ensures s.index == 0 && s.attempts == [] && s.showIntro && s.timers == []
    ensures s.spoken == [] && s.chats == [] && s.introPlayed == {} && !s.completionPlayed
    ensures !s.player.lock && !s.player.loaded
    ensures HasPrompt(s) <==> CourseOf(id).Some?
  {
    Session(CourseOf(id), RouteDeck(CourseOf(id)), 0, "", [], "", false, false, Player(false, false), [], [], {},
            true, false, false, "", false, [])
  }

  /** `currentPrompt` is defined. */
  predicate HasPrompt(s: Session) {
    s.index < |s.deck|
  }

  function Current(s: Session): Prompt
    requires HasPrompt(s)
  {
    s.deck[s.index]
  }

  /** The context sent with an answer to `/chat`. */
  function AnswerContext(answer: string): (c: string)
    ensures |c| > |answer| && c[|c| - |answer|..] == answer
  {
    "The correct answer is: " + answer
  }

  /** The feedback while a wrong answer is with the tutor, and when the
      tutor cannot be reached. */
  const Checking := "Checking your answer..."
  const TutorDown := "Could not check answer with Gemini."

  /** The pronunciation feedback when the browser has no speech
      recognition, and while it listens. */
  const NotSupported := "\U{274C} Speech recognition not supported in this browser."
  const Listening := "\U{1F3A4} Listening..."

  /** What the per-prompt intro says before the question. */
  function IntroLine(text: string): string {
    "Okay, let's learn how to say '" + text + "' today!"
  }

  /** `stopCurrentAudio()` */
  function StopAudio(s: Session): (r: Session)
    ensures !r.player.loaded
  {
    s.(player := Release(s.player))
  }

  predicate IsAdvance(t: Timer) {
    t.AdvanceAfterAnswer? || t.AdvanceAfterSpeech?
  }

  /** The number of pending timers that move to the next prompt. */
  function PendingAdvances(timers: seq<Timer>): nat {
    if timers == [] then 0
    else PendingAdvances(timers[..|timers| - 1]) + (if IsAdvance(timers[|timers| - 1]) then 1 else 0)
  }

  lemma {:induction false} PendingAdvancesConcat(a: seq<Timer>, b: seq<Timer>)
    ensures PendingAdvances(a + b) == PendingAdvances(a) + PendingAdvances(b)
    decreases |b|
  {
    if b != [] {
      assert (a + b)[..|a + b| - 1] == a + b[..|b| - 1];
      PendingAdvancesConcat(a, b[..|b| - 1]);
    } else {
      assert a + b == a;
    }
  }

  /** The prompt the session reaches once every pending timer has fired. */
  function Projected(s: Session): nat {
    s.index + PendingAdvances(s.timers)
  }

  /** One call of `playAudioAndWait(text, !teach, retries)` together with
      what its outcome does to the page: a request is sent unless the call
      is dropped; a retry is scheduled; a failure turns on demo mode, shows
      its message and schedules the message's removal. */
  function Speak(v: Variant, s: Session, text: string, teach: bool, f: Fetch, retries: nat): (r: Session)
    ensures r.player == Play(v, s.player, f, retries).player
    ensures r.spoken == if Play(v, s.player, f, retries).outcome.Dropped? then s.spoken
                        else s.spoken + [Request(text, teach)]
    ensures r.course == s.course && r.deck == s.deck
    ensures r.index == s.index && r.attempts == s.attempts && r.input == s.input
    ensures r.showAnswer == s.showAnswer && r.chats == s.chats
    ensures r.introPlayed == s.introPlayed && r.completionPlayed == s.completionPlayed
    ensures r.pronunciation == s.pronunciation && r.recognizing == s.recognizing
    ensures Projected(r) == Projected(s)
    ensures Play(v, s.player, f, retries).outcome.Failed? ==>
      r.demoMode && r.feedback == Play(v, s.player, f, retries).outcome.message
    ensures !Play(v, s.player, f, retries).outcome.Failed? ==>
      r.demoMode == s.demoMode && r.feedback == s.feedback
  {
    AfterPlayKeepsProjection(s, Play(v, s.player, f, retries), text, teach);
    AfterPlay(s, Play(v, s.player, f, retries), text, teach)
  }

  /** What the outcome of a call does to the page. */
  function AfterPlay(s: Session, step: Step, text: string, teach: bool): Session {
    s.(player := step.player)
     .(spoken := s.spoken + Sent(step.outcome, text, teach))
     .(demoMode := s.demoMode || step.outcome.Failed?)
     .(feedback := Shown(step.outcome, s.feedback))
     .(timers := s.timers + FollowUp(step.outcome, text, teach))
  }

  /** No call of `playAudioAndWait` schedules an advance. */
  lemma AfterPlayKeepsProjection(s: Session, step: Step, text: string, teach: bool)
    ensures Projected(AfterPlay(s, step, text, teach)) == Projected(s)
  {
    PendingAdvancesConcat(s.timers, FollowUp(step.outcome, text, teach));
  }

  /** The request a call sends to `/speak`: none when it was dropped. */
  function Sent(o: Outcome, text: string, teach: bool): (r: seq<Request>)
    ensures r == [] <==> o.Dropped?
  {
    if o.Dropped? then [] else [Request(text, teach)]
  }

  /** The feedback line after a call: its error message when it failed. */
  function Shown(o: Outcome, feedback: string): (r: string)
    ensures !o.Failed? ==> r == feedback
  {
    if o.Failed? then o.message else feedback
  }

  /** The timer a call of `playAudioAndWait` leaves behind: the retry, or
      the removal of its error message. */
  function FollowUp(o: Outcome, text: string, teach: bool): (t: seq<Timer>)
    ensures PendingAdvances(t) == 0
  {
    match o
    case Retrying(left) => [RetrySpeak(text, teach, left)]
    case Failed(_) => [ClearFeedback]
    case _ => []
  }

  /** Timer `k` fires (the model does not order them by delay) and is
      removed from the pending list; `f` is how a retried request comes out. */
  function Fire(v: Variant, s: Session, k: nat, f: Fetch): Session {
    if k >= |s.timers| then s
    else
      var s1 := s.(timers := s.timers[..k] + s.timers[k + 1..]);
      match s.timers[k]
      case AdvanceAfterAnswer => s1.(feedback := "").(showAnswer := false).(index := s.index + 1)
      case AdvanceAfterSpeech => s1.(pronunciation := "").(index := s.index + 1)
      case ClearFeedback => s1.(feedback := "")
      case RetrySpeak(text, teach, left) => Speak(v, s1, text, teach, f, left)
  }

  lemma PendingAdvancesRemove(timers: seq<Timer>, k: nat)
    requires k < |timers|
    ensures PendingAdvances(timers) ==
      PendingAdvances(timers[..k] + timers[k + 1..]) + (if IsAdvance(timers[k]) then 1 else 0)
  {
    var a, b := timers[..k], timers[k + 1..];
    assert a + [timers[k]] == timers[..k + 1];
    assert timers[..k + 1] + b == timers;
    PendingAdvancesSplit(a, timers[k], b);
  }

  lemma PendingAdvancesSplit(a: seq<Timer>, x: Timer, b: seq<Timer>)
    ensures PendingAdvances((a + [x]) + b) ==
      PendingAdvances(a + b) + (if IsAdvance(x) then 1 else 0)
  {
    PendingAdvancesConcat(a + [x], b);
    PendingAdvancesConcat(a, [x]);
    PendingAdvancesConcat(a, b);
    assert PendingAdvances([x]) == (if IsAdvance(x) then 1 else 0) by {
      assert [x][..0] == [];
    }
  }

  /** Firing a timer never changes where the session is headed: an advance
      moves the cursor by exactly one and is used up, anything else leaves
      the cursor alone. */
  lemma FireKeepsProjection(v: Variant, s: Session, k: nat, f: Fetch)
    ensures Projected(Fire(v, s, k, f)) == Projected(s)
    ensures Fire(v, s, k, f).index == if k < |s.timers| && IsAdvance(s.timers[k]) then s.index + 1 else s.index
  {
    if k < |s.timers| {
      PendingAdvancesRemove(s.timers, k);
      var s1 := s.(timers := s.timers[..k] + s.timers[k + 1..]);
      assert Projected(s) == Projected(s1) + (if IsAdvance(s.timers[k]) then 1 else 0);
      FireRemoves(v, s, k, f);
    }
  }

  /** What firing timer `k` does to the cursor and the pending list. */
  lemma FireRemoves(v: Variant, s: Session, k: nat, f: Fetch)
    requires k < |s.timers|
    ensures Projected(Fire(v, s, k, f)) == Projected(s.(timers := s.timers[..k] + s.timers[k + 1..]))
      + (if IsAdvance(s.timers[k]) then 1 else 0)
    ensures Fire(v, s, k, f).index == if IsAdvance(s.timers[k]) then s.index + 1 else s.index
  {
    var s1 := s.(timers := s.timers[..k] + s.timers[k + 1..]);
    var r := Fire(v, s, k, f);
    match s.timers[k]
    case AdvanceAfterAnswer =>
      assert r.timers == s1.timers && r.index == s.index + 1;
    case AdvanceAfterSpeech =>
      assert r.timers == s1.timers && r.index == s.index + 1;
    case ClearFeedback =>
      assert r.timers == s1.timers && r.index == s.index;
    case RetrySpeak(text, teach, left) =>
      assert r == Speak(v, s1, text, teach, f, left);
  }

  /** Firing the answer timer clears the feedback and the shown answer and
      moves to the next prompt. */
  lemma FireAnswerTimer(v: Variant, s: Session, k: nat, f: Fetch)
    requires k < |s.timers| && s.timers[k] == AdvanceAfterAnswer
    ensures Fire(v, s, k, f).index == s.index + 1
    ensures Fire(v, s, k, f).feedback == "" && !Fire(v, s, k, f).showAnswer
    ensures Fire(v, s, k, f).attempts == s.attempts
  {
  }

  /** Scheduling a timer at the end. */
  function Schedule(s: Session, t: Timer): (r: Session)
    ensures r.timers == s.timers + [t]
    ensures Projected(r) == Projected(s) + (if IsAdvance(t) then 1 else 0)
  {
    PendingAdvancesConcat(s.timers, [t]);
    s.(timers := s.timers + [t])
  }
}
