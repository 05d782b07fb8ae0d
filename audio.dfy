/** The audio lock of the chat pages: `playAudioAndWait`, `stopCurrentAudio`
    and the `onended`/`onerror` handlers, over the two refs they share
    (`isAudioPlayingRef`, the lock, and `audioRef`, the loaded clip). The
    text-to-speech request and the start of playback are an outcome given
    to the model. */
module Audio {
  import opened JsText

  /** The two copies of the chat page differ in how playback is started
      and whether a playback error releases the lock. */
  datatype Variant = Project | MyApp

  /** `lock` is `isAudioPlayingRef.current`; `loaded` is `audioRef.current != null`. */
  datatype Player = Player(lock: bool, loaded: bool)

  /** How the request to `/speak` and the start of playback came out. */
  datatype Fetch =
    | Playing                                 // the clip arrived and started playing
    | PlayRejected                            // the clip arrived but `play()` was refused
    | NoResponse                              // the request failed without a response body
    | ErrorBody(shown: string, detail: string) // an error response: the body's `toString()`
                                              // and its JSON `detail.message` ("" when absent)

  /** What one call of `playAudioAndWait` did. */
  datatype Outcome =
    | Dropped                  // the lock was held: the call returned at once
    | Started                  // a clip is loaded and playing
    | Retrying(left: nat)      // a new call with `left` retries was scheduled
    | Failed(message: string)  // demo mode, with this feedback message

  datatype Step = Step(player: Player, outcome: Outcome)

  const Attempts: nat := 3
  const BusyMarker := "system_busy"
  const BlobText := "[object Blob]"
  const DemoMessage := "\U{1F50A} Demo Mode: Audio would play here. (ElevenLabs credits needed for real audio)"
  const FallbackDetail := "Could not get audio. Please try again."

  /** Clearing `audioRef` and the lock: what `stopCurrentAudio` does when a
      clip is loaded, and what the `onended` handler (and, in the project
      copy, the `onerror` handler) does. With no clip loaded nothing changes. */
  function Release(p: Player): (r: Player)
    ensures !r.loaded
    ensures r.lock <==> p.lock && !p.loaded
  {
    if p.loaded then Player(false, false) else p
  }

  /** The retry branch is taken only with retries left and a response
      body whose text mentions `system_busy`. */
  predicate RetryFires(f: Fetch, retries: nat) {
    retries > 0 && f.ErrorBody? && Contains(f.shown, BusyMarker)
  }

  /** The feedback shown when the call gives up. */
  function FailureMessage(f: Fetch): (m: string)
    ensures f.ErrorBody? && f.detail != "" ==> m == "\U{1F50A} Audio Error: " + f.detail
    ensures f.ErrorBody? && f.detail == "" ==> m == "\U{1F50A} Audio Error: " + FallbackDetail
    ensures !f.ErrorBody? ==> m == DemoMessage
  {
    if f.ErrorBody? then
      "\U{1F50A} Audio Error: " + (if f.detail != "" then f.detail else FallbackDetail)
    else DemoMessage
  }

  /** One call of `playAudioAndWait(text, skipTeach, retries)`. */
  function Play(v: Variant, p: Player, f: Fetch, retries: nat): Step {
    if p.lock then Step(p, Dropped)
    else
      // take the lock, then `stopCurrentAudio()`
      var q := Release(Player(true, p.loaded));
      match f
      case Playing => Step(q.(loaded := true), Started)
      case PlayRejected =>
        // the project copy awaits `play()` and lands in the catch block;
        // my-app does not await it, so the rejection goes unnoticed
        if v == Project then Step(Player(false, true), Failed(DemoMessage))
        else Step(q.(loaded := true), Started)
      case _ =>
        if RetryFires(f, retries) then Step(q, Retrying(retries - 1))
        else Step(q.(lock := false), Failed(FailureMessage(f)))
  }

  /** The `onerror` handler: only the project copy installs one. */
  function PlaybackError(v: Variant, p: Player): (r: Player)
    ensures v == MyApp ==> r == p
    ensures v == Project ==> r == Release(p)
  {
    if v == Project then Release(p) else p
  }

  /** While the lock is held every call is dropped and changes nothing. */
  lemma DroppedWhileLocked(v: Variant, p: Player, f: Fetch, retries: nat)
    requires p.lock
    ensures Play(v, p, f, retries) == Step(p, Dropped)
  {
  }

  /** From a free player a call is never dropped, and a clip that starts
      playing holds the lock until it ends or is stopped. */
  lemma FreeCallTakesLock(v: Variant, p: Player, f: Fetch, retries: nat)
    requires !p.lock && !p.loaded
    ensures Play(v, p, f, retries).outcome != Dropped
    ensures Play(v, p, f, retries).outcome == Started ==> Play(v, p, f, retries).player == Player(true, true)
  {
  }

  /** A call that gives up always releases the lock. */
  lemma FailureReleases(v: Variant, p: Player, f: Fetch, retries: nat)
    requires Play(v, p, f, retries).outcome.Failed?
    ensures !Play(v, p, f, retries).player.lock
  {
  }

  /** The retry branch fires only with retries left, passes one fewer, and
      returns with no clip loaded, still holding the lock it took unless a
      clip was loaded before the call (whose stop released it). */
  lemma RetryKeepsLock(v: Variant, p: Player, f: Fetch, retries: nat)
    requires !p.lock
    ensures Play(v, p, f, retries).outcome.Retrying? <==> RetryFires(f, retries)
    ensures Play(v, p, f, retries).outcome.Retrying? ==>
      Play(v, p, f, retries).outcome.left == retries - 1 && retries > 0
      && Play(v, p, f, retries).player == Player(!p.loaded, false)
  {
  }

  /** The rescheduled call meets the lock its own first attempt kept, and is
      dropped whatever its request would have returned. */
  lemma RescheduledCallDropped(v: Variant, p: Player, f: Fetch, retries: nat, g: Fetch)
    requires !p.loaded
    requires Play(v, p, f, retries).outcome.Retrying?
    ensures Play(v, Play(v, p, f, retries).player, g, retries - 1).outcome == Dropped
  {
    RetryKeepsLock(v, p, f, retries);
  }

  /** The body of an error response is read as a Blob, whose `toString()` is
      `[object Blob]`, which never mentions `system_busy`. */
  lemma BlobNeverRetries(f: Fetch, retries: nat)
    requires f.ErrorBody? && f.shown == BlobText
    ensures !RetryFires(f, retries)
  {
    MissingFirstChar(BlobText, BusyMarker);
  }

  /** The events the lock reacts to. */
  datatype Event =
    | Call(fetch: Fetch, retries: nat) // `playAudioAndWait`
    | Stopped                          // `stopCurrentAudio`
    | Ended                            // the clip's `onended`
    | Errored                          // the clip's `onerror`

  function Apply(v: Variant, p: Player, e: Event): Step {
    match e
    case Call(f, n) => Play(v, p, f, n)
    case Stopped => Step(Release(p), Dropped)
    case Ended => Step(Release(p), Dropped)
    case Errored => Step(PlaybackError(v, p), Dropped)
  }

  /** The player after a run of events, and the calls' outcomes. */
  function Run(v: Variant, p: Player, events: seq<Event>): (r: (Player, seq<Outcome>))
    ensures |r.1| == |events|
    decreases |events|
  {
    if events == [] then (p, [])
    else
      var s := Apply(v, p, events[0]);
      var rest := Run(v, s.player, events[1..]);
      (rest.0, [s.outcome] + rest.1)
  }

  /** The lock held with no clip loaded is stuck: nothing can release it,
      so every later call, however many, is dropped. This is the state the
      retry branch leaves behind. */
  lemma {:induction false} StuckLockForever(v: Variant, events: seq<Event>)
    ensures Run(v, Player(true, false), events).0 == Player(true, false)
    ensures forall i :: 0 <= i < |events| ==> Run(v, Player(true, false), events).1[i] == Dropped
  {
    if events != [] {
      StuckLockForever(v, events[1..]);
    }
  }

  /** In the my-app copy a playing clip that fails keeps the lock: only its
      end, a stop, or nothing releases it. */
  lemma {:induction false} MyAppErrorsNeverRelease(p: Player, n: nat)
    ensures Run(MyApp, p, seq(n, _ => Errored)).0 == p
  {
    if n > 0 {
      var events := seq(n, _ => Errored);
      assert events[1..] == seq(n - 1, _ => Errored);
      MyAppErrorsNeverRelease(p, n - 1);
    }
  }
}
