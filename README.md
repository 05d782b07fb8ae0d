# Voicenary lesson logic in Dafny

This project models the client-side logic of the Voicenary language tutor.
At its centre is the lesson session controller of the chat page, in both of its
copies (`project/src/components/Chat.jsx` and the older
`my-app/src/pages/Chat.jsx`):

- a course selects a fixed deck of prompts;
- a typed answer is judged by normalised equality and a spoken one by
  substring containment;
- every attempt is logged;
- a correct answer schedules a move to the next prompt;
- every spoken line goes through `playAudioAndWait`, which holds an audio
  lock and can schedule a bounded retry when the text-to-speech backend is
  busy.

Around it sit the client decisions of `project/src/services/api.js`: the
response-error classification, the health and status reports, the `/chat`
context and the `retryRequest` loop. The project also covers the small
selection and navigation rules of the Lessons, Characters, Explore and
Feedback pages.

The modelling choices:

- **Values are datatypes.** What the source computes from values (`normalize`,
  the filters, the option lists, the interceptor chain, the health mapping)
  is written as datatypes and functions, with lemmas about them.
- **Pages are classes.** What the source changes step by step (a page's React
  state and refs) is a class whose fields are that state. Each handler is a
  method that performs the source's steps in order and whose `ensures` ties
  the new state to a step function on the `Session` value
  (`State() == Submit(old(State()), …)`). The lemmas about those step
  functions state what the source promises. `retryRequest` is a method with
  its `for` loop.
- **The outside world is a parameter.** Everything the page does not decide
  itself is passed in: how a `/speak` request and the start of playback come
  out, the `/chat` outcome, `Math.random`'s pick, the recognised transcript,
  whether the browser has speech recognition and whether the microphone was
  granted.
- **Timers are a pending list.** A `setTimeout` callback joins that list. A
  method fires the callback at a given position. `Projected` is the prompt
  index the session reaches once every pending advance has fired.

Modules:

- `JsText`: JavaScript's `\s`, `toLowerCase`, `trim` and `includes`.
- `AnswerMatch`, `AnswerExamples`: the normaliser, both verdicts, and worked
  examples.
- `Audio`: the audio lock.
- `Courses`: decks, hints, slow text and feedback pools.
- `ChatSession`: the session state, spoken requests and timers.
- `ChatHandlers`: the handlers both chat copies share.
- `ProjectChat`, `MyAppChat`: the two chat pages.
- `Api`: the client decisions of `api.js`.
- `Lessons`, `Characters`, `Explore`, `Feedback`: the four smaller pages.
- `Carousel`: the wrap-around steps that Explore and Feedback share.
- `Sequences`: the subsequence relation.
- `Options`: the optional value shared by `Courses` and `Api`.

## Model

| member | source | states |
|---|---|---|
| JsText.LowerChar | project/src/components/Chat.jsx:238 | the restricted `toLowerCase` of one character keeps it inside or outside `\s` |
| JsText.LowerCharIdempotent | project/src/components/Chat.jsx:238 | lower-casing a lower-cased character changes nothing |
| JsText.TrimStart | project/src/components/Chat.jsx:238 | the result is a suffix of the input that does not start with `\s`, and everything removed is `\s` |
| JsText.TrimEnd | project/src/components/Chat.jsx:238 | the result is a prefix of the input that does not end with `\s`, and everything removed is `\s` |
| JsText.BlankIffAllSpace | project/src/components/Chat.jsx:233 | `!userInput.trim()` holds exactly when every character is in `\s` |
| JsText.VisibleTrim | project/src/components/Chat.jsx:238 | `trim` removes only `\s` characters: the characters outside `\s` are kept, in order |
| JsText.ContainsIff | project/src/components/Chat.jsx:309 | `s.includes(p)` holds exactly when `p` occurs as a contiguous block at some position of `s` |
| JsText.ContainsEmpty | project/src/components/Chat.jsx:309 | every string includes the empty string |
| JsText.MissingFirstChar | project/src/components/Lessons.jsx:62 | a string lacking the first character of `p` cannot include `p` |
| AnswerMatch.KeepOnly | project/src/components/Chat.jsx:238 | the kept-class filter holds only kept characters, holds a character exactly when the input does and it is kept, and is an order-preserving subsequence of the input no longer than it |
| AnswerMatch.Collapse | project/src/components/Chat.jsx:238 | `replace(/\s+/g, ' ')` is empty exactly for the empty input, starts with a space exactly when the input starts with `\s`, and never has two adjacent spaces |
| AnswerMatch.CollapseVisible | project/src/components/Chat.jsx:238 | collapsing whitespace keeps every character outside `\s`, in order |
| AnswerMatch.NormalizeIsNormal | project/src/components/Chat.jsx:238 | every output of `normalize` holds only lower-case kept characters and single plain spaces, with no space at either end |
| AnswerMatch.NormalFixed | project/src/components/Chat.jsx:238 | `normalize` leaves a string of that shape unchanged |
| AnswerMatch.NormalizeIdempotent | my-app/src/pages/Chat.jsx:249 | `normalize` is idempotent, for both kept alphabets (straight only, and straight plus curly apostrophe) |
| AnswerMatch.NormalizeLower | project/src/components/Chat.jsx:238 | lower-casing the input first does not change the result |
| AnswerMatch.NormalizeEmptyIff | project/src/components/Chat.jsx:238 | `normalize` gives `''` exactly when no character lower-cases to a kept character outside `\s` |
| AnswerMatch.HangulNormalizesEmpty | project/src/components/Chat.jsx:74-77 | text made of Hangul and spaces normalises to `''` under either alphabet |
| AnswerMatch.VerdictAgainstEmptyAnswer | project/src/components/Chat.jsx:238-244 | against an answer that normalises to `''`, an input is correct exactly when it has no kept character outside `\s` |
| AnswerMatch.HangulSpeechAlwaysPasses | project/src/components/Chat.jsx:306-309 | a Hangul answer gives the empty speech pattern, so every transcript passes |
| AnswerExamples.BonjourVerdicts | project/src/components/Chat.jsx:238-244 | `"  BONJOUR "` and `"bonjour!"` match `"bonjour"`; `"Bonjour please"` does not |
| AnswerExamples.SpeechContainsExample | project/src/components/Chat.jsx:306-309 | a sentence containing the answer passes the speech check while failing the typed verdict |
| Audio.Release | project/src/components/Chat.jsx:178-186 | a stop (and a clip's end) clears the loaded clip, and frees the lock exactly when a clip was loaded |
| Audio.FailureMessage | project/src/components/Chat.jsx:132-139 | a failed call shows the backend's detail when the error body gives one, `Could not get audio. Please try again.` when the body has no detail, and the demo message when there is no body |
| Audio.PlaybackError | project/src/components/Chat.jsx:118-124 | the project copy's `onerror` releases the clip and the lock; my-app has no `onerror` and nothing changes |
| Audio.DroppedWhileLocked | project/src/components/Chat.jsx:93 | while the lock is held every call is dropped and changes nothing |
| Audio.FreeCallTakesLock | project/src/components/Chat.jsx:93-95 | from an idle player a call is never dropped, and a clip that starts playing holds the lock |
| Audio.FailureReleases | project/src/components/Chat.jsx:143-145 | a call that gives up always releases the lock |
| Audio.RetryKeepsLock | project/src/components/Chat.jsx:127-130 | the retry branch is taken exactly when retries remain and the body mentions `system_busy`; it passes one retry fewer and returns still holding the lock |
| Audio.RescheduledCallDropped | project/src/components/Chat.jsx:93 | the rescheduled retry meets the lock its own first attempt kept and is dropped |
| Audio.BlobNeverRetries | project/src/components/Chat.jsx:104 | a `Blob` error body prints as `[object Blob]`, so the retry never fires |
| Audio.Run | project/src/components/Chat.jsx:92-147 | a run of calls, stops, ends and errors yields one outcome per event |
| Audio.StuckLockForever | project/src/components/Chat.jsx:127-130 | a lock held with no clip loaded is never released, and every later call is dropped |
| Audio.MyAppErrorsNeverRelease | my-app/src/pages/Chat.jsx:105-112 | in my-app any number of playback errors leaves the lock as it was |
| Courses.CourseOf | project/src/components/Chat.jsx:60-81 | exactly the three course ids select a deck |
| Courses.RouteDeck | project/src/components/Chat.jsx:81 | an unknown course has the empty deck, so `currentPrompt` is undefined at every index; a known one has its own deck |
| Courses.HintOf | project/src/components/Chat.jsx:84-86 | a prompt's own hint is kept; one without a hint gets exactly `Try saying: "<answer>"`, from which the answer reads back |
| Courses.ShippedHintsKept | project/src/components/Chat.jsx:60-79 | every shipped prompt has its own hint, so the default never applies |
| Courses.SpacedOut | project/src/components/Chat.jsx:203 | `split('').join(' ')` has length `2n-1` for a non-empty input |
| Courses.SpacedOutLayout | project/src/components/Chat.jsx:203 | character `i` sits at position `2i` and every odd position is a space |
| Courses.SpacedOutInverse | project/src/components/Chat.jsx:203 | taking every other character of the slow text gives back the original |
| Courses.SpokenText | project/src/components/Chat.jsx:198-208 | normal speech says the prompt text; slow speech spells out the romanisation (or the text when there is none) with its characters at the even positions, a space at every odd one, length `2n-1`, and the source reading back from the even positions |
| Courses.RandomFeedback | project/src/components/Chat.jsx:211-229 | the chosen message is a member of the praise pool for a correct answer and of the encouragement pool otherwise |
| Courses.KoreanAnswersHangul | project/src/components/Chat.jsx:73-78 | every Korean answer is made of Hangul and spaces |
| Courses.KoreanAnswersVanish | project/src/components/Chat.jsx:238 | every Korean answer normalises to `''` and gives the empty speech pattern |
| Courses.KoreanVerdict | project/src/components/Chat.jsx:238-244 | on a Korean prompt an input is correct exactly when it has no Latin letter, digit, Latin-1 letter or apostrophe |
| Courses.KoreanSpeechAlwaysPasses | project/src/components/Chat.jsx:306-309 | on a Korean prompt every transcript passes the pronunciation check |
| ChatSession.Start | project/src/components/Chat.jsx:22-37 | the page opens on the route's course and deck at prompt 0 with no attempts, requests or timers, the intro screen up and the lock free; it has a prompt exactly when the route names a known course |
| ChatSession.AnswerContext | project/src/components/Chat.jsx:253 | the `/chat` context ends with the prompt's answer |
| ChatSession.StopAudio | project/src/components/Chat.jsx:178-186 | `stopCurrentAudio` unloads the clip and changes nothing else |
| ChatSession.Speak | project/src/components/Chat.jsx:92-147 | a spoken line logs its request unless dropped; a failure turns on demo mode with its message; the prompt, the attempts and the projected index are unchanged |
| ChatSession.AfterPlayKeepsProjection | project/src/components/Chat.jsx:126-146 | no outcome of a spoken line schedules an advance |
| ChatSession.Sent | project/src/components/Chat.jsx:99-106 | a call sends no request exactly when it was dropped |
| ChatSession.FollowUp | project/src/components/Chat.jsx:128 | the timer a call leaves (a retry or the removal of its message) is never an advance |
| ChatSession.FireKeepsProjection | project/src/components/Chat.jsx:260-264 | firing a timer never changes the projected index; an advance moves the cursor by exactly one |
| ChatSession.FireRemoves | project/src/components/Chat.jsx:317-320 | firing timer `k` removes it and moves the cursor exactly when it is an advance |
| ChatSession.FireAnswerTimer | project/src/components/Chat.jsx:260-264 | the answer timer clears the feedback and the shown answer, moves to the next prompt and keeps the attempts |
| ChatSession.Schedule | project/src/components/Chat.jsx:260 | `setTimeout` appends its callback and raises the projected index by one exactly for an advance |
| ChatHandlers.ResetView | project/src/components/Chat.jsx:159-164 | the intro effect hides the answer, clears the feedback and attempts, stops the audio and marks the index before speaking |
| ChatHandlers.Welcome | project/src/components/Chat.jsx:150-154 | the course intro is spoken only while the intro screen is shown and the route names a known course |
| ChatHandlers.KnownRouteWelcomes | project/src/components/Chat.jsx:150-154 | on a known course the page opens by requesting exactly its welcome |
| ChatHandlers.KnownRouteNotCompleted | project/src/components/Chat.jsx:343-352 | on a known course the completion effect at load requests nothing and leaves the congratulations unplayed |
| ChatHandlers.UnknownRouteCongratulates | project/src/components/Chat.jsx:343-352 | on an unknown course the welcome stays silent and the completion effect at once requests exactly the congratulations, behind the not-found screen |
| ChatHandlers.Completion | project/src/components/Chat.jsx:343-352 | the completion effect never moves the cursor or touches the attempts |
| ChatHandlers.CompletionOnce | project/src/components/Chat.jsx:343-352 | past the last prompt the congratulations are marked played, and running the effect again changes nothing |
| ChatHandlers.Cheered | project/src/components/Chat.jsx:310-320 | a passed check leaves the cursor alone and schedules exactly one advance |
| ChatHandlers.SpeechAdvancesIffPasses | project/src/components/Chat.jsx:305-323 | recognised speech raises the projected index by one exactly when it passes, and by zero otherwise |
| ChatHandlers.KoreanSpeechAdvances | project/src/components/Chat.jsx:306-320 | on a Korean prompt anything heard moves the lesson on |
| ChatHandlers.SpeakPrompt | project/src/components/Chat.jsx:198-209 | with no prompt the Hear It buttons do nothing |
| ChatHandlers.SpeakAnswer | project/src/components/Chat.jsx:193-196 | the Hear Answer button does nothing while audio is playing |
| ChatHandlers.PlayQuestion | project/src/components/Chat.jsx:188-191 | the repeat button does nothing while audio is playing |
| ProjectChat.Record | project/src/components/Chat.jsx:235-254 | a submission appends exactly the raw input to the attempts, shows the answer and asks the tutor with the answer as context |
| ProjectChat.Praised | project/src/components/Chat.jsx:244-265 | the correct branch clears the input, keeps the attempts and schedules exactly one advance, last |
| ProjectChat.Checked | project/src/components/Chat.jsx:268-278 | the wrong branch clears the input and schedules no advance |
| ProjectChat.BlankSubmitIgnored | project/src/components/Chat.jsx:233 | a submission that is blank after trim changes nothing |
| ProjectChat.SubmitRecordsAttempt | project/src/components/Chat.jsx:233-254 | any other submission appends exactly its raw input, shows the answer, clears the input and sends one `/chat` request |
| ProjectChat.SubmitAdvancesIffCorrect | project/src/components/Chat.jsx:244-278 | a submission never moves the cursor at once; it schedules one advance exactly when the verdict is correct |
| ProjectChat.CorrectAnswerAdvances | project/src/components/Chat.jsx:250-264 | when a correct answer's timer fires, the index is one more, the feedback and shown answer are cleared and the attempts are kept, whatever the tutor and the audio did |
| ProjectChat.SubmitFeedback | project/src/components/Chat.jsx:245-276 | unless the reply's audio fails, a correct answer shows `✅` and the picked praise; a wrong one shows that it is being checked, or that the tutor was unreachable |
| ProjectChat.KoreanSubmitCorrectIff | project/src/components/Chat.jsx:238-244 | on a Korean prompt a submission is correct exactly when it has no kept character outside `\s` |
| ProjectChat.PromptIntro | project/src/components/Chat.jsx:157-176 | the intro effect never moves the cursor or schedules an advance |
| ProjectChat.Introduced | project/src/components/Chat.jsx:158-174 | the body of the intro effect never moves the cursor or schedules an advance |
| ProjectChat.PromptIntroOnce | project/src/components/Chat.jsx:158-164 | once the intro screen is gone the index is marked, and a second run of the effect changes nothing |
| ProjectChat.QuestionAfterIntroDropped | project/src/components/Chat.jsx:167-173 | when the intro line starts playing, the question after it is dropped: only the intro line is requested |
| ProjectChat.StartRecognition | project/src/components/Chat.jsx:290-340 | without speech recognition the not-supported message is shown and listening is unchanged; with it and a normal `start()` the page listens and shows `Listening...`; when `start()` throws, the page does not listen and shows `Could not start speech recognition.` |
| ProjectChat.RecognitionError | project/src/components/Chat.jsx:326-329 | an error ends listening and shows `❌ Error: ` followed by the error |
| ProjectChat.DoubleSubmitSkipsPrompt | project/src/components/Chat.jsx:244-264 | two correct submissions before the first timer fires schedule two advances, so a prompt is skipped |
| ProjectChat.Page.constructor | project/src/components/Chat.jsx:22-37 | the page starts in the opening state of its route |
| ProjectChat.Page.Type | project/src/components/Chat.jsx:573 | typing replaces the input and nothing else |
| ProjectChat.Page.BeginLesson | project/src/components/Chat.jsx:392 | Start Lesson hides the intro screen and nothing else |
| ProjectChat.Page.StopCurrentAudio | project/src/components/Chat.jsx:178-186 | the page after the call is the stopped session |
| ProjectChat.Page.PlayAudioAndWait | project/src/components/Chat.jsx:92-147 | the page after the call is the session after the spoken line |
| ProjectChat.Page.Settle | project/src/components/Chat.jsx:110-146 | the refs take the call's result; the request, the demo flag, the message and the follow-up timer are recorded |
| ProjectChat.Page.HandleSubmit | project/src/components/Chat.jsx:231-279 | the page after `handleSubmit` is the submitted session |
| ProjectChat.Page.PraiseAnswer | project/src/components/Chat.jsx:244-265 | the page after the correct branch is the praised session |
| ProjectChat.Page.CheckAnswer | project/src/components/Chat.jsx:268-278 | the page after the wrong branch is the checked session |
| ProjectChat.Page.PromptIntroEffect | project/src/components/Chat.jsx:157-176 | the page after the intro effect is the introduced session |
| ProjectChat.Page.IntroducePrompt | project/src/components/Chat.jsx:158-174 | the page after the effect's body is the introduced session |
| ProjectChat.Page.ResetPrompt | project/src/components/Chat.jsx:159-164 | the page after the reset is the reset view |
| ProjectChat.Page.CompletionEffect | project/src/components/Chat.jsx:343-352 | the page after the completion effect is the completed session |
| ProjectChat.Page.WelcomeEffect | project/src/components/Chat.jsx:150-154 | the page after the course intro effect is the welcomed session |
| ProjectChat.Page.CheckPronunciation | project/src/components/Chat.jsx:290-341 | the page after starting recognition is the listening session |
| ProjectChat.Page.OnRecognitionResult | project/src/components/Chat.jsx:305-324 | the page after a transcript is the judged session |
| ProjectChat.Page.CheerAndAdvance | project/src/components/Chat.jsx:310-320 | the page after a passed check is the cheered session |
| ProjectChat.Page.OnRecognitionError | project/src/components/Chat.jsx:326-329 | the page after an error shows it and stops listening |
| ProjectChat.Page.OnRecognitionEnd | project/src/components/Chat.jsx:331-333 | the page after recognition ends stops listening |
| ProjectChat.Page.SpeakPronunciation | project/src/components/Chat.jsx:198-209 | the page after Hear It or Slower is the session speaking the spoken text |
| ProjectChat.Page.SpeakAnswerButton | project/src/components/Chat.jsx:193-196 | the page after Hear Answer is the session speaking the answer |
| ProjectChat.Page.PlayQuestionAudio | project/src/components/Chat.jsx:188-191 | the page after the repeat button is the session speaking the question |
| ProjectChat.Page.AudioEnded | project/src/components/Chat.jsx:111-117 | the clip's end releases the clip and the lock |
| ProjectChat.Page.AudioError | project/src/components/Chat.jsx:118-124 | the clip's error releases the clip and the lock |
| ProjectChat.Page.TimerFires | project/src/components/Chat.jsx:260-264 | the page after timer `k` fires is the fired session |
| MyAppChat.Record | my-app/src/pages/Chat.jsx:246-261 | every submission appends exactly the raw input, shows the answer and asks the tutor, leaving the audio alone |
| MyAppChat.Exchange | my-app/src/pages/Chat.jsx:263-265 | saying a line, showing feedback and saying the reply never moves the cursor or touches the attempts |
| MyAppChat.ExchangeKeepsProjection | my-app/src/pages/Chat.jsx:263-265 | that exchange schedules no advance |
| MyAppChat.Taught | my-app/src/pages/Chat.jsx:262-275 | the lines between the praise and the confirmation keep the cursor, the attempts and the input |
| MyAppChat.Praised | my-app/src/pages/Chat.jsx:253-283 | the correct branch clears the input, keeps the attempts and ends by scheduling the advance |
| MyAppChat.PraisedAdvances | my-app/src/pages/Chat.jsx:262-281 | with or without the tutor's reply, the correct branch schedules exactly one advance |
| MyAppChat.Checked | my-app/src/pages/Chat.jsx:285-298 | the wrong branch clears the input and keeps the cursor and the attempts |
| MyAppChat.CheckedKeepsProjection | my-app/src/pages/Chat.jsx:285-298 | the wrong branch schedules no advance |
| MyAppChat.Respond | my-app/src/pages/Chat.jsx:253-298 | after the verdict the input is cleared and the cursor and attempts are kept |
| MyAppChat.RespondAdvances | my-app/src/pages/Chat.jsx:253-298 | after the verdict the projected index rises by one exactly for a correct one |
| MyAppChat.SubmitRecordsAttempt | my-app/src/pages/Chat.jsx:244-247 | with no blank guard, every submission, the empty one included, appends exactly its raw input and sends one `/chat` request |
| MyAppChat.SubmitAdvancesIffCorrect | my-app/src/pages/Chat.jsx:253-298 | the cursor never moves at once; one advance is scheduled exactly when the verdict is correct |
| MyAppChat.KoreanEmptySubmitAdvances | my-app/src/pages/Chat.jsx:249-253 | on a Korean prompt the empty submission is correct and moves the lesson on |
| MyAppChat.ReplyNeverSpoken | my-app/src/pages/Chat.jsx:262-266 | from an idle player, once the question starts playing the reply and the confirmation are dropped: only the question is requested |
| MyAppChat.PlayingExchange | my-app/src/pages/Chat.jsx:112 | a line that starts playing, since `play()` is not awaited, makes the next line of the exchange drop |
| MyAppChat.PromptIntro | my-app/src/pages/Chat.jsx:147-159 | the intro effect never moves the cursor or schedules an advance |
| MyAppChat.PromptIntroOnce | my-app/src/pages/Chat.jsx:148-156 | the index is marked before playback, and a second run of the effect changes nothing |
| MyAppChat.IntroLostBehindWelcome | my-app/src/pages/Chat.jsx:147-156 | while the welcome's request is in flight (lock held, no clip), the intro effect marks the prompt introduced and its line is dropped; a later run does not bring it back |
| MyAppChat.StartRecognition | my-app/src/pages/Chat.jsx:313-325 | without speech recognition the page only reports it; with it the page listens |
| MyAppChat.RecognitionError | my-app/src/pages/Chat.jsx:348-350 | an error shows its message |
| MyAppChat.ListeningSurvivesError | my-app/src/pages/Chat.jsx:348-354 | after an error the page still listens; only `onend` ends listening |
| MyAppChat.RecorderData | my-app/src/pages/Chat.jsx:202-204 | a data event appends exactly its chunk |
| MyAppChat.FeedAppends | my-app/src/pages/Chat.jsx:202-204 | a run of data events appends exactly those chunks, in order |
| MyAppChat.RecordingRoundTrip | my-app/src/pages/Chat.jsx:197-221 | a granted start, any data and a stop leave exactly this recording's chunks, not recording, and the recorded message |
| MyAppChat.StopIgnoredUnlessRecording | my-app/src/pages/Chat.jsx:216-221 | a stop with no recorder or no recording changes nothing; a refused start only reports the error |
| MyAppChat.Microphone.constructor | my-app/src/pages/Chat.jsx:18-19 | no recorder, not recording, no chunks |
| MyAppChat.Page.constructor | my-app/src/pages/Chat.jsx:10-29 | the page starts in the opening state of its route |
| MyAppChat.Page.Type | my-app/src/pages/Chat.jsx:478 | typing replaces the input and nothing else |
| MyAppChat.Page.BeginLesson | my-app/src/pages/Chat.jsx:377 | Start Lesson hides the intro screen and nothing else |
| MyAppChat.Page.StopCurrentAudio | my-app/src/pages/Chat.jsx:161-169 | the page after the call is the stopped session |
| MyAppChat.Page.PlayAudioAndWait | my-app/src/pages/Chat.jsx:86-134 | the page after the call is the session after the spoken line |
| MyAppChat.Page.Settle | my-app/src/pages/Chat.jsx:104-133 | the refs take the call's result; the request, the demo flag, the message and the follow-up timer are recorded |
| MyAppChat.Page.HandleSubmit | my-app/src/pages/Chat.jsx:244-299 | the page after `handleSubmit` is the submitted session |
| MyAppChat.Page.Answer | my-app/src/pages/Chat.jsx:253-298 | the page after the verdict's branch is the responded session |
| MyAppChat.Page.RecordAttempt | my-app/src/pages/Chat.jsx:246-247 | the page after the steps before the verdict is the recorded session |
| MyAppChat.Page.PraiseAnswer | my-app/src/pages/Chat.jsx:253-283 | the page after the correct branch is the praised session |
| MyAppChat.Page.Teach | my-app/src/pages/Chat.jsx:262-275 | the page after the taught lines is the taught session |
| MyAppChat.Page.Converse | my-app/src/pages/Chat.jsx:263-265 | the page after the exchange is the exchanged session |
| MyAppChat.Page.CheckAnswer | my-app/src/pages/Chat.jsx:285-298 | the page after the wrong branch is the checked session |
| MyAppChat.Page.PromptIntroEffect | my-app/src/pages/Chat.jsx:147-159 | the page after the intro effect is the introduced session |
| MyAppChat.Page.ResetPrompt | my-app/src/pages/Chat.jsx:149-154 | the page after the reset is the reset view |
| MyAppChat.Page.CompletionEffect | my-app/src/pages/Chat.jsx:359-369 | the page after the completion effect is the completed session |
| MyAppChat.Page.WelcomeEffect | my-app/src/pages/Chat.jsx:137-143 | the page after the course intro effect is the welcomed session |
| MyAppChat.Page.CheckPronunciation | my-app/src/pages/Chat.jsx:311-357 | the page after starting recognition is the listening session |
| MyAppChat.Page.OnRecognitionResult | my-app/src/pages/Chat.jsx:327-346 | the page after a transcript is the judged session |
| MyAppChat.Page.CheerAndAdvance | my-app/src/pages/Chat.jsx:332-342 | the page after a passed check is the cheered session |
| MyAppChat.Page.OnRecognitionError | my-app/src/pages/Chat.jsx:348-350 | the page after an error shows it and keeps listening |
| MyAppChat.Page.OnRecognitionEnd | my-app/src/pages/Chat.jsx:352-354 | the page after recognition ends stops listening |
| MyAppChat.Page.SpeakPronunciation | my-app/src/pages/Chat.jsx:183-195 | the page after Hear It or Slower is the session speaking the spoken text |
| MyAppChat.Page.SpeakAnswerButton | my-app/src/pages/Chat.jsx:178-181 | the page after Hear Answer is the session speaking the answer |
| MyAppChat.Page.PlayQuestionAudio | my-app/src/pages/Chat.jsx:172-175 | the page after the repeat button is the session speaking the question |
| MyAppChat.Page.AudioEnded | my-app/src/pages/Chat.jsx:105-111 | the clip's end releases the clip and the lock |
| MyAppChat.Page.TimerFires | my-app/src/pages/Chat.jsx:267-271 | the page after timer `k` fires is the fired session |
| MyAppChat.Page.StartRecording | my-app/src/pages/Chat.jsx:197-214 | the recorder and page after a start are the started ones: a fresh recording, or only the microphone error |
| MyAppChat.Page.OnDataAvailable | my-app/src/pages/Chat.jsx:202-204 | the recorder after a data event holds one more chunk |
| MyAppChat.Page.StopRecording | my-app/src/pages/Chat.jsx:216-222 | the recorder and page after a stop are the stopped ones |
| Api.ServerDetail | project/src/services/api.js:52 | `details`, else `error`, else `'Unknown server error'`, skipping falsy values; never empty |
| Api.FirstApplying | project/src/services/api.js:37-68 | the position of the first rule whose condition holds, with no earlier rule applying |
| Api.ClassifyFollowsRules | project/src/services/api.js:37-68 | the interceptor's chain decides exactly as the first applying rule of the ordered table, and rethrows when none applies |
| Api.RethrownIff | project/src/services/api.js:37-68 | an error is rethrown unchanged exactly when it has none of the three codes and none of the four statuses |
| Api.OutcomeNotRethrown | project/src/services/api.js:37-66 | every rule that applies throws its own error rather than rethrowing |
| Api.CodeBeforeStatus | project/src/services/api.js:37-45 | a network code wins over a 500 status |
| Api.ServerFaultBodies | project/src/services/api.js:45-53 | a 500 with a body lacking both fields reports an unknown server error; one with no body throws a `TypeError` |
| Api.GetHealth | project/src/services/api.js:99-112 | an answered request gives its body (`null` included); a failed one gives the demo body: status `'demo'`, both services down, no uptime |
| Api.CheckHealth | project/src/services/api.js:268-289 | healthy exactly for `'healthy'`; degraded exactly for `'degraded'` or `'demo'`; services default to `{}`; a present uptime is passed through and an absent one reads 0; a `null` body gives the `catch` report |
| Api.HealthMessageAgrees | project/src/services/api.js:272-286 | the flags are never both set, and each of the five messages agrees with them; the limited-demo message comes exactly from a `null` body |
| Api.UnreachableHealth | project/src/services/api.js:99-112 | an unreachable backend is reported degraded, with `'Demo mode active'` and both services down; a `null` body gets the `catch` report |
| Api.GetStatus | project/src/services/api.js:85-96 | an answered request gives its body (`null` included); a failed one gives the demo body stamped with the time |
| Api.CheckBackendStatus | project/src/services/api.js:251-265 | connected exactly when the status is not `'demo'`, with the body as details; a `null` body gives the not-connected `catch` report |
| Api.StatusMessageAgrees | project/src/services/api.js:255-262 | one of the two demo messages exactly when not connected, the `catch` one exactly for a `null` body; an unreachable backend and a `null` body are not connected |
| Api.ChatContext | project/src/services/api.js:119 | a non-empty context is prefixed with `The correct answer is: `; an empty one is sent as `''` |
| Api.ChatContextRoundTrip | project/src/services/api.js:119 | distinct contexts give distinct fields, and the answer reads back from the field |
| Api.RetryRequest | project/src/services/api.js:292-301 | at most `maxRetries` calls; the first resolved value is returned with no later call; the last allowed error is rethrown; wait `i` is `delay * (i + 1)` and none follows the last failure; `maxRetries <= 0` makes no call and returns `undefined` |
| Api.FirstResolved | project/src/services/api.js:292-297 | the first resolved call among the first `n`, or `n` when none resolves |
| Api.RetryAgreesWithFirst | project/src/services/api.js:292-301 | the loop returns the first resolved value exactly when one exists among the allowed calls, and otherwise rethrows the last allowed error |
| Lessons.BlankSubmitIgnored | project/src/components/Lessons.jsx:58 | a blank submission changes nothing |
| Lessons.SubmitAppendsOne | project/src/components/Lessons.jsx:60-74 | a submission appends one attempt with the raw text and its verdict, keeps the earlier ones, shows the answer, praises exactly the correct ones and clears the input |
| Lessons.SubmitTwice | project/src/components/Lessons.jsx:58-74 | submitting again at once does nothing |
| Lessons.ExtraWordsAllowed | project/src/components/Lessons.jsx:62 | words around the phrase do not matter |
| Lessons.CaseIgnored | project/src/components/Lessons.jsx:62 | the verdict ignores case |
| Lessons.NoJIsWrong | project/src/components/Lessons.jsx:62 | an answer with no `j` or `J` is wrong |
| Lessons.StoredAnswerPasses | project/src/components/Lessons.jsx:38 | the stored answer passes the check |
| Lessons.DoubledSpaceFails | project/src/components/Lessons.jsx:62 | the phrase with a doubled space fails |
| Lessons.StartCheck | project/src/components/Lessons.jsx:77-79 | a pronunciation check listens and schedules one result |
| Lessons.CheckTimeout | project/src/components/Lessons.jsx:82-85 | the result stops listening and uses up its timeout |
| Lessons.CheckAlwaysPraises | project/src/components/Lessons.jsx:77-86 | a check always ends in praise and leaves the typed-answer state alone |
| Lessons.ShippedStepBounds | project/src/components/Lessons.jsx:24-25 | on the shipped lesson both step buttons pass their test and the step stays 3 |
| Lessons.LessonPage.constructor | project/src/components/Lessons.jsx:49-54 | the page starts empty on the shipped lesson |
| Lessons.LessonPage.Type | project/src/components/Lessons.jsx:250 | typing replaces the input and nothing else |
| Lessons.LessonPage.HandleSubmit | project/src/components/Lessons.jsx:56-75 | the page after `handleSubmit` is the submitted state |
| Lessons.LessonPage.HandlePronunciationCheck | project/src/components/Lessons.jsx:77-86 | the page after the button is the listening state |
| Lessons.LessonPage.CheckTimeoutFires | project/src/components/Lessons.jsx:82-85 | the page after the timeout is the praised state |
| Lessons.LessonPage.NextStep | project/src/components/Lessons.jsx:99-104 | the button only tests `currentStep < totalSteps` and changes nothing |
| Lessons.LessonPage.PreviousStep | project/src/components/Lessons.jsx:106-111 | the button only tests `currentStep > 1` and changes nothing |
| Characters.Filtered | project/src/components/Characters.jsx:137-146 | the result is an order-preserving subsequence holding exactly the characters every test keeps |
| Characters.EmptySearchMatches | project/src/components/Characters.jsx:138-140 | the empty search term matches every character |
| Characters.ClearedKeepsAll | project/src/components/Characters.jsx:364-369 | with the filters cleared the whole list is shown, in order |
| Characters.LanguageNarrows | project/src/components/Characters.jsx:141 | choosing a language keeps exactly the earlier result's characters of that language |
| Characters.FirstIndex | project/src/components/Characters.jsx:133 | the position of a value's first occurrence |
| Characters.DistinctSpec | project/src/components/Characters.jsx:133-135 | `[...new Set(values)]` has no repeats, holds exactly the values and lists them in order of first appearance |
| Characters.DistinctSnoc | project/src/components/Characters.jsx:133-135 | one more value is appended exactly when it is new |
| Characters.ShippedLevels | project/src/components/Characters.jsx:134 | the level drop-down offers `All`, Beginner, Intermediate and Advanced |
| Characters.OptionsSelectSomeone | project/src/components/Characters.jsx:133 | each offered language keeps at least one tutor |
| Explore.InCategory | project/src/components/Explore.jsx:133 | an order-preserving subsequence holding exactly the facts of that category |
| Explore.FilteredFacts | project/src/components/Explore.jsx:131-133 | `All` gives every fact; otherwise exactly the facts of the category, in order |
| Explore.EveryCategoryShowsOne | project/src/components/Explore.jsx:129-133 | each category button shows exactly the one shipped fact of that category, so none is empty |
| Explore.FactCategories | project/src/components/Explore.jsx:17-60 | the n-th fact carries the n-th button's category |
| Explore.CategoriesDistinct | project/src/components/Explore.jsx:129 | no two category buttons share a label |
| Explore.ExplorePage.constructor | project/src/components/Explore.jsx:126-127 | the page starts on `All` and the first word |
| Explore.ExplorePage.SelectCategory | project/src/components/Explore.jsx:221 | a button selects its category and keeps the word |
| Explore.ExplorePage.Facts | project/src/components/Explore.jsx:131-133 | the facts on show are the filtered facts of the selection |
| Explore.ExplorePage.NextWord | project/src/components/Explore.jsx:135-137 | the next word, wrapping from the last to the first |
| Explore.ExplorePage.PrevWord | project/src/components/Explore.jsx:139-141 | the previous word, wrapping from the first to the last |
| Explore.ExplorePage.CurrentWord | project/src/components/Explore.jsx:173-186 | the word on show is the daily word at the index |
| Explore.WordCarousel | project/src/components/Explore.jsx:135-141 | the word carousel wraps both ways, each button undoes the other and six presses of Next come back to the start |
| Carousel.Next | project/src/components/Explore.jsx:136 | `(prev + 1) % length` stays in range |
| Carousel.Prev | project/src/components/Explore.jsx:140 | `(prev - 1 + length) % length` stays in range |
| Carousel.Wraps | project/src/components/Feedback.jsx:104-110 | forward from the last gives the first and back from the first gives the last; inside the range each step moves by one |
| Carousel.PrevUndoesNext | project/src/components/Feedback.jsx:104-110 | each step undoes the other |
| Carousel.ForwardAdds | project/src/components/Feedback.jsx:104-106 | forward steps add up |
| Carousel.FullRound | project/src/components/Feedback.jsx:104-106 | as many forward steps as items come back to the start |
| Feedback.RenderStars | project/src/components/Feedback.jsx:120-127 | exactly five stars, star `i` filled exactly when `i < rating` |
| Feedback.FilledStars | project/src/components/Feedback.jsx:120-127 | the number of filled stars is the rating cut to 0..5 |
| Feedback.FeedbackPage.constructor | project/src/components/Feedback.jsx:94-102 | the first testimonial, a blank review and the form closed |
| Feedback.FeedbackPage.NextTestimonial | project/src/components/Feedback.jsx:104-106 | the next testimonial, wrapping, and nothing else changes |
| Feedback.FeedbackPage.PrevTestimonial | project/src/components/Feedback.jsx:108-110 | the previous testimonial, wrapping, and nothing else changes |
| Feedback.FeedbackPage.SelectDot | project/src/components/Feedback.jsx:259-267 | dot `k` shows testimonial `k` |
| Feedback.FeedbackPage.OpenForm | project/src/components/Feedback.jsx:277 | the form opens and the review is kept |
| Feedback.FeedbackPage.CloseForm | project/src/components/Feedback.jsx:334 | the form closes and what was typed is kept |
| Feedback.FeedbackPage.PickStar | project/src/components/Feedback.jsx:360-365 | star `s` sets the rating to `s` and keeps every other field |
| Feedback.FeedbackPage.SetName | project/src/components/Feedback.jsx:349 | the name field changes and nothing else |
| Feedback.FeedbackPage.SetLanguage | project/src/components/Feedback.jsx:382 | the language field changes and nothing else |
| Feedback.FeedbackPage.SetTutor | project/src/components/Feedback.jsx:403 | the tutor field changes and nothing else |
| Feedback.FeedbackPage.SetText | project/src/components/Feedback.jsx:417 | the feedback text changes and nothing else |
| Feedback.FeedbackPage.SubmitReview | project/src/components/Feedback.jsx:112-118 | the form closes, the review resets to rating 5 with empty fields, and the review as it was is handed back |
| Feedback.PickKeepsText | project/src/components/Feedback.jsx:364 | picking a star changes the rating only |
| Feedback.TestimonialCarousel | project/src/components/Feedback.jsx:104-110 | the testimonial carousel wraps both ways, each button undoes the other and a full round of Next comes back to the start |
| Feedback.ShippedRatings | project/src/components/Feedback.jsx:14-81 | every shipped testimonial renders four or five filled stars |

## Left out

- Network and browser calls are not modelled. This covers axios, the `/speak`
  and `/chat` requests, `Audio`, `Blob`, `URL.createObjectURL`,
  SpeechRecognition, MediaRecorder and `getUserMedia`. Each is a parameter
  saying how it came out.
- Timer delays and their order are not modelled (2000, 1500, 1000, 500 and
  5000 ms). Pending callbacks fire in whatever order the caller picks.
- Each `playAudioAndWait` is one atomic step. So a call whose fetch is still
  pending while another effect runs is not a reachable state of the page
  classes. The welcome and the prompt intro at page load are such a case.
  `MyAppChat.IntroLostBehindWelcome` states what the intro effect does from
  that state, given as a precondition.
- ProjectChat.Page.HandleSubmit, MyAppChat.Page.HandleSubmit: `isLoading`
  is not modelled, so the Send button's guard is missing. Submit is
  accepted in states where the page disables Send. `isLoading` is set when a
  call to `playAudioAndWait` gets past the lock. It stays true after a
  retry, after `stopCurrentAudio` and, in my-app, after a playback error or a
  rejected `play()`. In those states the learner cannot submit at all,
  including the stuck-lock states of `Audio.StuckLockForever` and
  `Audio.MyAppErrorsNeverRelease`.
- ChatHandlers.SpeakPrompt, ChatHandlers.SpeakAnswer, ChatHandlers.PlayQuestion:
  these buttons are also disabled by `isLoading`. The model only tests the
  lock, which `isAudioPlaying` mirrors.
- `onresult` closes over the `currentPrompt` of the render that started
  recognition. The model judges against the current prompt.
- `toLowerCase` is modelled only for ASCII, Latin-1 and the few characters
  that fold into Latin-1 (`Ÿ`, `ẞ`, the Kelvin sign and the Ångström sign).
  Other scripts, surrogate pairs and `İ` (U+0130), whose lower case has two
  characters, are not.
- ChatSession.Projected: the page classes carry no invariant
  `index <= |deck|`, because the source does not keep one. Two correct
  answers before the first timer fires push the index one past the deck (see
  `ProjectChat.DoubleSubmitSkipsPrompt`).
- The recorded `Blob` of my-app's recorder is never used by the source, so
  the model keeps only the chunks.
- Lessons' `handlePlayAudio` is not modelled. `apiService.speak` and
  `audioUtils.playAudio` never reject, so it has no branch to decide.
- The rest of `api.js` is not modelled: `healthCheck`, `speak`, `getVoices`,
  `testConnection`, `audioUtils`, `monitorConnection` and `integrationUtils`.
  They are HTTP wrappers, console logging and browser feature tests with no
  decision beyond returning a demo value.
- Api.CheckHealth: of the JSON values other than an object, only `null` is
  modelled. A body that is a number or a string, a non-string `status` and a
  non-object `services` are outside the model. An `uptime` of 0 is treated as
  absent, as `||` does.
- Api.RetryRequest: requires at least `maxRetries` attempt outcomes. The
  outcomes stand for what `requestFn` would do. The sleeps are returned as
  their delays rather than awaited.
- The simulated Lessons pronunciation check always praises. The model keeps
  the count of pending timeouts but not their timing.
- The Lessons pronunciation messages are kept exactly as the file stores
  them: UTF-8 emoji read back as Windows-1252.
- Feedback's rating-breakdown widths and Home's percentages are
  floating-point display arithmetic, and are not modelled.
- `console.log` calls and all rendering and styling are not modelled.
- `backend/index.js`, the test scripts, Home, Progress, Navbar,
  ConnectionStatus and both routers are not part of this model.
