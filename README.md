# Realtime assistant screen — a Dafny model of its core logic

The application is a desktop assistant built with Next.js and Electron.
The user talks to a realtime voice agent. The agent's words land in a
transcript. A panel shows that transcript as question-and-answer pairs.
A screenshot button sends the screen to a vision endpoint. A typed-question
box asks a text endpoint and reveals the answer word by word. A microphone
picker lists the audio inputs.

This project models the sequential logic behind those features. It covers
three source files.

- **Transcript panel** (`src/app/components/SimpleTranscript.tsx`):
  - the forward scan that turns transcript items into numbered Q&A pairs
    (`DeriveQAPairs`), proved equal to a block-based reference reading
    (`QAPairs`), with that reading's properties proved as lemmas;
  - `splitAnswer`, which pulls the first fenced code block out of an answer;
  - the screenshot flow over a transcript object (`Panel.HandleScreenshot`);
  - the rule that enables the Save button of the instructions editor.
- **Main screen** (`src/app/SimpleApp.tsx`):
  - the session machine of DISCONNECTED, CONNECTING and CONNECTED plus the
    listening flag, as pure transition functions (module `Session`) and as
    the handlers of a class `App` that update its fields;
  - the agent reorder, done in place on an array, and the prompt override
    (module `AgentSetup`);
  - the answer-extraction cascade, the whitespace-keeping split and the
    word-by-word reveal (module `Responses`, and `App.HandleQASubmit`).
- **Microphone registry** (`src/app/hooks/useAudioDevices.ts`): the
  audio-input projection with its fallback label, the default selection,
  and the stream-target guard, in module `AudioDevices` with class
  `Registry`.

Supporting modules:
- `Wrappers` holds Option and Result.
- `Text` holds JavaScript's `\s` class, `trim`, `join` and decimal
  rendering.
- `Json` holds parsed bodies, optional property access and truthiness.
- `Transcript` holds the transcript interface both components call.
- `AgentConfigs` holds the one-agent scenario "generalAI". The scenario
  maps are plain object literals, so an inherited property name such as
  "toString" also looks up as truthy; the model keeps that.

Inputs become parameters:
- Network replies and thrown errors are datatypes such as
  `CredentialReply`, `SdkOutcome`, `ResponsesReply`, `Capture`,
  `VisionReply` and `EnumerationOutcome`.
- `uuidv4` ids are parameters that must be fresh.
- Timestamps are a parameter `now`.
- The SDK is a log of the calls made on it (`SdkCall`).

A trailing question that has no answer yet produces no pair: the code
pushes a pair only when both its question and its answer are non-empty
(SimpleTranscript.tsx:333 and :353), and `TrailingQuestionYieldsNoPair`
proves it.

## Model

| member | source | states |
|---|---|---|
| SimpleTranscript.DeriveQAPairs | src/app/components/SimpleTranscript.tsx:322-363 | The forward scan (current question, answer and timestamp, push on the next user message and once at the end) returns exactly `QAPairs(items)`, the block-based reference reading |
| SimpleTranscript.QAPairs | src/app/components/SimpleTranscript.tsx:333-360 | Every derived pair has a non-empty question and a non-empty answer, and the k-th pair has id `qa-k` |
| SimpleTranscript.Kept | src/app/components/SimpleTranscript.tsx:333-340 | Only blocks with both a question and an answer are kept, and never more than there are blocks |
| SimpleTranscript.KeptExactly | src/app/components/SimpleTranscript.tsx:333-340 | A block is kept exactly when it has both a question and an answer |
| SimpleTranscript.KeptAppend | src/app/components/SimpleTranscript.tsx:333-360 | Keeping distributes over concatenation, so the kept blocks stay in transcript order |
| SimpleTranscript.KeptOfOne | src/app/components/SimpleTranscript.tsx:333-340 | A single block is kept when complete and dropped otherwise; with `KeptAppend`, keeping is the order-preserving filter of complete blocks |
| SimpleTranscript.AfterReplies | src/app/components/SimpleTranscript.tsx:329-349 | What follows the replies of a question is never longer than the items and is empty or starts with the next user message |
| SimpleTranscript.AfterRepliesIsSuffix | src/app/components/SimpleTranscript.tsx:329-349 | That rest is a suffix of the items, and every item skipped before it is not a user message |
| SimpleTranscript.TrailingQuestionYieldsNoPair | src/app/components/SimpleTranscript.tsx:352-360 | A user message with no reply after it adds no pair: appending one leaves the pairs unchanged |
| SimpleTranscript.QAPairsAtMostQuestions | src/app/components/SimpleTranscript.tsx:329-360 | There are never more pairs than user-role MESSAGE items |
| SimpleTranscript.QAPairsIgnoreBreadcrumbs | src/app/components/SimpleTranscript.tsx:330 | The pairs depend only on the MESSAGE items: a breadcrumb inserted anywhere changes nothing |
| SimpleTranscript.SingleExchange | src/app/components/SimpleTranscript.tsx:342-348 | A question followed by replies with non-empty titles yields one pair, `qa-0`, whose answer is the titles in order joined by single spaces |
| SimpleTranscript.AccumulateJoins | src/app/components/SimpleTranscript.tsx:347 | Appending non-empty titles with a space only after a non-empty answer equals joining them with single spaces |
| SimpleTranscript.QAPairsAppend | src/app/components/SimpleTranscript.tsx:329-360 | A transcript cut just before a user message yields the pairs of the first part, then the pairs of the second renumbered from there |
| SimpleTranscript.QAPairIdsDistinct | src/app/components/SimpleTranscript.tsx:335 | No two derived pairs share an id |
| SimpleTranscript.LatestQA | src/app/components/SimpleTranscript.tsx:365 | The latest pair exists exactly when there are pairs, and it is the last one |
| SimpleTranscript.HistoryQAs | src/app/components/SimpleTranscript.tsx:366 | The history is every pair but the last, newest first |
| SimpleTranscript.FirstCodeBlock | src/app/components/SimpleTranscript.tsx:162 | The pattern matches exactly when two fences lie three or more characters apart. The match starts at the first fence; the capture starts after the greedy letter tag and one optional newline (`ContentStart`), and ends at the next fence, so it holds no fence |
| SimpleTranscript.SplitAnswer | src/app/components/SimpleTranscript.tsx:161-170 | The result is ("", answer) exactly when there is no fence pair; otherwise it is the trimmed capture and the trimmed text before and after the whole block, both trimmed and together shorter than the answer by at least the six fence characters |
| SimpleTranscript.SplitAnswerOfBlock | src/app/components/SimpleTranscript.tsx:161-169 | For text, a fence with a language tag and a newline, code, a fence and more text, the code is the trimmed code and the explanation is the trimmed text around the block |
| SimpleTranscript.SplitAnswerAt | src/app/components/SimpleTranscript.tsx:162-167 | For any answer whose first fence is at p and whose next fence from the capture start on is at q, the split is the trimmed text between and the trimmed text outside the block; no newline is needed and backticks that form no fence are allowed |
| SimpleTranscript.SaveIgnoresSurroundingWhitespace | src/app/components/SimpleTranscript.tsx:900 | White space around the draft or the current prompt never changes whether Save is enabled, and a blank draft cannot replace empty instructions |
| SimpleTranscript.SendToVisionAPI | src/app/components/SimpleTranscript.tsx:396-405 | It succeeds exactly on an OK response, with the answer or "No answer from Vision API." when the answer is missing or empty |
| SimpleTranscript.ScreenshotResult | src/app/components/SimpleTranscript.tsx:417-435 | The request fails exactly when the capture fails or the upload does not succeed, and a capture failure reports its own message; after a capture, the result is the upload's result |
| SimpleTranscript.AnswerEntryText | src/app/components/SimpleTranscript.tsx:437-439 | The answer entry ends with the answer on success, and with "Vision API failed: " plus the message on failure |
| SimpleTranscript.ScreenshotAlwaysSettles | src/app/components/SimpleTranscript.tsx:402-404 | Every outcome leaves a non-empty entry text; failures start with "Vision API failed: ", a missing answer gives the fallback text and a non-OK response gives "Vision API error" |
| SimpleTranscript.AddPlaceholders | src/app/components/SimpleTranscript.tsx:414-415 | The user's "Analyzing your screen" and the assistant's "Analyzing image…" are appended, in that order, and only the last entry has the answer id |
| SimpleTranscript.ReplaceLast | src/app/components/SimpleTranscript.tsx:437 | Updating by the answer id changes the title of the last entry and nothing else |
| SimpleTranscript.Panel.HandleScreenshot | src/app/components/SimpleTranscript.tsx:408-444 | The placeholders are written first. The transcript ends with them, the assistant entry carrying the answer or the failure text. An alert is raised exactly on failure, and the loading flag ends false |
| SimpleTranscript.Panel.SyncQAPairs | src/app/components/SimpleTranscript.tsx:322-363 | The panel's pairs become the pairs derived from the current transcript |
| Transcript.Log.AddMessage | src/app/components/SimpleTranscript.tsx:414-415 | A message under a fresh id is appended last and ids stay unique |
| Transcript.Log.AddBreadcrumb | src/app/SimpleApp.tsx:129 | A breadcrumb under a fresh id is appended last and ids stay unique; it stands for the provider's interface, whose only caller in the screen, the hand-off effect, is left out |
| Transcript.Log.UpdateMessage | src/app/components/SimpleTranscript.tsx:437-439 | Exactly the items with the given id get the new title; the others and the length are unchanged |
| AgentSetup.FindIndex | src/app/SimpleApp.tsx:188 | The index found is the first position holding an agent with the name, and there is none exactly when no agent has it |
| AgentSetup.FindIndexIn | src/app/SimpleApp.tsx:188 | The scan over the copied array returns that first index, or -1 |
| AgentSetup.MoveToFront | src/app/SimpleApp.tsx:189-192 | `splice` then `unshift` in place: the array becomes the moved agent followed by the others in their order |
| AgentSetup.ReorderAgents | src/app/SimpleApp.tsx:187-192 | Copy, scan and move in place give the reference reorder `Reordered` |
| AgentSetup.ReorderedIsPermutation | src/app/SimpleApp.tsx:187-192 | The reorder is a permutation of the scenario list |
| AgentSetup.ReorderedPutsSelectedFirst | src/app/SimpleApp.tsx:187-192 | When the selected agent is present it ends up first and the others keep their relative order; otherwise the list is unchanged |
| AgentSetup.ApplyCustomPrompt | src/app/SimpleApp.tsx:195-200 | A non-empty prompt replaces only the first agent's instructions and keeps its other fields; an empty prompt or list changes nothing |
| AgentSetup.CustomPromptIdempotent | src/app/SimpleApp.tsx:195-200 | Applying the override twice equals applying it once |
| Session.AgentSetKey | src/app/SimpleApp.tsx:177 | The key is the `agentConfig` parameter when non-empty, and "default" when it is missing or empty |
| Session.FetchEphemeralKey | src/app/SimpleApp.tsx:134-174 | A credential is returned exactly when the response is OK and `client_secret.value` is truthy, and it is that value |
| AgentConfigs.ScenarioKeys | src/app/agentConfigs/index.ts:6-10 | Only "generalAI" is a scenario, but inherited property names such as "toString" and "__proto__" also look up as truthy; "default" and "" do not |
| Session.ConnectSeeing | src/app/SimpleApp.tsx:176-220 | No-op unless the key looks up as truthy (an own or an inherited property) and the status read is DISCONNECTED; otherwise CONNECTING first. Missing credential, an inherited key (the copy throws) or an SDK throw leaves DISCONNECTED with no SDK connect for the first two. One SDK connect with the reordered, overridden agents when a credential exists; after it the statuses set are CONNECTING, then the SDK's reports, then DISCONNECTED if it threw |
| Session.InheritedKeyConnectFails | src/app/SimpleApp.tsx:178-217 | With `agentConfig=toString` the session goes CONNECTING then DISCONNECTED and no SDK connect is made, whatever the credential reply |
| Session.ConnectOnlyFromDisconnected | src/app/SimpleApp.tsx:179-180 | Once a connect is under way, a second connect does nothing |
| Session.DisconnectIdempotent | src/app/SimpleApp.tsx:222-226 | Disconnect yields DISCONNECTED and not listening from any state, so repeating it keeps that status and flag |
| Session.StartListening | src/app/SimpleApp.tsx:271-284 | When connected, it listens and unmutes at once; otherwise it connects and then listens and greets, whatever the connect achieved |
| Session.StartListeningAfterFailedConnect | src/app/SimpleApp.tsx:279-282 | After a failed credential request the session is DISCONNECTED yet listening, with no SDK connect made |
| Session.StopListening | src/app/SimpleApp.tsx:286-293 | Listening stops, the microphone is muted and the response interrupted; the status is unchanged |
| Session.DisconnectIfConnected | src/app/SimpleApp.tsx:307-310 | The session disconnects exactly when it is CONNECTED |
| Session.StatusChanged | src/app/SimpleApp.tsx:71 | A status report replaces the status and nothing else |
| Session.InitialPrompt | src/app/SimpleApp.tsx:48-53 | The screen starts with the stored prompt, or "" when none is stored |
| Session.StaleReconnectNeverConnects | src/app/SimpleApp.tsx:320-324 | As written, the scheduled reconnect sees the old CONNECTED status and does nothing, leaving the session DISCONNECTED |
| Session.ReconnectAppliesNewPrompt | src/app/SimpleApp.tsx:319-324 | Read with the current state, the reconnect calls the SDK's connect again with the new prompt as the first agent's instructions |
| SimpleApp.App.constructor | src/app/SimpleApp.tsx:42-78 | The screen starts disconnected, not listening, with no agent selected, the stored prompt and an empty panel |
| SimpleApp.App.SelectScenario | src/app/SimpleApp.tsx:101-116 | A missing key or one that does not look up as truthy redirects to the default; a scenario key selects its first agent; an inherited property name selects "" without a redirect |
| SimpleApp.App.OnAgentHandoff | src/app/SimpleApp.tsx:72-75 | A hand-off selects the agent handed to |
| SimpleApp.App.OnConnectionChange | src/app/SimpleApp.tsx:71 | The handler updates the fields as `StatusChanged` says |
| SimpleApp.App.ConnectToRealtime | src/app/SimpleApp.tsx:176-220 | The handler updates the fields as `Connect` says, reading the current status and settings; the settings are untouched |
| SimpleApp.App.ConnectSeen | src/app/SimpleApp.tsx:176-220 | The body of `connectToRealtime` run by a closure that saw a given status and settings updates the fields as `ConnectSeeing` says |
| SimpleApp.App.DisconnectFromRealtime | src/app/SimpleApp.tsx:222-226 | The handler updates the fields as `Disconnect` says |
| SimpleApp.App.UpdateSession | src/app/SimpleApp.tsx:228-268 | Continuous listening is configured and the microphone unmuted; when asked, "hi" is sent followed by a response request |
| SimpleApp.App.HandleStartListening | src/app/SimpleApp.tsx:271-284 | The handler updates the fields as `StartListening` says |
| SimpleApp.App.HandleStopListening | src/app/SimpleApp.tsx:286-293 | The handler updates the fields as `StopListening` says |
| SimpleApp.App.HandleMicrophoneChange | src/app/SimpleApp.tsx:304-311 | The device is selected, and the session disconnects only when CONNECTED |
| SimpleApp.App.HandleSetCustomPrompt | src/app/SimpleApp.tsx:314-326 | The prompt is kept and stored; only when CONNECTED the session disconnects and a reconnect is scheduled, closing over the settings in force before the change |
| SimpleApp.App.FireReconnect | src/app/SimpleApp.tsx:322-324 | The scheduled reconnect runs the stale `connectToRealtime`, which saw CONNECTED and the old settings: it acts as `ReconnectAsWritten` says |
| SimpleApp.PromptSurvivesReload | src/app/SimpleApp.tsx:314-318 | Setting a prompt and then mounting the screen from what was stored starts it with that prompt |
| SimpleApp.App.HandleQASubmit | src/app/SimpleApp.tsx:328-390 | A blank question changes nothing; otherwise the trimmed question is appended with an empty answer and the box cleared. A string answer is revealed in full with loading off; any other answer throws at the split, leaving the answer empty and loading on |
| SimpleApp.App.RevealAnswer | src/app/SimpleApp.tsx:371-389 | The frames shown are the reveal frames of the split answer, the last pair ends with the whole answer, and loading is off only after that |
| SimpleApp.WithLastAnswerOfAppended | src/app/SimpleApp.tsx:336-380 | Revealing into the pair just appended completes that pair and leaves the earlier ones alone |
| SimpleApp.WithLastAnswerTwice | src/app/SimpleApp.tsx:374-380 | Only the last reveal step leaves a trace on the last pair |
| Responses.FromContent | src/app/SimpleApp.tsx:354-361 | String content is the answer; an array whose first element has a truthy `text` gives that `text`; an object with a truthy `text` gives it; an array or object without one, and any other shape, gives "No answer." |
| Responses.FromAnswer | src/app/SimpleApp.tsx:363-365 | A falsy `answer` gives "No answer."; a string gives itself; otherwise its truthy `text`, else "No answer." |
| Responses.ExtractAnswer | src/app/SimpleApp.tsx:353-366 | Output content wins over `choices`, which wins over `answer`, read as `FromAnswer` says; the default is "No answer.", and every result is truthy or that default |
| Responses.EmptyBodyHasNoAnswer | src/app/SimpleApp.tsx:353-366 | A body with none of `output`, `choices` and `answer`, or that is not an object, gives "No answer." |
| Responses.AnswerOf | src/app/SimpleApp.tsx:337-369 | A thrown request gives "Error getting answer."; a parsed body gives `ExtractAnswer` of it |
| Responses.OutputTakesPrecedence | src/app/SimpleApp.tsx:353-362 | When output content is present, adding `choices` does not change the answer |
| Responses.EnvelopeExamples | src/app/SimpleApp.tsx:353-366 | The answer "42" is found in output content, in `choices`, and in `answer` as a string or as its `text` |
| Responses.ContentShapeExamples | src/app/SimpleApp.tsx:354-361 | Output content as the array `[{text: "42"}]` or as the object `{text: "42"}` gives "42" |
| Responses.UnshapedContentExample | src/app/SimpleApp.tsx:353-362 | Content of none of the three shapes gives "No answer." even when `choices` holds an answer |
| Responses.SplitKeepingSpaces | src/app/SimpleApp.tsx:371 | The tokens concatenate back to the answer |
| Responses.SplitAlternates | src/app/SimpleApp.tsx:371 | The tokens alternate between words (runs without white space) and non-empty white-space runs. They start and end with a word, which may be empty there, and every inner word is non-empty |
| Responses.AlternatingOddLength | src/app/SimpleApp.tsx:371 | An alternating split has an odd number of tokens |
| Responses.RevealFrames | src/app/SimpleApp.tsx:373-389 | There is one frame per step from 0 to all tokens, and frame i joins the first i tokens |
| Responses.RevealGrowsToAnswer | src/app/SimpleApp.tsx:373-389 | The first frame is empty and the last is the whole answer; every frame is a prefix of the answer and frames never shrink |
| AudioDevices.AudioInputsExactly | src/app/hooks/useAudioDevices.ts:26-32 | Every audio input is listed, and every listed device comes from an audio input |
| AudioDevices.AudioInputsAppend | src/app/hooks/useAudioDevices.ts:26-32 | The projection keeps the browser's order: that of a concatenation is the concatenation of the projections |
| AudioDevices.DeviceLabelShape | src/app/hooks/useAudioDevices.ts:30 | A label is never empty: the device's own label, or "Microphone ", the first eight characters of the id and "..." |
| AudioDevices.Enumerate | src/app/hooks/useAudioDevices.ts:16-46 | Success lists the audio inputs and clears the error, selecting the first only when nothing was selected. Failure keeps list and selection and sets the error. Loading ends false either way |
| AudioDevices.EnumerateIdempotent | src/app/hooks/useAudioDevices.ts:16-46 | Enumerating again with the same outcome changes nothing more |
| AudioDevices.StreamTarget | src/app/hooks/useAudioDevices.ts:49-54 | A non-empty explicit id wins over the selected one; with neither, the request fails with "No audio device selected" |
| AudioDevices.Registry.constructor | src/app/hooks/useAudioDevices.ts:10-13 | The hook starts with no devices, nothing selected, loading, and no error |
| AudioDevices.Registry.EnumerateDevices | src/app/hooks/useAudioDevices.ts:16-46 | The step-by-step updates leave the state `Enumerate` gives |
| AudioDevices.Registry.SetSelectedDeviceId | src/app/hooks/useAudioDevices.ts:11 | Only the selection changes |
| AudioDevices.Registry.GetAudioStream | src/app/hooks/useAudioDevices.ts:49-54 | The target is the one `StreamTarget` gives |
| Text.Trim | src/app/SimpleApp.tsx:331-333 | `trim` leaves a string with no white space at either end, never longer than the input |
| Text.TrimEmptyIffWhitespace | src/app/SimpleApp.tsx:331 | A question trims to "" exactly when it is all white space |
| Text.TrimIdempotent | src/app/SimpleApp.tsx:333 | A trimmed string trims to itself |
| Text.TrimAbsorbsPadding | src/app/components/SimpleTranscript.tsx:900 | White space around a string does not change its trimmed form |
| Text.ConcatPrefix | src/app/SimpleApp.tsx:378 | Joining fewer leading tokens gives a prefix |
| Text.ParseNatToString | src/app/components/SimpleTranscript.tsx:335 | The decimal rendering of a pair number reads back as that number |
| Text.NatToStringInjective | src/app/components/SimpleTranscript.tsx:335 | Different pair numbers render differently |
| Json.Field | src/app/SimpleApp.tsx:353-365 | `?.key` yields a value exactly on an object holding the key, and that value is the key's |
| Json.First | src/app/SimpleApp.tsx:353-362 | `?.[0]` yields a value exactly on a non-empty array, and that value is its first element |

## Left out

- The Electron shell and the two API routes: window management,
  shortcuts, content protection, and proxying to the model provider are not
  part of this model.
- The waveform, the voice-level meter and their colours: floating-point
  work on audio frames.
- The realtime SDK hook, the transcript provider, the event log and the
  guardrail: their code is not part of this model. Each is an interface
  here.
  - The SDK is the list of calls made on it.
  - The transcript offers add and update by id.
  - Client and server event logging and `console` output are dropped.
  - The `outputGuardrails`, `extraContext` and `audioElement` arguments of
    the SDK connect are not recorded.
- The agent's instructions text is a stand-in constant; no rule depends on
  its wording.
- The effect that adds an "Agent: …" breadcrumb after a hand-off
  (SimpleApp.tsx:119-132): it depends on a ref and on an agent lookup in
  `selectedAgentConfigSet`, which the model does not hold.
- `selectedAgentConfigSet` itself: connect reads the scenario map directly,
  as the source does.
- `updateSession`'s "hi" message is recorded as two SDK events. The
  transcript entry it also adds is not modelled.
- Timers (the 60 ms reveal step, the 300 ms reconnect delay, the 200 ms
  capture wait) are discrete steps.
  - `RevealAnswer` runs the whole reveal in one call, returning the frames.
  - The reconnect is a pending timer holding the settings its closure saw,
    and a separate `FireReconnect` step. A second prompt change while a
    timer is pending keeps only the newer timer; both would see the same
    CONNECTED status.
- Concurrency: interleavings of asynchronous connects, disconnects, status
  reports and reveal steps are not modelled. In particular, a second
  submission during a reveal is not.
- Capture: the media stream, video, canvas and base64 encoding are one
  `Capture` outcome. The audio stream that `getAudioStream` returns is not
  modelled: only its target and the guard before the request are.
- SimpleApp.App.HandleQASubmit: it does not model the exception an answer
  that is not a string raises, beyond leaving loading on and the answer
  empty. The thrown error escapes the handler.
- SimpleTranscript.Panel.HandleScreenshot: the browser `alert` is
  returned as a value instead of being shown.
- Transcript.Log.AddMessage: the provider's handling of a repeated id is
  unknown, so ids are required to be fresh, as `uuidv4` makes them.
- JavaScript `trim` and `\s` are modelled over the characters of ECMA-262
  (WhiteSpace and LineTerminator); strings are sequences of characters,
  not UTF-16 code units.

## Findings

| source | as written | input that shows it | evidently intended | confidence | as-written member | corrected member |
|---|---|---|---|---|---|---|
| src/app/SimpleApp.tsx:320-324 | The timer calls the `connectToRealtime` of the render in which the prompt changed. That closure still reads `sessionStatus` as CONNECTED, so it returns at line 179 | Change the custom prompt while CONNECTED: the session disconnects and never reconnects | Disconnect, then reconnect with the new prompt as the first agent's instructions | high, not executed | Session.StaleReconnectNeverConnects | Session.ReconnectAppliesNewPrompt |

`App.FireReconnect` models the timer as written; `Session.Reconnect` is the
corrected reading the second lemma is about.
