# Sentiment visualizer session controller, in Dafny

This project models the streaming session controller inside `App()` in
`frontend/src/App.js`. The controller has four parts:

- **The analysis queue.** Finished utterances wait in a FIFO queue. A single-flight flag
  lets one analysis job run at a time. Each job probes the backend's health, calls the
  analysis endpoint, and ends in one of five branches: the health probe failed, the
  15-second abort fired, an HTTP error, any other error, or a parsed reply.
- **The signal smoother.** On success the reply updates three values: the emotion label
  (last write wins, `"calm"` when absent), the intensity (a moving average with weights
  0.7 and 0.3), and the keyword list (a `Set`-ordered merge, keeping the last ten).
- **The session lifecycle.** The lifecycle tracks the connection lock, the manual-stop
  flag, the connection status, `isRecording`, and the recorder, socket and stream refs.
  It is driven by these events:
  - start and stop;
  - the socket's `onopen`, `onmessage`, `onerror` and `onclose`;
  - the 8-second open timeout and the 800 ms monitor.
- **Transcript intake.** Only messages whose transcript is non-blank after `trim()` enter
  the transcript log and the queue.

Files:

- `option.dfy`: module `Opt`, an `Option` for JavaScript values that may be absent.
- `smoother.dfy`: module `Smoother`. The reply record, the emotion fallback and the
  intensity average, both as functions. It also holds the JavaScript `Set` order
  (`Dedup`), `slice(-10)` (`Last`) and the keyword merge, with lemmas about each.
- `intake.dfy`: module `Intake`. It extracts `channel.alternatives[0].transcript` and
  models ECMAScript's `String.prototype.trim`.
- `analysis.dfy`: module `Analysis`. It covers how one job ends, and how the outer
  `catch` classifies a thrown error by `name` and `message`.
- `controller.dfy`: module `Controller`. It holds the class `Session`, with the
  component's state and refs as fields and one method per event.
  - Each method's `modifies` clause names the fields the event may touch. Its `ensures`
    give their new values, and say which of those fields stay unchanged on each path.
  - The invariant `Valid()` uses two ghost fields. `consumed` counts how many transcript
    lines have left the queue. `started` lists the log positions of the jobs started so far.
  - `Valid()` states that the queue is the unconsumed tail of the transcript log. It also
    states that jobs start at strictly increasing log positions, which gives FIFO order.
  - Single flight comes from two contracts. `DrainBegin` starts nothing while `processing`
    is set, and `DrainEnd` requires `processing`, so each job ends before the next begins.
  - `DrainBegin` and `WsMessage` also promise that the job they start is the oldest
    unconsumed line.

Asynchrony is modelled as events. Where `startRecording` awaits `getUserMedia`, it is
split in two: `Start` runs up to the call and `MediaSettled` handles the settled promise.
Likewise `processQueue` is split into `DrainBegin`, `ProbeFailed` and `DrainEnd`. The
counters `pendingMedia` and `pendingOpenTimeouts` record which continuations may still
arrive. What the browser reports becomes a method parameter: `navigator.onLine`, the
socket's ready state, whether the recorder started, and the outcome of the two requests.

Three behaviours of the code are modelled as written, although they are easy to misread:

- A reply intensity of `0` is falsy in `aiData.intensity || 0.5`, so it counts as `0.5`.
  Starting from 0.5, replies with intensity 1.0 and then 0 give 0.65 and then 0.605, not
  0.455 (`EmaTwoSteps`).
- The merged keyword list is not "the most recent ten". A JavaScript `Set` keeps each
  element at its first insertion. So a keyword repeated in the latest reply keeps its old
  place, and `slice(-10)` can drop it (`RepeatedKeywordCanBeEvicted`).
- The backend answers with a `sentiment` key, not `emotion`, so the displayed emotion
  always falls back to `"calm"`. The model keeps `emotion` as an optional field, so both
  kinds of reply can be expressed.

## Model

| member | source | states |
|---|---|---|
| Smoother.EmotionOf | frontend/src/App.js:121 | The label is never empty. It is the reply's label when that is present and non-empty, and `"calm"` otherwise. |
| Smoother.Sample | frontend/src/App.js:122 | The sample is never 0. It is the reply's intensity when present and non-zero, and 0.5 when absent or zero. An in-range intensity gives an in-range sample. |
| Smoother.Ema | frontend/src/App.js:122 | The new value's distance to the sample is 0.7 times the old distance. The value lies between the old value and the sample. An old value in [0,1] and an in-range reply give a result in [0,1]. |
| Smoother.FoldEma | frontend/src/App.js:122 | No replies leave the intensity as it was. From a value in [0,1], any number of replies with in-range intensities keep it in [0,1]. |
| Smoother.FoldEmaAppend | frontend/src/App.js:122 | Applying replies `a`, then `b`, is applying `a + b`. The smoothing is a left fold in arrival order. |
| Smoother.FoldEmaConstant | frontend/src/App.js:122 | Closed form: after `n` equal replies with sample `s`, the intensity is `s + 0.7^n * (i0 - s)`. |
| Smoother.EmaTwoSteps | frontend/src/App.js:122 | From 0.5, a reply with intensity 1.0 and then one with intensity 0 give 0.605, because 0 counts as 0.5. |
| Smoother.EmaOrderMatters | frontend/src/App.js:122 | The same two replies in the other order give a different intensity, so the order in which replies are applied matters. |
| Smoother.Dedup | frontend/src/App.js:126 | The `Set` order has no duplicates and the same elements as its input, and it is no longer than the input. |
| Smoother.DedupFirstOccurrenceOrder | frontend/src/App.js:126 | The `Set` order lists elements in the order of their first occurrence in the input. |
| Smoother.DedupOfNoDup | frontend/src/App.js:126 | A duplicate-free sequence is its own `Set` order. |
| Smoother.DedupPrefix | frontend/src/App.js:126 | Inserting more elements only extends the `Set` order at its end. |
| Smoother.DedupCovered | frontend/src/App.js:126 | Inserting only elements that are already present leaves the `Set` order unchanged. |
| Smoother.DedupSnoc | frontend/src/App.js:126 | Inserting one element changes nothing if it is present, and otherwise appends it. |
| Smoother.DedupAfterNoDup | frontend/src/App.js:126 | For a duplicate-free `prev`, `Set([...prev, ...b])` is `prev` followed by the new elements of `b`, each once, in order of first mention. |
| Smoother.Last | frontend/src/App.js:127 | For `n` ≥ 1, `slice(-n)` keeps `min(n, length)` elements. For `n` = 0 it keeps the whole input, as `slice(-0)` is `slice(0)`. The result is always a suffix of the input. |
| Smoother.MergeKeywords | frontend/src/App.js:125-128 | The merged list has no duplicates and at most 10 entries. It is the suffix of the `Set` order of `prev ++ incoming` of length `min(10, size)`. Every entry comes from one of the two lists. When the merged set has at most ten elements, nothing is lost. |
| Smoother.MergeAppendsUnseen | frontend/src/App.js:125-128 | With a duplicate-free `prev`, the merge is the last ten of `prev` followed by the unseen keywords in order of first mention: a keyword mentioned again does not move. |
| Smoother.MergeKnownIsIdentity | frontend/src/App.js:125-128 | If `prev` is duplicate-free with at most 10 entries, and every new keyword is already in it, the list is unchanged. |
| Smoother.MergeTwiceIsOnce | frontend/src/App.js:125-128 | Merging the same reply twice is merging it once, as long as nothing was dropped. |
| Smoother.ApplyKeywords | frontend/src/App.js:124-129 | A missing or empty keyword list leaves the keywords unchanged. Otherwise the result is the merge of the old keywords with the reply's: no duplicates, at most 10 entries, and every entry old or from the reply. |
| Smoother.RepeatedFeedSettles | frontend/src/App.js:124-129 | Feeding `["joy","joy","hope"]` any number of times, starting from no keywords, yields `["joy","hope"]`. |
| Smoother.RepeatedKeywordCanBeEvicted | frontend/src/App.js:126-127 | Start with ten known keywords. A reply that names the oldest of them and one new keyword evicts the oldest, although the reply just repeated it. |
| Intake.TranscriptOf | frontend/src/App.js:316-317 | There is a text exactly when the message parsed and its optional chain `channel.alternatives[0].transcript` is present all the way down. The text is that value. |
| Intake.TrimStart | frontend/src/App.js:319 | The result is a suffix of the input. Everything dropped is white space, and the result does not start with white space. |
| Intake.TrimEnd | frontend/src/App.js:319 | The result is a prefix of the input. Everything dropped is white space, and the result does not end with white space. |
| Intake.IsJsSpace | frontend/src/App.js:319 | Tab through carriage return and the space are white space. No visible ASCII character (`!` to `~`) is, and no code point above U+FEFF is. |
| Intake.Trim | frontend/src/App.js:319 | The trimmed text is a contiguous middle part of the input, and everything removed on either side is white space. It neither starts nor ends with ECMAScript white space or a line terminator. |
| Intake.TrimEmptyIffAllSpace | frontend/src/App.js:319 | The trimmed text is empty exactly when every character is white space. |
| Intake.Accepts | frontend/src/App.js:319 | `text?.trim()` is truthy exactly when the text is present and not all white space. |
| Intake.AcceptsIffVisible | frontend/src/App.js:319 | A text is accepted exactly when it is present and has a character that is not white space. |
| Analysis.Classify | frontend/src/App.js:137-163 | The catch takes the timeout branch exactly for an `AbortError`. It takes the HTTP branch exactly for other errors whose message contains `HTTP`. Everything else goes to the generic branch. |
| Analysis.Includes | frontend/src/App.js:152 | `includes` holds exactly when the pattern occurs at some offset of the text. |
| Analysis.StatusError | frontend/src/App.js:116 | The thrown error is a plain `Error`, not an `AbortError`, and its message is `HTTP`, a space and the status. |
| Analysis.IsFatal | frontend/src/App.js:67-150 | A job ends the session exactly when the health probe failed (lines 67-83) or the request was aborted (lines 137-150). A parsed reply is never fatal. |
| Analysis.StatusErrorIsHttp | frontend/src/App.js:116 | The error raised for any non-2xx reply takes the recoverable HTTP branch. |
| Controller.Session.constructor | frontend/src/App.js:13-30 | The initial state: not recording, empty log and queue, `"calm"` and 0.5, no keywords, no error, disconnected, all refs null, lock free. |
| Controller.Session.Cleanup | frontend/src/App.js:180-210 | Afterwards the recorder, socket and stream are released and the monitor is cleared. Nothing else changes, and a second call changes nothing. |
| Controller.Session.Stop | frontend/src/App.js:215-222 | Ends with manualStop set, everything released, not recording and disconnected. The queue, signals and lock are kept, and a second call changes nothing. |
| Controller.Session.Unmount | frontend/src/App.js:33-38 | Sets manualStop and releases everything. The displayed state is kept. |
| Controller.Session.Start | frontend/src/App.js:227-243 | Always clears manualStop. While the lock is held, nothing else changes. Offline, it reports the error, releases the lock and acquires nothing. Otherwise it holds the lock, sets connecting, releases old resources and awaits the microphone. |
| Controller.Session.MediaSettled | frontend/src/App.js:245-264 | Granted: the stream and socket are set and one open timeout is armed. Refused (the outer catch, lines 343-349): the error is reported, the status is disconnected and the lock is released. |
| Controller.Session.OpenTimeout | frontend/src/App.js:257-264 | If the socket is not open, the timeout is reported and the status disconnected. The lock, stream and refs are kept either way. |
| Controller.Session.WsOpen | frontend/src/App.js:266-312 | Success: the recorder is set, the monitor starts, recording and connected. If the constructor throws or `start` throws: the error is reported and the status disconnected. The lock is released on every path. |
| Controller.Session.WsError | frontend/src/App.js:329-333 | The error is reported, then the state is the stopped state. |
| Controller.Session.WsClose | frontend/src/App.js:335-341 | Reports reconnecting exactly when manualStop is clear. Always releases the lock. Nothing else changes. |
| Controller.Session.MonitorTick | frontend/src/App.js:285-300 | A healthy tick changes nothing. A failing tick ends in the stopped state with the lost-connection error, and leaves the queue untouched. |
| Controller.Session.DrainBegin | frontend/src/App.js:43-50 | A no-op while processing or when the queue is empty. Otherwise it removes exactly the head, sets processing and starts the oldest unconsumed transcript line. |
| Controller.Session.ProbeFailed | frontend/src/App.js:67-70 | A failed health probe shows the "not connected" error during the grace period and changes nothing else. |
| Controller.Session.HardStop | frontend/src/App.js:72-82 | The full stop: the stopped state, an empty queue, processing clear, the given error. |
| Controller.Session.DrainEnd | frontend/src/App.js:52-173 | Processing is cleared. It re-arms exactly when the queue is non-empty. A fatal failure leaves the stopped state and an empty queue, so it never re-arms. A recoverable failure keeps the session, the status and the queue, and only the generic branch resets emotion and intensity. A reply applies the smoother and clears the error. |
| Controller.Session.Enqueue | frontend/src/App.js:320-321 | The line is appended to both the transcript log and the queue. |
| Controller.Session.WsMessage | frontend/src/App.js:314-327 | A blank or missing transcript changes nothing. A visible one is appended, untrimmed, to the log and the queue. If no job is in flight, the oldest unconsumed line starts at once. |
| Controller.RestartBeforeOldClose | frontend/src/App.js:215-341 | After a stop, the user presses start before the old socket's close event arrives. That stale close reports reconnecting and releases the lock. A further start then opens a second concurrent attempt: two microphone requests pending, the lock held, not recording, connecting. |

## Left out

- Input and output are not modelled: `fetch`, `WebSocket`, `getUserMedia`, `MediaRecorder`,
  forwarding audio chunks, `AbortController`. Their results arrive as method parameters.
- Wall-clock time is not modelled. The 3 s and 15 s aborts, the 10 s grace, the 8 s
  timeout, the 800 ms interval and the 500 ms re-arm are events or outcomes.
- The 5-second "slow response" warning is left out. It is a transient message that clears
  itself and changes no other state.
- Auto-clearing error texts: the `setTimeout(() => setError(null), …)` calls are left out,
  so a notice stays until the next event replaces it.
- Socket identity is not modelled. Events from an earlier socket, such as its `onclose` or
  its still-armed open timeout, are handled exactly like events of the current one.
- When a second concurrent attempt overwrites the refs (lines 249, 255 and 271), the first
  attempt's recorder, socket, stream and monitor interval leak: cleanup can no longer reach
  them. The model does not track leaked resources. Their transcripts arrive as ordinary
  `WsMessage` events, and a leaked monitor's ticks are `MonitorTick` calls, which are
  allowed in any valid state.
- The `new WebSocket(...)` constructor throwing is left out. That path takes the outer
  `catch` with the stream already set.
- Values of the wrong JavaScript type are left out: a non-string transcript, keywords that
  are a string, a non-numeric intensity. Every field is modelled as absent or of its
  intended type.
- IEEE floating point is left out. Intensities are `real`, and nothing is claimed about
  bit-exact results.
- React-specific behaviour is left out: batching of `setState` calls, stale closures and
  re-rendering. Each event applies its updates at once.
- The presentation components (`AuraVisualization`, `TranscriptDisplay`,
  `KeywordsDisplay`, `Controls`) are not part of this model. Neither is the backend
  service.
