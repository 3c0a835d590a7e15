# Screen recorder extension: session controller and popup view

This project models the core of a browser extension that records the screen.
The model has two halves.

**The background service worker** (`background.js`) keeps one recording session in
seven module-level variables: `activeRecording`, `recordingStream`, `mediaRecorder`,
`recordedChunks`, `startTime`, `pauseTime` and `isPaused`. Its handlers change them:

- start (look up the quality preset, request the capture, create and start the recorder);
- stop;
- pause/resume;
- take in a data chunk;
- build the download when the recorder stops;
- reset.

Two listeners dispatch to these handlers: one for keyboard shortcuts and one for
runtime messages. The model is the class `Background.Controller`, with those seven
fields. Each handler is a method, proved against a predicate of the old and new state
(`StartedFrom`, `StoppedFrom`, `ToggledFrom`, `IsReset`). Every method also keeps the
invariant `Valid`: a recorder and a stream exist exactly while a session is active,
and with no session the timers are clear.

The browser pieces are values:

- the recorder is its state (`inactive`, `recording`, `paused`) plus the options it was built with;
- a stream is whether its tracks were stopped;
- a chunk is its size;
- what `getDisplayMedia` does is the input `Capture`;
- whether the recorder could be created and started is the input `recorderOk`;
- the stored settings are an `Option<Settings>`;
- `Date.now()` is the parameter `now`, and `toISOString()` is the parameter `iso`.

A broadcast is a returned `Status` snapshot, and a download is a returned `DownloadRequest`.

**The popup** (`popup.js`) has two parts.

- `formatTime` is a pure function. Its partner is `ParseClock`, which reads an `hh:mm:ss` reading back. `FormatTime`'s own contract says that for every duration `ms >= 0` the reading parses back as `⌊ms/1000⌋` whole seconds, so its minutes and seconds are below 60 and every field is padded to two digits. JavaScript semantics are written out explicitly: `Math.floor` of a quotient, the truncating `%`, and `toString`/`padStart` (module `Decimal`). So a negative duration formats as the browser would, e.g. `-1:-1:-1` or `-1:-1:-5`.
- The view is the class `Popup.View`. It has the popup's `isRecording` and `isPaused` variables and one `Elements` record holding the controls' `disabled` flags and texts.

`BackgroundScenarios` and `PopupScenarios` drive fresh objects through whole sessions. Each scenario states what an observer of the replies, broadcasts, downloads and controls sees. `EndToEnd` passes a controller's status to a view.

Behaviours the model keeps as the code has them:

- **Every START, STOP and TOGGLE message is answered `{success: true}`** (`background.js:49-60`). This holds even when the start failed. The toggle reply carries no status. The unit tests expect `{success: false, error}` for a refused start and a status in the toggle reply; the model follows the code.
- **The download is named `screen-recording-<timestamp>.webm`.** In the timestamp every `:` and `.` becomes `-` (`background.js:144-145`). The unit test expects a `recording-` prefix; the model follows the code.
- **`formatTime` always writes three fields.** One minute is `00:01:00` and five seconds is `00:00:05`. The unit tests expect `01:00` and `00:05`; the model follows the code.
- **`startRecording` never reads its `options` argument.** Quality and audio come from stored settings only.
- **A start while a session runs is not refused.** A successful start overwrites the session's fields; a failed one resets them. Neither stops the first session's recorder or its tracks (`background.js:87-96`, `161-164`). The recorder is dropped while still recording, with its callbacks still attached. `StartRecording` returns the dropped recorder and stream as `abandoned`.
- **A failure after the capture was granted drops the stream without stopping its tracks.** This covers an unknown quality key, where the preset lookup gives `undefined` and `quality.bitrate` throws.
- **`pauseTime` is never cleared on resume.** So after a resume, `getRecordingDuration` returns `2·pauseTime − startTime₀ − resumeTime`. That value no longer grows with the clock and is smaller than the value while paused (`BackgroundScenarios.PauseResumeTimeline`). It is negative once the pause lasted longer than the recording before it. Start at 1000, pause at 6000 and resume at 16000: the status says −5000, and the popup shows `-1:-1:-5` (`EndToEnd.NegativeTimerAfterLongPause`).
- **`stopRecording` only stops the recorder and the tracks.** The session stays active until the recorder's stop callback runs `handleRecordingStop`.

## Model

| member | source | states |
|---|---|---|
| Background.ResolvePreset | background.js:8-12 | The preset lookup of line 76, with `'1080p'` as the fallback for a falsy stored quality. 720p is 1280×720 at 2,500,000; 1080p is 1920×1080 at 5,000,000; 4k is 3840×2160 at 15,000,000. An absent or empty quality falls back to 1080p. The lookup is undefined exactly for a key outside the table. Every preset is 16:9. |
| Background.StopTracks | background.js:115 | Stopping the tracks keeps the same stream and marks its tracks stopped. No stream stays no stream. |
| Background.ReplaceSeparators | background.js:144 | `replace(/[:.]/g, '-')` keeps the length and replaces exactly the `:` and `.` characters, leaving every other character in place. |
| Background.FileName | background.js:144-145 | The name is `screen-recording-`, then the replaced timestamp character by character, then `.webm`. Its only `:` or `.` is the dot of the extension. |
| Background.FileNameRoundTrip | background.js:144-145 | For an ISO-8601 timestamp of the `toISOString` shape, the timestamp can be recovered from the file name, so the name loses nothing. |
| Background.FileNameExample | background.js:144-145 | `2024-01-15T10:30:45.123Z` gives `screen-recording-2024-01-15T10-30-45-123Z.webm`, which does not start with `recording-`. |
| Background.Controller.constructor | background.js:15-21 | The initial values are the reset state, and the invariant holds. |
| Background.Controller.Duration | background.js:172-176 | 0 with no start time. While paused it is `pauseTime − startTime`, whatever the clock. When not paused and never paused it is `now − startTime`. When not paused after a pause it is again `pauseTime − startTime`, independent of `now`. |
| Background.Controller.GetStatus | background.js:178-186 | The snapshot reports `isRecording` as the session flag, `isPaused`, and the duration. A reset controller reports `(false, false, 0)`. |
| Background.Controller.Cleanup | background.js:161-170 | Every field gets its constant, whatever the prior state, so running it twice is the same as running it once. The broadcast is the idle snapshot. |
| Background.Controller.StartRecording | background.js:73-110 | Succeeds exactly when the settings are readable, the capture is granted, the quality names a preset and the recorder starts. A success gives empty chunks, `startTime = now`, `pauseTime = 0`, not paused, active, and a recorder recording with vp9 WebM, the preset's bitrate and 1000 ms slices. Any failure leaves the full reset state. The capture request carries the stored audio flag and the looked-up preset. The stage at which it failed is reported. The broadcast is the new snapshot. When a session was already active, its recorder and stream are returned as abandoned, exactly as they were (neither stopped). |
| Background.Controller.StopRecording | background.js:112-117 | With no recorder, or an inactive one, nothing changes. Otherwise the recorder becomes inactive and the tracks are stopped. The session flag, chunks and timers are untouched. |
| Background.Controller.TogglePause | background.js:119-132 | With no recorder it returns without a broadcast. A recording recorder pauses, with `pauseTime = now` and paused set. A paused recorder resumes: `startTime` grows by exactly `now − pauseTime`, `pauseTime` is kept and paused is cleared. An inactive recorder changes nothing but still broadcasts. |
| Background.Controller.HandleDataAvailable | background.js:134-138 | The chunk is appended after the earlier ones exactly when its size is positive. Nothing else changes, and the invariant holds. |
| Background.Controller.HandleRecordingStop | background.js:140-159 | The download holds the chunks in arrival order as `video/webm`, under `FileName(iso)`, with a save dialog. The controller is reset whether or not the download succeeded. |
| Background.Controller.HandleMessage | background.js:47-70 | START, STOP and TOGGLE run their handler and reply `{success: true}`. GET_STATUS replies with the snapshot and changes nothing. Any other action gets no reply and changes nothing. |
| Background.Controller.HandleCommand | background.js:29-44 | The start/stop shortcut stops an active session and otherwise starts one. The pause shortcut toggles only an active session. Any other command changes nothing. |
| BackgroundScenarios.StartThenStatus | background.js:98-105 | After a successful start the status is recording, not paused, duration 0, and later it is the time since the start. |
| BackgroundScenarios.PauseResumeTimeline | background.js:119-132 | Pausing at `p` freezes the duration at `p − t0`. Resuming at `r` gives `2p − t0 − r` at every later reading, which is smaller than the paused value whenever the pause lasted. It is negative exactly when the pause `r − p` outlasted the recording `p − t0`. |
| BackgroundScenarios.PauseOutlastsRecording | background.js:119-132 | Start at 1000, pause at 6000, resume at 16000: every later status is `(true, false, −5000)`. |
| BackgroundScenarios.RecordAndSave | background.js:134-159 | Two non-empty chunks around an empty one are saved as exactly those two chunks, in order, under the timestamp's file name. The controller is then idle. |
| BackgroundScenarios.StopKeepsSession | background.js:112-117 | After a stop the status still says recording. Toggling the stopped recorder broadcasts the same snapshot. |
| BackgroundScenarios.StartFailureAcknowledged | background.js:49-52 | A refused capture is still answered `{success: true}`, the broadcast is idle, and GET_STATUS then reports idle. |
| BackgroundScenarios.UnknownQualityDropsStream | background.js:76-93 | An unknown quality key requests the capture without a preset. It then fails at the recorder, drops the granted stream with live tracks and leaves the controller idle. |
| BackgroundScenarios.StartWhileActiveReplaces | background.js:73-104 | A second successful start replaces the stream and restarts the clock. The first recorder is returned abandoned, still recording, with its tracks live. |
| BackgroundScenarios.FailedRestartEndsSession | background.js:106-109 | A failed start during a session ends that session. Its recorder is returned abandoned, still recording, with its tracks live. |
| BackgroundScenarios.ShortcutToggling | background.js:29-44 | With no session the pause shortcut does nothing. Start/stop starts a session with status `(true, false, 0)`. Pressed again, it leaves an inactive 1080p recorder and sends no broadcast. |
| BackgroundScenarios.ToggleReplyHasNoStatus | background.js:57-60 | The toggle reply is `{success: true}`. The paused snapshot goes out only as a broadcast. |
| BackgroundScenarios.IdleReplies | background.js:61-68 | A fresh controller answers GET_STATUS with `(false, false, 0)` and ignores unknown actions. A toggle without a recorder does not broadcast. |
| Decimal.NatToString | popup.js:120 | `toString` of a non-negative integer is all digits. It is one digit exactly below 10, two digits exactly from 10 to 99, and has no leading zero unless the number is 0. |
| Decimal.PadStart | popup.js:120 | `padStart` has length `max(|s|, target)`, ends with `s`, and has only the pad character before it. |
| Decimal.ValueOfNatToString | popup.js:120 | Reading a written numeral back gives the number. |
| Decimal.ValueOfLeadingZeros | popup.js:120 | Leading zeros do not change the value of a numeral. |
| Decimal.PaddedValue | popup.js:120 | A zero-padded numeral still reads back as the number. Padded to 2, it is exactly two characters below 100. |
| Popup.JsRem | popup.js:116-117 | JavaScript's `%` is Euclidean for a non-negative dividend. For a negative dividend it lies in `(−b, 0]`. |
| Popup.ClockArithmetic | popup.js:114-117 | Hours, minutes below 60 and seconds below 60 recombine to the whole seconds. |
| Popup.FormatTimeFields | popup.js:113-122 | For `ms >= 0` the three fields are the Euclidean hours, minutes and seconds of `⌊ms/1000⌋`. |
| Popup.FormatTime | popup.js:113-122 | For every `ms >= 0` the reading is `hh:mm:ss` with minutes and seconds below 60 and each field padded to at least two digits, and it reads back as exactly `⌊ms/1000⌋` seconds. |
| Popup.TimeFieldReadsBack | popup.js:120 | A field is at least two digits and reads back as its number. Below 100 it is exactly two. |
| Popup.ParseFields | popup.js:119-121 | Joining three in-range fields with `:` reads back as their total in seconds. |
| Popup.FormatTimeDistinguishesSeconds | popup.js:113-122 | Two durations in different whole seconds never show the same reading. |
| Popup.TimeFieldOneDigit | popup.js:120 | A one-digit field gets one leading zero. |
| Popup.TimeFieldTwoDigits | popup.js:120 | A two-digit field is its two digits, with no padding. |
| Popup.FormatTimeZero | popup.js:113-122 | Any duration in the first second shows `00:00:00`. |
| Popup.FormatTimeNinetyMinutes | popup.js:113-122 | 5,400,000 ms, up to the next second, shows `01:30:00`. |
| Popup.FormatTimeOneMinute | popup.js:113-122 | One minute shows `00:01:00`, three fields and not `01:00`. |
| Popup.FormatTimeFiveSeconds | popup.js:113-122 | Five seconds shows `00:00:05`, not `00:05`. |
| Popup.FormatTimeNegative | popup.js:113-122 | Durations in the second before zero show `-1:-1:-1`, following the floor and truncating-remainder semantics. |
| Popup.FormatTimeMinusFiveSeconds | popup.js:113-122 | Durations five seconds below zero show `-1:-1:-5`: hours and minutes floor to −1, and the seconds keep the sign of the truncating `%`. |
| Popup.TimeFieldNegativeDigit | popup.js:120 | A negative one-digit field is its minus sign and the digit, with no padding. |
| Popup.View.constructor | popup.js:10-12 | The popup starts not recording and not paused, over the controls as loaded. |
| Popup.View.UpdateButtonStates | popup.js:92-103 | Start is disabled exactly when recording and stop exactly when not, so the two are always complementary. Quality and audio are locked exactly while recording. Pause is disabled when not recording or stopped. Stopped resets the label to Pause and clears the local paused flag. Nothing else changes. |
| Popup.View.UpdatePauseButton | popup.js:105-107 | The label is Resume exactly when the local flag says paused, and Pause otherwise. |
| Popup.View.UpdateStatus | popup.js:109-111 | Only the status text changes. |
| Popup.View.UpdateTimer | popup.js:124-126 | Only the timer text changes, to `formatTime(duration)`. |
| Popup.View.UpdateUI | popup.js:128-139 | The local flags are copied from the snapshot. The controls show recording or idle with pause enabled only while recording. The label is Resume exactly when paused. The timer is `formatTime(duration)`. The status text becomes `Ready to record` exactly when not recording and is otherwise untouched. The selector values are kept. |
| Popup.View.StartRecording | popup.js:41-57 | Sends START with the selector's quality and audio flag. When delivered, the controls show recording and the status is `Recording started`. On failure only the status text changes. |
| Popup.View.StopRecording | popup.js:59-68 | Sends STOP. When delivered, the controls return to idle, pause is disabled, the label is Pause, the local paused flag is cleared and the status is `Recording saved`. On failure only the status text changes. |
| Popup.View.TogglePause | popup.js:70-79 | Sends TOGGLE. Only once delivered does the local flag flip, the label follow it and the status say paused or resumed. A failed send changes nothing. |
| Popup.View.UpdateRecordingStatus | popup.js:142-149 | Sends GET_STATUS. A reply is shown as `updateUI` shows it. A failed send changes nothing. |
| Popup.View.OnMessage | popup.js:33-37 | A STATUS_UPDATE is shown as `updateUI` shows it. Any other message is ignored. |
| PopupScenarios.StatusUpdateShowsTimer | popup.js:33-37 | A snapshot one minute in shows `00:01:00` with the recording controls and the Pause label. |
| PopupScenarios.IdlePoll | popup.js:142-149 | A poll finding no session shows the idle controls, `00:00:00` and `Ready to record`. |
| PopupScenarios.StopThenToggle | popup.js:59-79 | Stopping a paused session resets the local flag. The next toggle pauses again and offers Resume. |
| PopupScenarios.FailedToggle | popup.js:70-79 | A toggle whose send fails leaves the controls and the local flag as they were. |
| PopupScenarios.StartThenFailedStop | popup.js:41-68 | After a delivered start and an undelivered stop, the recording controls remain and only the failure is reported. |
| EndToEnd.NegativeTimerAfterLongPause | background.js:119-132 | The status after start at 1000, pause at 6000 and resume at 16000 is `(true, false, −5000)`, and a view receiving it as STATUS_UPDATE shows `-1:-1:-5`. |

## Left out

- The `chrome.*` transport is not modelled: `runtime.sendMessage`, the listeners' registration, `storage.local`, `downloads.download` and `onInstalled` (`background.js:24-26`). It is I/O. A message handler returns its reply, a broadcast is a returned snapshot, and a download is a returned request. Its outcome is a parameter that only shows it has no effect.
- The `.catch` and `try` around `broadcastStatus`'s send are not modelled (`background.js:188-196`). They only swallow I/O errors.
- `getDisplayMedia`, `MediaRecorder`, `Blob` and `URL.createObjectURL` are not modelled. They are foreign browser APIs. The capture outcome and the recorder's success are inputs, and a recorder is its state.
- A failure of the recorder's constructor and a failure of `mediaRecorder.start(1000)` are folded into one input, `recorderOk`. Both end in `cleanup`, which resets every field.
- `Date.now()` and `new Date().toISOString()` are parameters (`now`, `iso`). Each handler reads the clock once, so the broadcast after a successful start reports duration 0. With two clock readings in the browser it may be a few milliseconds more.
- The timing of `await`s and recorder callbacks is not modelled. Each handler runs as one atomic step. In particular, the message listener does not await `startRecording`, so in the browser the reply is sent before the start finishes. The reply is the constant `{success: true}` either way.
- The `QUALITY_PRESETS` lookup is modelled as a lookup in a three-key table. A stored quality naming an inherited object property (such as `constructor`) is not modelled, since a string-keyed map has none.
- Background.Controller.StartRecording: it reports the abandoned recorder and stream but does not model what they do afterwards. The abandoned recorder keeps recording with `ondataavailable` and `onstop` still bound, so its chunks and its eventual stop would land in the new session's fields. Its tracks stay live. Recorder callbacks are not modelled (see above).
- Background.IsIsoTimestamp: it covers the 24-character `toISOString` form only. The extended-year form of dates after year 9999 is not covered.
- Settings with a missing `audioEnabled` field are not modelled; the flag is always present in `Settings`.
- Fields of `DEFAULT_SETTINGS` other than the quality fallback are not modelled. They are written only at install time (`background.js:2-6`).
- The popup's `DOMContentLoaded` bootstrap is not modelled: loading the settings into the controls, registering the click handlers, and the unused `updateInterval`. The same goes for `updateSettings`, a storage write, and `window.onerror`. These are DOM and storage plumbing. The controls' initial values are the constructor's parameter.
- The order of the popup's sends and their replies is not modelled. Each popup action takes whether its send was delivered, or the reply, as a parameter.
- Popup.FormatTime: durations are integers. A non-integer or `NaN` duration, which `Math.floor` would also accept, is not modelled, because the background always sends an integer difference of `Date.now()` readings.
