# Silence-gated recording session (whisper-asr-demo)

A Dafny model of the one piece of logic in the browser script `app.js`: a recording
session that the user toggles with a button and that stops itself after more than three
seconds of silence. The script's module-level variables (`mediaRecorder.state`, the button
caption, `silenceStart`, `audioChunks`, the result text) become the fields of a `Session`
class, and its event handlers become methods on it:

- `Silence` (`silence.dfy`): the per-frame test `isBufferSilent` as a method with a loop,
  proved equal to the predicate "no sample has magnitude above 0.02"; and the timer test of
  `checkForSilence`, including the case where `silenceStart` is still `undefined`.
- `Session` (`session.dfy`): the click handler, the audio-processing callback, the
  `dataavailable` listener and the recorder's stop together with its `stop` listener.
  The recording handed to transcription is the concatenation of the chunks' bytes in
  arrival order (`Assemble`). Four small client methods replay concrete event sequences
  and prove the behaviour that follows from the methods' contracts alone.
- `Wrappers` (`wrappers.dfy`): an `Option` type.

Time is an integer number of milliseconds passed to each handler in place of `Date.now()`.
Samples are reals. Chunks are byte sequences.

Two details of app.js the model keeps:
- Starting a recording does not clear the chunk buffer. Only the `stop` listener empties it
  (app.js:37), so `Click` leaves `chunks` as it was when it starts a recording.
- `checkForSilence` reads and writes the script's globals directly and stops the recorder
  itself (app.js:65-77), so the silence check is a method of `Session`, not a separate object
  with state of its own.

## Model

| member | source | states |
|---|---|---|
| `Silence.Abs` | app.js:82 | the magnitude of a sample is non-negative and is the sample or its negation |
| `Silence.IsBufferSilent` | app.js:79-87 | the scan answers true exactly when no sample has magnitude strictly above 0.02; when it answers false, some loud sample exists |
| `Silence.EmptyFrameIsSilent` | app.js:81-86 | a frame with no samples is silent |
| `Silence.ThresholdIsStrict` | app.js:80-83 | a sample of exactly +0.02 or -0.02 is not loud; any sample of larger magnitude, of either sign, is |
| `Silence.OneLoudSampleSuffices` | app.js:81-84 | one sample of magnitude above 0.02, at any index, makes the frame non-silent |
| `Silence.SilentConcat` | app.js:81-86 | a frame is silent exactly when both parts of any split of it are silent, so the verdict does not depend on frame boundaries |
| `Silence.CountdownBoundary` | app.js:68 | from a countdown start `t`, the silence duration is exceeded iff `now > t + 3000`: not at exactly 3000 ms, but at 3001 ms |
| `Silence.UnsetNeverExceeded` | app.js:10 | while `silenceStart` is still unset, no amount of elapsed time exceeds the duration |
| `Session.AssembleAppend` | app.js:31-33 | appending a chunk appends its bytes to the assembled recording and keeps the earlier bytes in place |
| `Session.AssemblePrepend` | app.js:36 | the first chunk's bytes come first in the assembled recording |
| `Session.AssembleLength` | app.js:36 | the assembled recording is exactly as long as the chunks together |
| `Session.Session.constructor` | app.js:4-10 | after setup the recorder is inactive, the button reads "Start Recording", the buffer is empty and `silenceStart` is unset |
| `Session.Session.Stop` | app.js:35-37 | the recorder becomes inactive, the button offers to start, the handed-back recording is the old chunks in order, and the buffer is empty |
| `Session.Session.Click` | app.js:46-58 | the result is cleared; a running recording is stopped and handed back; otherwise recording starts, the button reads "Stop Recording", the countdown starts at `now`, and the buffer is kept |
| `Session.Session.OnAudioProcess` | app.js:65-77 | a loud frame sets `silenceStart` to `now` and changes nothing else; a silent frame keeps `silenceStart` and stops the recorder iff it is recording and more than 3000 ms have passed; otherwise nothing changes |
| `Session.Session.OnDataAvailable` | app.js:31-33 | the chunk is appended at the end of the buffer, and the assembled recording grows by exactly its bytes |
| `Session.SilenceEndsRecording` | app.js:65-77 | after a start at `t`, silent frames at t+1000 and t+3000 keep recording and one at t+3001 stops it, handing back chunks c1, c2, c3 as c1 + c2 + c3 |
| `Session.LoudFrameRestartsCountdown` | app.js:75 | after a start at `t` and a loud frame at t+2000, a silent frame at t+5000 keeps recording and one at t+5001 stops it |
| `Session.SilenceWhileIdle` | app.js:67-73 | after a recording started at `t` is stopped by a click, a silent frame at any `now` leaves the recorder inactive and the button unchanged and hands back nothing, also when the countdown has run out (`now > t + 3000`) |
| `Session.SilenceStopsAnyRecording` | app.js:67-72 | any running recording is stopped by a silent frame more than 3000 ms after its countdown started, handing back its chunks in order |
| `Session.ClickTwice` | app.js:50-57 | two clicks start and then stop a recording, the button reading "Stop Recording" and then "Start Recording", and the result is cleared |

## Left out

- Microphone and audio-graph setup (`getUserMedia`, `AudioContext`, the script processor and its wiring, app.js:16-30): browser APIs with no logic of their own. The constructor stands for an `init()` that gets as far as installing the click handler (app.js:46).
- A partial `init()` failure: the audio callback is wired (app.js:22-28) before `new MediaRecorder` runs (app.js:30). If that constructor throws, `init()` logs and alerts (app.js:59-62), but frames keep arriving; once a loud frame has set `silenceStart` and more than 3000 ms of silence follow, `checkForSilence` reads `mediaRecorder.state` (app.js:69) on `undefined` and throws. The model always has a recorder.
- The initial button caption and the initial text of the result area come from the page's HTML, which is not part of this model; the constructor takes them to be "Start Recording" and empty.
- `sendToWhisperAPI` (app.js:89-132): an HTTP request and JSON decoding. `Click` and `OnAudioProcess` hand back the assembled recording that would be sent; the request, its timing `((endTime - startTime) / 1000).toFixed(2)` and the string returned on failure (app.js:130) are not modelled.
- Rendering the transcription into the result area (app.js:40-43): the `result` field is only cleared by `Click`.
- The browser's asynchronous delivery of the last `dataavailable` event and then the `stop` event after `mediaRecorder.stop()`: the recorder stop and the `stop` listener are one step (`Session.Stop`).
- The recorder's 'paused' state: the script never pauses, so `RecorderState` has only Inactive and Recording.
- Floating point: samples are 32-bit floats compared against the double 0.02, so a sample of exactly 0.02 cannot occur in the running program, and a NaN sample (where `Math.abs(NaN) > 0.02` is false) has no counterpart among reals.
