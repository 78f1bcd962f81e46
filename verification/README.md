# ZenFlow playback transport, in Dafny

ZenFlow is a browser app for guided meditation. The user types a topic. A text service writes
a meditation script for it, and a speech service reads the script aloud into an audio buffer.
The app then plays that buffer with play/pause and stop controls. This project models the
app component's event handlers (`App.tsx`) and proves what they do:

- the audio transport: `playAudio`, `pauseAudio`, `stopAudio`, `togglePlay` and the source's
  `onended` callback, which keeps the resume offset by hand through `startTimeRef` and
  `pausedAtRef`;
- the session state that the same component keeps: the topic, the script, the audio buffer,
  the error message and the loading flags, set by `handleGenerateScript`,
  `handleGenerateAudio` and `resetApp`.

Files:

- `types.dfy` (module `Types`): the `AppState` enum, an opaque audio clip with a `duration`,
  and the nullable/outcome wrappers.
- `text.dfy` (module `Text`): JavaScript's `String.prototype.trim`. The script handler uses it
  to decide that a topic is blank.
- `transport.dfy` (module `Transport`): the component's state as a value (`Session`). It has
  one function per handler, giving the state the handler leaves behind. It also defines
  events, traces of events (`Run`) and the invariants.
- `properties.dfy` (module `TransportProperties`): what each handler guarantees, and what
  holds over whole traces.
- `app.dfy` (module `AppComponent`): class `App`. Its fields are the component's state and
  refs, and its methods update them in place. Each method is proved to leave exactly the
  state the matching `Transport` function gives. Each keeps `Valid()` as long as the audio
  clock does not run backwards.

Web Audio is abstracted:

- The audio context and the buffer source node are presence flags (`hasContext`,
  `hasSource`).
- `audioContext.currentTime` is a `now: real` argument of the handlers that read it, so the
  0.5 s end-of-clip tolerance is exact.
- The text and speech services are an `Outcome` argument (success with a value, or failure)
  of the step that runs after the `await`. Each async handler is a begin step and a
  completion step.

Facts about the code that the model brings out:

- `playAudio` never reads `appState` (App.tsx:81-106, `PlayAudioIgnoresAppState`).
- `stopAudio` runs the same way from any state (App.tsx:117-124, `StopAudioEffect`).
- `handleGenerateAudio` never writes `appState`, so a failed speech request leaves the
  screen where it was (App.tsx:56-79, `AudioGenerationEffect`).
- The `onended` callback never clears `audioSourceRef` (App.tsx:96-104). After a clip plays
  out, the state is `ReadyToPlay` while the finished source is still held
  (`NaturalEndKeepsSource`, `EndToEnd`). So "`Playing` iff a source exists" is not an
  invariant. Only its forward half, "`Playing` implies a source", is (`RunKeepsHealthy`).
- The comment at App.tsx:97 says the callback resets only at a natural end, "not stopped
  manually". But it tells the two apart only by the elapsed time. A pause whose end
  notification arrives when elapsed ≥ duration − 0.5 is taken for a natural end, and the
  paused position is lost (`PauseThenEnded`).
- For the same reason, a reset near the end of a clip does not last. `resetApp` calls
  `stopAudio` (App.tsx:135), which stops the source (App.tsx:119). The source's `onended`
  then runs. It reads neither `appState` nor a cleared start reference, so when elapsed ≥
  duration − 0.5 it writes `ReadyToPlay` over the reset's `Idle`. The player screen comes
  back with an empty topic, an empty script and no audio (`ResetThenEnded`).

## Model

| member | source | states |
|---|---|---|
| `AppComponent.App.constructor` | App.tsx:8-22 | the first render: `Idle`, empty topic and script, no error, no audio, no context, no source, both time refs 0; the state is valid |
| `AppComponent.App.PlayAudio` | App.tsx:81-106 | the new state is `Transport.PlayAudio` of the old state and `now`; validity is kept when the clock does not run backwards |
| `AppComponent.App.PauseAudio` | App.tsx:108-115 | the new state is `Transport.PauseAudio` of the old state and `now`; validity is kept when the clock does not run backwards |
| `AppComponent.App.StopAudio` | App.tsx:117-124 | the new state is `Transport.StopAudio` of the old state; validity is kept |
| `AppComponent.App.TogglePlay` | App.tsx:126-132 | when the old state is `Playing`, the new state is what `pauseAudio` would leave; in every other state it is what `playAudio` would leave |
| `AppComponent.App.ResetApp` | App.tsx:134-141 | the new state is `Transport.ResetApp` of the old state, so `stopAudio`'s `ReadyToPlay` is overwritten by `Idle`; validity is kept |
| `AppComponent.App.SourceEnded` | App.tsx:96-102 | the new state is `Transport.SourceEnded` of the old state, the time it runs and the clip it was created for |
| `AppComponent.App.SetTopic` | App.tsx:181 | only the topic changes |
| `AppComponent.App.BeginGenerateScript` | App.tsx:35-45 | the request goes out iff the topic is not blank after `trim`; the new state is `Transport.BeginScript` of the old state |
| `AppComponent.App.CompleteGenerateScript` | App.tsx:46-53 | the new state is `Transport.CompleteScript` of the old state and the outcome |
| `AppComponent.App.BeginGenerateAudio` | App.tsx:56-60 | the request goes out iff the script is not empty; the new state is `Transport.BeginAudio` of the old state |
| `AppComponent.App.CompleteGenerateAudio` | App.tsx:62-78 | the new state is `Transport.CompleteAudio` of the old state and the outcome |
| `Text.TrimStartSpec` | App.tsx:37 | trimming the front keeps the longest suffix that does not start with white space; everything dropped is white space |
| `Text.TrimEndSpec` | App.tsx:37 | trimming the end keeps the longest prefix that does not end with white space; everything dropped is white space |
| `Text.TrimStartAllSpace` | App.tsx:37 | a string made only of white space trims to the empty string |
| `Text.BlankIffAllSpace` | App.tsx:37 | `!topic.trim()` holds iff every character of the topic is white space, in both directions |
| `TransportProperties.PlayAudioEffect` | App.tsx:81-106 | without a context or a buffer nothing changes; otherwise start reference = `now` − stored offset, a source is installed, state `Playing`, and nothing else changes (the stored offset in particular) |
| `TransportProperties.PlayAudioIgnoresAppState` | App.tsx:81-106 | the result of `playAudio` does not depend on `appState` |
| `TransportProperties.PauseAudioEffect` | App.tsx:108-115 | with a source and a context: stored offset = `now` − start reference, no source, `Paused`, nothing else changes; without a source nothing changes |
| `TransportProperties.PlayThenPause` | App.tsx:90-111 | play at `t0` from offset `o`, then pause at `t1`, stores `o + (t1 − t0)` and ends paused with no source |
| `TransportProperties.PauseThenResume` | App.tsx:90-111 | resuming moves the start reference forward by exactly the paused interval, so elapsed time continues where it stopped |
| `TransportProperties.CyclesAccumulate` | App.tsx:90-111 | over any number of play/pause cycles the stored offset grows by exactly the sum of the played intervals; it ends paused with no source |
| `TransportProperties.StopAudioEffect` | App.tsx:117-124 | from any state: no source, offset 0, `ReadyToPlay`, nothing else changes |
| `TransportProperties.StopAudioIdempotent` | App.tsx:117-124 | stopping twice is the same as stopping once |
| `TransportProperties.SourceEndedEffect` | App.tsx:96-102 | with a context and elapsed ≥ duration − 0.5: `ReadyToPlay` and offset 0, nothing else changes; with elapsed < duration − 0.5: nothing changes; the source handle is never touched and `appState` is never read |
| `TransportProperties.StopThenEnded` | App.tsx:96-124 | the end notification that a stop triggers changes nothing further |
| `TransportProperties.ResetThenEnded` | App.tsx:96-141 | the end notification a reset triggers, with a context and elapsed ≥ duration − 0.5, turns the reset's `Idle` into `ReadyToPlay` with empty topic and script, no audio, no buffer, no source and offset 0; otherwise it leaves the reset state unchanged |
| `TransportProperties.PauseThenEnded` | App.tsx:96-115 | a pause's own end notification keeps the paused position iff the elapsed time is short of duration − 0.5; otherwise it resets to `ReadyToPlay` at offset 0 |
| `TransportProperties.NaturalEndKeepsSource` | App.tsx:96-105 | after a clip plays out: `ReadyToPlay`, offset 0, and the source still held, so "`Playing` iff a source" fails |
| `TransportProperties.TogglePlayDispatch` | App.tsx:126-132 | `togglePlay` is `pauseAudio` while `Playing` and `playAudio` in every other state |
| `TransportProperties.ResetAppEffect` | App.tsx:134-141 | `Idle`, empty topic and script, no audio, no buffer, no source, offset 0; the error, the spinner flag, the context and the start reference are kept; resetting twice is resetting once. This is the state right after the handler; the end notification the reset triggers can still change it (`ResetThenEnded`) |
| `TransportProperties.ScriptGenerationEffect` | App.tsx:35-54 | a blank topic changes nothing; otherwise script, audio, buffer, error and offset are cleared; success ends `ReadyToPlay` with the returned script, failure ends `Idle` with the script error; the source, start reference, context and spinner are never touched |
| `TransportProperties.AudioGenerationEffect` | App.tsx:56-79 | without a script nothing changes; otherwise a context exists from then on; success stores the buffer and sets `hasAudio`, failure sets the audio error; the spinner is off either way; neither outcome changes `appState` or the playback fields |
| `TransportProperties.StepKeepsHealthy` | App.tsx:81-141 | every handler keeps "`Playing` implies a source", a non-negative offset and a start reference not after the clock, provided the clock does not run backwards |
| `TransportProperties.RunKeepsHealthy` | App.tsx:81-141 | the same invariant holds after any trace of events whose clock readings do not run backwards |
| `TransportProperties.ReachableHealthy` | App.tsx:81-141 | in every state reachable from the first render, `Playing` implies a source and the offset given to `source.start` is not negative |
| `TransportProperties.AskForScript` | App.tsx:35-54 | typing a non-blank topic and getting a script back ends `ReadyToPlay` with that script, offset 0, no audio and no error |
| `TransportProperties.ListenToTheEnd` | App.tsx:56-105 | requesting audio, getting a clip, playing from 0 and ending no sooner than 0.5 s before its end leaves `ReadyToPlay` at offset 0 with the source still held |
| `TransportProperties.EndToEnd` | App.tsx:35-105 | the seven-event trace from the first render (topic "Anxiety", script requested and returned, audio requested and a 5 s clip returned, play at 0, end notification at 5.5 s) ends `ReadyToPlay` at offset 0, the script shown, the finished source still held |
| `TransportProperties.EndToEndPhases` | App.tsx:35-105 | the same scenario run as its script phase followed by its audio phase reaches the same outcome |
| `TransportProperties.RunAppend` | App.tsx:35-141 | reacting to two traces one after the other is reacting to their concatenation, which lets the scenario be stated as one trace |

## Left out

- The text and speech service calls (`services/geminiService.ts`): prompts, model names and
  response parsing. They appear only as a success-or-failure outcome.
- The PCM decoder `decodeAudioData`: `services/audioUtils.ts` is not part of this model. A
  decoded buffer is an opaque clip with a `duration`.
- Web Audio calls: creating and resuming the `AudioContext` (App.tsx:25-33), and
  `createBufferSource`, `connect`, `start` and `stop` (App.tsx:85-91, 110, 119). A possible
  exception from the `AudioContext` constructor, and the unreachable "init failed" throw at
  App.tsx:64-66, are not modelled.
- `AppComponent.App.PlayAudio`: the source handle is a flag, so a play while an earlier source
  is still sounding cannot show two live sources; the earlier handle is simply overwritten,
  as the ref is.
- Floating point: the clock and the offsets are exact `real`s, not IEEE doubles.
- React scheduling: setter batching, re-rendering and stale closures are not modelled.
  Within one handler the last write to a field wins. Each async handler is a begin step and
  a completion step with no interleaving constraint between them. When the browser delivers
  `onended` is left to whoever builds the trace; the callback's captured buffer is an
  explicit `clip` argument.
- `console.error` logging, `e.preventDefault()`, the Italian error texts (modelled as two
  error kinds), the presentational components (`components/Controls.tsx`,
  `components/Visualizer.tsx`) and the unused `MeditationSession` and `AudioState`
  interfaces in `types.ts`.
