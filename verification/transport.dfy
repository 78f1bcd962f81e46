/** The playback transport and session state of the app component, as a value, with one
    function per event handler giving the state the handler leaves behind.

    Web Audio is abstracted: the audio context is a presence flag, the buffer source node is a
    presence flag (`hasSource`), and the context's clock (`currentTime`) is the `now` argument
    of the handlers that read it. React state setters and ref writes are both plain field
    updates; within one handler the last write to a field wins. */
module Transport {
  import opened Types
  import Text

  /** Everything the transport handlers read or write. */
  datatype Session = Session(
    appState: AppState,
    topic: string,
    script: string,
    error: Option<ErrorKind>,
    isLoadingAudio: bool,
    hasAudio: bool,
    audioBuffer: Option<AudioClip>,
    hasContext: bool,   // audioContextRef.current != null
    hasSource: bool,    // audioSourceRef.current != null
    startTime: real,    // startTimeRef.current
    pausedAt: real)     // pausedAtRef.current

  /** The state on first render. */
  function Initial(): Session {
    Session(Idle, "", "", None, false, false, None, false, false, 0.0, 0.0)
  }

  /** The tolerance, in seconds, of the end-of-clip test in the `onended` callback. */
  const EndTolerance: real := 0.5

  /** `playAudio` goes ahead only with an audio context and a decoded buffer. */
  predicate CanPlay(s: Session) {
    s.hasContext && s.audioBuffer.Some?
  }

  /** `playAudio`: start a new source at the stored offset and remember `now - offset` as the
      start reference. The current `appState` is not consulted. */
  function PlayAudio(s: Session, now: real): Session {
    if !CanPlay(s) then s
    else s.(startTime := now - s.pausedAt, hasSource := true, appState := Playing)
  }

  /** `pauseAudio`: with a live source, store the elapsed offset and drop the source. */
  function PauseAudio(s: Session, now: real): Session {
    if s.hasSource && s.hasContext then
      s.(pausedAt := now - s.startTime, hasSource := false, appState := Paused)
    else s
  }

  /** `stopAudio`: drop any source, rewind to zero and show the player as ready. */
  function StopAudio(s: Session): Session {
    s.(hasSource := false, pausedAt := 0.0, appState := ReadyToPlay)
  }

  /** `togglePlay`: pause while playing, play otherwise. */
  function TogglePlay(s: Session, now: real): Session {
    if s.appState == Playing then PauseAudio(s, now) else PlayAudio(s, now)
  }

  /** `resetApp`: stop, then clear the session and go back to the topic form. */
  function ResetApp(s: Session): Session {
    StopAudio(s).(topic := "", script := "", hasAudio := false, audioBuffer := None, appState := Idle)
  }

  /** The end-of-clip heuristic of the `onended` callback: the time elapsed since the start
      reference is within `EndTolerance` of the clip's length, or beyond it. */
  predicate LooksFinished(s: Session, now: real, clip: AudioClip) {
    now - s.startTime >= clip.duration - EndTolerance
  }

  /** The `onended` callback of a source created for `clip`, delivered at `now`. It reads the
      start reference as it is when it runs, not as it was when the source was created. */
  function SourceEnded(s: Session, now: real, clip: AudioClip): Session {
    if s.hasContext && LooksFinished(s, now, clip) then s.(appState := ReadyToPlay, pausedAt := 0.0)
    else s
  }

  /** The topic input's `onChange` and the suggestion buttons. */
  function SetTopic(s: Session, topic: string): Session {
    s.(topic := topic)
  }

  /** `handleGenerateScript` up to its `await`: nothing for a blank topic, otherwise clear the
      previous script, audio, error and offset and show the loading screen. */
  function BeginScript(s: Session): Session {
    if Text.IsBlank(s.topic) then s
    else s.(appState := GeneratingScript, error := None, script := "", hasAudio := false,
            audioBuffer := None, pausedAt := 0.0)
  }

  /** `handleGenerateScript` after its `await` resolves or rejects. */
  function CompleteScript(s: Session, outcome: Outcome<string>): Session {
    match outcome
    case Success(text) => s.(script := text, appState := ReadyToPlay)
    case Failure => s.(error := Some(ScriptFailed), appState := Idle)
  }

  /** `handleGenerateAudio` up to its `await`: nothing without a script, otherwise make sure an
      audio context exists, show the spinner and clear the error. */
  function BeginAudio(s: Session): Session {
    if s.script == "" then s
    else s.(hasContext := true, isLoadingAudio := true, error := None)
  }

  /** `handleGenerateAudio` after its `await` resolves or rejects. */
  function CompleteAudio(s: Session, outcome: Outcome<AudioClip>): Session {
    match outcome
    case Success(clip) => s.(audioBuffer := Some(clip), hasAudio := true, isLoadingAudio := false)
    case Failure => s.(error := Some(AudioFailed), isLoadingAudio := false)
  }

  /** One event the component reacts to. */
  datatype Event =
    | Play(now: real)
    | Pause(now: real)
    | Stop
    | Toggle(now: real)
    | Reset
    | Ended(now: real, clip: AudioClip)
    | EditTopic(topic: string)
    | ScriptRequested
    | ScriptSettled(script: Outcome<string>)
    | AudioRequested
    | AudioSettled(audio: Outcome<AudioClip>)

  function Step(s: Session, e: Event): Session {
    match e
    case Play(now) => PlayAudio(s, now)
    case Pause(now) => PauseAudio(s, now)
    case Stop => StopAudio(s)
    case Toggle(now) => TogglePlay(s, now)
    case Reset => ResetApp(s)
    case Ended(now, clip) => SourceEnded(s, now, clip)
    case EditTopic(topic) => SetTopic(s, topic)
    case ScriptRequested => BeginScript(s)
    case ScriptSettled(outcome) => CompleteScript(s, outcome)
    case AudioRequested => BeginAudio(s)
    case AudioSettled(outcome) => CompleteAudio(s, outcome)
  }

  /** The state after reacting to `events` in order. */
  function Run(s: Session, events: seq<Event>): Session
    decreases |events|
  {
    if events == [] then s else Run(Step(s, events[0]), events[1..])
  }

  /** The audio-clock reading an event carries, if any. */
  function Clock(e: Event): Option<real> {
    match e
    case Play(now) => Some(now)
    case Pause(now) => Some(now)
    case Toggle(now) => Some(now)
    case Ended(now, _) => Some(now)
    case _ => None
  }

  /** The latest clock reading after `e`, given the latest one before it was `since`. */
  function Advance(since: real, e: Event): real {
    match Clock(e)
    case Some(now) => now
    case None => since
  }

  /** The clock readings of `events` never go back before `since` or before one another, as
      `AudioContext.currentTime` never does. */
  predicate MonotoneFrom(since: real, events: seq<Event>)
    decreases |events|
  {
    events == [] ||
    ((Clock(events[0]).Some? ==> since <= Clock(events[0]).value)
     && MonotoneFrom(Advance(since, events[0]), events[1..]))
  }

  /** The latest clock reading after `events`. */
  function LastClock(since: real, events: seq<Event>): real
    decreases |events|
  {
    if events == [] then since else LastClock(Advance(since, events[0]), events[1..])
  }

  /** The one half of "playing iff a source exists" that the handlers keep. */
  predicate PlayingHasSource(s: Session) {
    s.appState == Playing ==> s.hasSource
  }

  /** The stored offset is never negative and the start reference is never in the future
      (so `source.start(0, offset)` is never handed a negative offset). */
  predicate OffsetSound(s: Session, clock: real) {
    0.0 <= s.pausedAt && s.startTime <= clock
  }

  predicate Healthy(s: Session, clock: real) {
    PlayingHasSource(s) && OffsetSound(s, clock)
  }
}
