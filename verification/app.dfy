/** The app component itself: its React state and refs as the fields of one object, and its
    handlers as methods that update them in place. Each method is proved to leave exactly the
    state the matching `Transport` function describes, and to keep the component `Valid`. */
module AppComponent {
  import opened Types
  import Text
  import Transport

  class App {
    var appState: AppState
    var topic: string
    var script: string
    var error: Option<ErrorKind>
    var isLoadingAudio: bool
    var hasAudio: bool
    var audioBuffer: Option<AudioClip>
    var hasContext: bool   // audioContextRef
    var hasSource: bool    // audioSourceRef
    var startTime: real    // startTimeRef
    var pausedAt: real     // pausedAtRef

    /** The latest audio-clock reading any handler has seen. */
    ghost var clock: real

    /** The component's state as a value. */
    function Model(): Transport.Session
      reads this
    {
      Transport.Session(appState, topic, script, error, isLoadingAudio, hasAudio, audioBuffer,
                        hasContext, hasSource, startTime, pausedAt)
    }

    /** Playing implies a live source; the stored offset is not negative; the start reference
        is not later than the latest clock reading. The constructor establishes it and every
        handler keeps it as long as the audio clock does not run backwards. */
    ghost predicate Valid()
      reads this
    {
      Transport.Healthy(Model(), clock)
    }

    /** The first render. */
    constructor ()
      ensures Valid() && Model() == Transport.Initial() && clock == 0.0
    {
      appState, topic, script, error := Idle, "", "", None;
      isLoadingAudio, hasAudio, audioBuffer := false, false, None;
      hasContext, hasSource, startTime, pausedAt := false, false, 0.0, 0.0;
      clock := 0.0;
    }

    /** `playAudio`. In a valid state the stored offset it hands to `source.start` is not
        negative. */
    method PlayAudio(now: real)
      modifies this
      ensures old(Valid()) && old(clock) <= now ==> Valid()
      ensures clock == now
      ensures Model() == Transport.PlayAudio(old(Model()), now)
    {
      if !hasContext || audioBuffer.None? {
        clock := now;
        return;
      }
      var offset := pausedAt;
      startTime := now - offset;
      hasSource := true;
      appState := Playing;
      clock := now;
    }

    /** `pauseAudio`. */
    method PauseAudio(now: real)
      modifies this
      ensures old(Valid()) && old(clock) <= now ==> Valid()
      ensures clock == now
      ensures Model() == Transport.PauseAudio(old(Model()), now)
    {
      if hasSource && hasContext {
        pausedAt := now - startTime;
        hasSource := false;
        appState := Paused;
      }
      clock := now;
    }

    /** `stopAudio`. */
    method StopAudio()
      modifies this
      ensures old(Valid()) ==> Valid()
      ensures clock == old(clock)
      ensures Model() == Transport.StopAudio(old(Model()))
    {
      if hasSource {
        hasSource := false;
      }
      pausedAt := 0.0;
      appState := ReadyToPlay;
    }

    /** `togglePlay`: `pauseAudio` while playing, `playAudio` otherwise. */
    method TogglePlay(now: real)
      modifies this
      ensures old(Valid()) && old(clock) <= now ==> Valid()
      ensures clock == now
      ensures old(appState) == Playing ==> Model() == Transport.PauseAudio(old(Model()), now)
      ensures old(appState) != Playing ==> Model() == Transport.PlayAudio(old(Model()), now)
    {
      if appState == Playing {
        PauseAudio(now);
      } else {
        PlayAudio(now);
      }
    }

    /** `resetApp`: `stopAudio`, then the session is cleared; the last write to `appState`
        (`Idle`) wins over the one `stopAudio` made. */
    method ResetApp()
      modifies this
      ensures old(Valid()) ==> Valid()
      ensures clock == old(clock)
      ensures Model() == Transport.ResetApp(old(Model()))
    {
      StopAudio();
      topic := "";
      script := "";
      hasAudio := false;
      audioBuffer := None;
      appState := Idle;
    }

    /** The `onended` callback of a source created for `clip`, run at `now`. */
    method SourceEnded(now: real, clip: AudioClip)
      modifies this
      ensures old(Valid()) && old(clock) <= now ==> Valid()
      ensures clock == now
      ensures Model() == Transport.SourceEnded(old(Model()), now, clip)
    {
      if hasContext && Transport.LooksFinished(Model(), now, clip) {
        appState := ReadyToPlay;
        pausedAt := 0.0;
      }
      clock := now;
    }

    /** The topic input and the suggestion buttons. */
    method SetTopic(t: string)
      modifies this
      ensures old(Valid()) ==> Valid()
      ensures clock == old(clock)
      ensures Model() == Transport.SetTopic(old(Model()), t)
    {
      topic := t;
    }

    /** `handleGenerateScript` up to its `await`; `started` says whether the request goes out
        (the topic is not blank). */
    method BeginGenerateScript() returns (started: bool)
      modifies this
      ensures old(Valid()) ==> Valid()
      ensures clock == old(clock)
      ensures started <==> !Text.IsBlank(old(topic))
      ensures Model() == Transport.BeginScript(old(Model()))
    {
      started := !Text.IsBlank(topic);
      if started {
        appState := GeneratingScript;
        error := None;
        script := "";
        hasAudio := false;
        audioBuffer := None;
        pausedAt := 0.0;
      }
    }

    /** `handleGenerateScript` once the script request settles. */
    method CompleteGenerateScript(outcome: Outcome<string>)
      modifies this
      ensures old(Valid()) ==> Valid()
      ensures clock == old(clock)
      ensures Model() == Transport.CompleteScript(old(Model()), outcome)
    {
      match outcome
      case Success(text) =>
        script := text;
        appState := ReadyToPlay;
      case Failure =>
        error := Some(ScriptFailed);
        appState := Idle;
    }

    /** `handleGenerateAudio` up to its `await`; `started` says whether the request goes out
        (there is a script). */
    method BeginGenerateAudio() returns (started: bool)
      modifies this
      ensures old(Valid()) ==> Valid()
      ensures clock == old(clock)
      ensures started <==> old(script) != ""
      ensures Model() == Transport.BeginAudio(old(Model()))
    {
      if script == "" {
        return false;
      }
      hasContext := true;
      isLoadingAudio := true;
      error := None;
      started := true;
    }

    /** `handleGenerateAudio` once the speech request settles. */
    method CompleteGenerateAudio(outcome: Outcome<AudioClip>)
      modifies this
      ensures old(Valid()) ==> Valid()
      ensures clock == old(clock)
      ensures Model() == Transport.CompleteAudio(old(Model()), outcome)
    {
      match outcome
      case Success(clip) =>
        audioBuffer := Some(clip);
        hasAudio := true;
        isLoadingAudio := false;
      case Failure =>
        error := Some(AudioFailed);
        isLoadingAudio := false;
    }
  }
}
