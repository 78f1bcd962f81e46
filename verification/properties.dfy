/** What the transport handlers guarantee, one handler at a time and over whole event traces. */
module TransportProperties {
  import opened Types
  import Text
  import opened Transport

  // ---------------------------------------------------------------------------------------
  // One handler at a time

  /** `playAudio` changes nothing without a context or a buffer; otherwise it sets the start
      reference to `now` minus the stored offset, installs a source and shows `Playing`, and
      touches no other field (in particular not the stored offset). */
  lemma PlayAudioEffect(s: Session, now: real)
    ensures !CanPlay(s) ==> PlayAudio(s, now) == s
    ensures CanPlay(s) ==>
      var r := PlayAudio(s, now);
      r.startTime == now - s.pausedAt && r.hasSource && r.appState == Playing
      && r.pausedAt == s.pausedAt
      && r.(startTime := s.startTime, hasSource := s.hasSource, appState := s.appState) == s
  {
  }

  /** `playAudio` does not look at `appState`: two sessions that differ only there end the
      same. */
  lemma PlayAudioIgnoresAppState(s: Session, other: AppState, now: real)
    requires CanPlay(s)
    ensures PlayAudio(s.(appState := other), now) == PlayAudio(s, now)
  {
  }

  /** `pauseAudio` with a source (and a context) stores `now` minus the start reference, drops
      the source and shows `Paused`, touching nothing else; without a source it changes
      nothing. */
  lemma PauseAudioEffect(s: Session, now: real)
    ensures s.hasSource && s.hasContext ==>
      var r := PauseAudio(s, now);
      r.pausedAt == now - s.startTime && !r.hasSource && r.appState == Paused
      && r.(pausedAt := s.pausedAt, hasSource := s.hasSource, appState := s.appState) == s
    ensures !s.hasSource ==> PauseAudio(s, now) == s
  {
  }

  /** Play at `t0` from offset `o`, pause at `t1`: the stored offset becomes `o + (t1 - t0)`. */
  lemma PlayThenPause(s: Session, t0: real, t1: real)
    requires CanPlay(s)
    ensures var r := PauseAudio(PlayAudio(s, t0), t1);
      r.pausedAt == s.pausedAt + (t1 - t0) && r.appState == Paused && !r.hasSource
  {
  }

  /** Resuming after a pause moves the start reference forward by exactly the time spent
      paused, so the elapsed time measured from it picks up where it stopped. */
  lemma PauseThenResume(s: Session, t: real, t': real)
    requires CanPlay(s) && s.hasSource
    ensures PlayAudio(PauseAudio(s, t), t').startTime == s.startTime + (t' - t)
  {
  }

  /** `stopAudio` always ends with no source, offset zero and `ReadyToPlay`, whatever came
      before, and touches nothing else. */
  lemma StopAudioEffect(s: Session)
    ensures var r := StopAudio(s);
      !r.hasSource && r.pausedAt == 0.0 && r.appState == ReadyToPlay
      && r.(hasSource := s.hasSource, pausedAt := s.pausedAt, appState := s.appState) == s
  {
  }

  /** Stopping twice is stopping once. */
  lemma StopAudioIdempotent(s: Session)
    ensures StopAudio(StopAudio(s)) == StopAudio(s)
  {
  }

  /** The `onended` callback resets to `ReadyToPlay` at offset zero exactly when the elapsed
      time is at least the clip length minus 0.5 s (given a context); otherwise it changes
      nothing. Either way it keeps the source handle and never reads `appState`. */
  lemma SourceEndedEffect(s: Session, now: real, clip: AudioClip)
    ensures var r := SourceEnded(s, now, clip);
      r.hasSource == s.hasSource
      && (s.hasContext && LooksFinished(s, now, clip) ==>
            r == s.(appState := ReadyToPlay, pausedAt := 0.0))
      && (!LooksFinished(s, now, clip) ==> r == s)
    ensures forall other: AppState ::
      SourceEnded(s.(appState := other), now, clip).(appState := s.appState)
      == SourceEnded(s, now, clip).(appState := s.appState)
  {
  }

  /** The `onended` notification that a stop itself triggers changes nothing further. */
  lemma StopThenEnded(s: Session, now: real, clip: AudioClip)
    ensures SourceEnded(StopAudio(s), now, clip) == StopAudio(s)
  {
  }

  /** The notification that a pause triggers, delivered at `now`, keeps the paused position
      exactly when the elapsed time is short of the clip length minus 0.5 s; otherwise the
      pause is taken for a natural end and the position is lost. */
  lemma PauseThenEnded(s: Session, t: real, now: real, clip: AudioClip)
    requires s.hasSource && s.hasContext
    ensures var p := PauseAudio(s, t);
      (SourceEnded(p, now, clip) == p <==> !LooksFinished(s, now, clip))
      && (LooksFinished(s, now, clip) ==>
            SourceEnded(p, now, clip).appState == ReadyToPlay
            && SourceEnded(p, now, clip).pausedAt == 0.0)
  {
  }

  /** The end notification that a reset itself triggers (through `stopAudio`) undoes the
      reset's `Idle` when the elapsed time is within 0.5 s of the clip's end or beyond: the
      player screen comes back, with an empty topic and script and no audio. Short of that
      it changes nothing. */
  lemma ResetThenEnded(s: Session, now: real, clip: AudioClip)
    ensures s.hasContext && LooksFinished(s, now, clip) ==>
      var r := SourceEnded(ResetApp(s), now, clip);
      r.appState == ReadyToPlay && r.topic == "" && r.script == "" && !r.hasAudio
      && r.audioBuffer == None && !r.hasSource && r.pausedAt == 0.0
    ensures !(s.hasContext && LooksFinished(s, now, clip)) ==>
      SourceEnded(ResetApp(s), now, clip) == ResetApp(s)
  {
  }

  /** A clip that plays out is reported as ready to play again at offset zero, while the
      finished source is still held: "playing iff a source exists" does not survive a
      natural end. */
  lemma NaturalEndKeepsSource(s: Session, t0: real, t1: real, clip: AudioClip)
    requires CanPlay(s) && t1 - t0 + s.pausedAt >= clip.duration - EndTolerance
    ensures var r := SourceEnded(PlayAudio(s, t0), t1, clip);
      r.appState == ReadyToPlay && r.pausedAt == 0.0 && r.hasSource
      && !(r.appState == Playing <==> r.hasSource)
  {
  }

  /** `togglePlay` is `pauseAudio` while playing and `playAudio` in every other state. */
  lemma TogglePlayDispatch(s: Session, now: real)
    ensures s.appState == Playing ==> TogglePlay(s, now) == PauseAudio(s, now)
    ensures s.appState != Playing ==> TogglePlay(s, now) == PlayAudio(s, now)
  {
  }

  /** `resetApp` leaves the topic form showing with an empty session, playback stopped as by
      `stopAudio`; the error message, the spinner flag, the audio context and the start
      reference are left as they were. Resetting twice is resetting once. This is the state
      the handler leaves; `ResetThenEnded` shows what the source's end notification can still
      do to it. */
  lemma ResetAppEffect(s: Session)
    ensures var r := ResetApp(s);
      r.appState == Idle && r.topic == "" && r.script == "" && !r.hasAudio
      && r.audioBuffer == None && !r.hasSource && r.pausedAt == 0.0
      && r.error == s.error && r.isLoadingAudio == s.isLoadingAudio
      && r.hasContext == s.hasContext && r.startTime == s.startTime
    ensures ResetApp(ResetApp(s)) == ResetApp(s)
  {
  }

  /** Script generation: a blank topic changes nothing; otherwise the previous script, audio,
      error and offset are cleared, and the request ends in `ReadyToPlay` with the returned
      script or in `Idle` with an error. The source, the start reference, the context and the
      spinner flag are never touched. */
  lemma ScriptGenerationEffect(s: Session, outcome: Outcome<string>)
    ensures Text.IsBlank(s.topic) ==> BeginScript(s) == s
    ensures !Text.IsBlank(s.topic) ==>
      var b := BeginScript(s);
      b.appState == GeneratingScript && b.script == "" && !b.hasAudio
      && b.audioBuffer == None && b.error == None && b.pausedAt == 0.0
    ensures !Text.IsBlank(s.topic) ==>
      var r := CompleteScript(BeginScript(s), outcome);
      r.hasSource == s.hasSource && r.startTime == s.startTime && r.hasContext == s.hasContext
      && r.isLoadingAudio == s.isLoadingAudio && r.topic == s.topic
      && !r.hasAudio && r.audioBuffer == None && r.pausedAt == 0.0
      && (outcome.Success? ==> r.appState == ReadyToPlay && r.script == outcome.value && r.error == None)
      && (outcome.Failure? ==> r.appState == Idle && r.script == "" && r.error == Some(ScriptFailed))
  {
  }

  /** Audio generation: without a script nothing changes; otherwise the context exists from
      then on, and the request ends with the buffer stored and `hasAudio` set, or with an
      error; the spinner is off either way. Neither outcome changes `appState` or the
      playback fields. */
  lemma AudioGenerationEffect(s: Session, outcome: Outcome<AudioClip>)
    ensures s.script == "" ==> BeginAudio(s) == s
    ensures s.script != "" ==>
      var b := BeginAudio(s);
      b.hasContext && b.isLoadingAudio && b.error == None
    ensures s.script != "" ==>
      var r := CompleteAudio(BeginAudio(s), outcome);
      r.hasContext && !r.isLoadingAudio
      && r.appState == s.appState && r.hasSource == s.hasSource
      && r.startTime == s.startTime && r.pausedAt == s.pausedAt && r.script == s.script
      && (outcome.Success? ==> r.audioBuffer == Some(outcome.value) && r.hasAudio && r.error == None)
      && (outcome.Failure? ==> r.audioBuffer == s.audioBuffer && r.hasAudio == s.hasAudio
                               && r.error == Some(AudioFailed))
  {
  }

  // ---------------------------------------------------------------------------------------
  // Whole traces

  /** Running `a` then `b` is running `a + b`. */
  lemma {:induction false} RunAppend(s: Session, a: seq<Event>, b: seq<Event>)
    ensures Run(s, a + b) == Run(Run(s, a), b)
    decreases |a|
  {
    if a == [] {
      assert a + b == b;
    } else {
      assert (a + b)[0] == a[0];
      assert (a + b)[1..] == a[1..] + b;
      RunAppend(Step(s, a[0]), a[1..], b);
    }
  }

  /** Running `[e] + rest` is one step followed by `rest`. */
  lemma RunCons(s: Session, e: Event, rest: seq<Event>)
    ensures Run(s, [e] + rest) == Run(Step(s, e), rest)
  {
  }

  /** Every handler keeps a playing state's source and a sound offset, provided the clock does
      not run backwards. */
  lemma StepKeepsHealthy(s: Session, since: real, e: Event)
    requires Healthy(s, since)
    requires Clock(e).Some? ==> since <= Clock(e).value
    ensures Healthy(Step(s, e), Advance(since, e))
  {
  }

  /** Over any trace whose clock readings do not run backwards, `Playing` implies a source, the
      stored offset stays non-negative and the start reference stays in the past. */
  lemma {:induction false} RunKeepsHealthy(s: Session, since: real, events: seq<Event>)
    requires Healthy(s, since) && MonotoneFrom(since, events)
    ensures Healthy(Run(s, events), LastClock(since, events))
    decreases |events|
  {
    if events != [] {
      StepKeepsHealthy(s, since, events[0]);
      RunKeepsHealthy(Step(s, events[0]), Advance(since, events[0]), events[1..]);
    }
  }

  /** From the first render, every reachable state has a source whenever it is `Playing`, and
      never holds a negative offset for `source.start` to be given. */
  lemma ReachableHealthy(events: seq<Event>)
    requires MonotoneFrom(0.0, events)
    ensures var r := Run(Initial(), events);
      (r.appState == Playing ==> r.hasSource) && 0.0 <= r.pausedAt
  {
    RunKeepsHealthy(Initial(), 0.0, events);
  }

  /** A play at the first time of each span followed by a pause at the second. */
  function PlayPauseCycles(spans: seq<(real, real)>): seq<Event>
    decreases |spans|
  {
    if spans == [] then [] else [Play(spans[0].0), Pause(spans[0].1)] + PlayPauseCycles(spans[1..])
  }

  /** The total time played over the spans. */
  function PlayedTime(spans: seq<(real, real)>): real
    decreases |spans|
  {
    if spans == [] then 0.0 else (spans[0].1 - spans[0].0) + PlayedTime(spans[1..])
  }

  /** Across any number of play/pause cycles the stored offset grows by exactly the time spent
      playing, and the transport ends paused with no source. */
  lemma {:induction false} CyclesAccumulate(s: Session, spans: seq<(real, real)>)
    requires CanPlay(s)
    ensures var r := Run(s, PlayPauseCycles(spans));
      r.pausedAt == s.pausedAt + PlayedTime(spans) && CanPlay(r)
      && (spans != [] ==> r.appState == Paused && !r.hasSource)
    decreases |spans|
  {
    if spans != [] {
      var t0, t1 := spans[0].0, spans[0].1;
      var rest := PlayPauseCycles(spans[1..]);
      var mid := PauseAudio(PlayAudio(s, t0), t1);
      RunCons(s, Play(t0), [Pause(t1)] + rest);
      RunCons(PlayAudio(s, t0), Pause(t1), rest);
      assert PlayPauseCycles(spans) == [Play(t0)] + ([Pause(t1)] + rest);
      CyclesAccumulate(mid, spans[1..]);
    }
  }

  /** Asking for audio for a script, getting `clip`, playing it from the start at `t` and being
      told at `now` that it ended, no sooner than 0.5 s before its end: ready again at offset
      zero, the finished source still held. */
  lemma {:induction false} ListenToTheEnd(s: Session, clip: AudioClip, t: real, now: real)
    requires s.script != "" && s.pausedAt == 0.0 && now - t >= clip.duration - EndTolerance
    ensures var r := Run(s, [AudioRequested, AudioSettled(Success(clip)), Play(t), Ended(now, clip)]);
      r.appState == ReadyToPlay && r.pausedAt == 0.0 && r.hasSource && r.script == s.script
  {
    var play := [AudioRequested, AudioSettled(Success(clip)), Play(t), Ended(now, clip)];
    var s4 := BeginAudio(s);
    var s5 := CompleteAudio(s4, Success(clip));
    var s6 := PlayAudio(s5, t);
    RunCons(s, play[0], play[1..]);
    RunCons(s4, play[1], play[2..]);
    RunCons(s5, play[2], play[3..]);
    RunCons(s6, play[3], []);
    assert play == [play[0]] + play[1..];
    assert play[1..] == [play[1]] + play[2..];
    assert play[2..] == [play[2]] + play[3..];
    assert play[3..] == [play[3]] + [];
  }

  /** Typing a non-blank topic and getting `script` back: the player shows the new script,
      ready to play from offset zero, with no audio yet. */
  lemma {:induction false} AskForScript(s: Session, topic: string, script: string)
    requires !Text.IsBlank(topic)
    ensures var r := Run(s, [EditTopic(topic), ScriptRequested, ScriptSettled(Success(script))]);
      r.appState == ReadyToPlay && r.script == script && r.topic == topic && r.pausedAt == 0.0
      && !r.hasAudio && r.audioBuffer == None && r.error == None
  {
    var ready := [EditTopic(topic), ScriptRequested, ScriptSettled(Success(script))];
    var s1 := SetTopic(s, topic);
    var s2 := BeginScript(s1);
    RunCons(s, ready[0], ready[1..]);
    RunCons(s1, ready[1], ready[2..]);
    RunCons(s2, ready[2], []);
    assert ready == [ready[0]] + ready[1..];
    assert ready[1..] == [ready[1]] + ready[2..];
    assert ready[2..] == [ready[2]] + [];
  }

  /** From the first render: topic "Anxiety", a script, five seconds of audio, play from the
      start, and the end notification at 5.5 s. The player is ready again at offset zero (and
      still holds the finished source). */
  lemma EndToEnd(script: string)
    requires script != ""
    ensures var clip := AudioClip(5.0);
      var r := Run(Initial(), [EditTopic("Anxiety"), ScriptRequested, ScriptSettled(Success(script)),
                               AudioRequested, AudioSettled(Success(clip)), Play(0.0), Ended(5.5, clip)]);
      r.appState == ReadyToPlay && r.pausedAt == 0.0 && r.hasSource && r.script == script
  {
    var clip := AudioClip(5.0);
    var ready := [EditTopic("Anxiety"), ScriptRequested, ScriptSettled(Success(script))];
    var play := [AudioRequested, AudioSettled(Success(clip)), Play(0.0), Ended(5.5, clip)];
    EndToEndPhases(script);
    RunAppend(Initial(), ready, play);
    assert ready + play == [EditTopic("Anxiety"), ScriptRequested, ScriptSettled(Success(script)),
                            AudioRequested, AudioSettled(Success(clip)), Play(0.0), Ended(5.5, clip)];
  }

  /** The scenario of `EndToEnd` in its two phases: getting the script, then the audio. */
  lemma EndToEndPhases(script: string)
    requires script != ""
    ensures var clip := AudioClip(5.0);
      var scripted := Run(Initial(), [EditTopic("Anxiety"), ScriptRequested, ScriptSettled(Success(script))]);
      var r := Run(scripted, [AudioRequested, AudioSettled(Success(clip)), Play(0.0), Ended(5.5, clip)]);
      r.appState == ReadyToPlay && r.pausedAt == 0.0 && r.hasSource && r.script == script
  {
    Text.BlankIffAllSpace("Anxiety");
    assert !Text.IsSpace("Anxiety"[0]);
    AskForScript(Initial(), "Anxiety", script);
    var scripted := Run(Initial(), [EditTopic("Anxiety"), ScriptRequested, ScriptSettled(Success(script))]);
    ListenToTheEnd(scripted, AudioClip(5.0), 0.0, 5.5);
  }
}
