/**
 * What each callback of the `useAudio` hook, and each engine event it
 * listens to, does to the session: which reducer actions it dispatches and
 * which commands it sends to the engine. The callbacks that need an engine
 * do nothing at all without one. The imperative callbacks in module
 * AudioHook are proved to do exactly this.
 */
module AudioCommands {
  import opened Wrappers
  import opened Media
  import E = Engine
  import R = AudioReducer

  datatype Command =
    // callbacks returned by the hook
    | SetFile(file: Option<File>)
    | PlayPause
    | Loop(on: bool)
    | Replay
    | SetPitch(pitch: real)
    | SetSpeed(speed: real)
    | SetZoom(zoom: real)
    // the metadata effect: started for the current file, then the tag reader's answer
    | MetadataRequested
    | MetadataParsed(metadata: Metadata)
    // events emitted by the engine and its regions plugin
    | Ready
    | RegionCreated
    | RegionUpdated(start: real, end: real)
  {
    /** The callbacks guarded by `if (wavesurfer)`. */
    predicate NeedsEngine() {
      PlayPause? || Loop? || Replay? || SetZoom?
    }

    /** The events that only a live engine emits. */
    predicate FromEngine() {
      Ready? || RegionCreated? || RegionUpdated?
    }
  }

  /** What one callback or event does: the actions it dispatches and the engine commands it issues, in order. */
  datatype Effect = Effect(dispatched: seq<R.Action>, calls: seq<E.Call>)

  /**
   * The effect of `c` in state `s`; `duration` is what the engine's
   * `getDuration()` answers at that moment.
   */
  function Exec(s: R.AudioState, c: Command, duration: real): (r: Effect)
    ensures c.NeedsEngine() && s.wavesurfer == null ==> r == Effect([], [])
    ensures r.calls != [] ==> s.wavesurfer != null
    ensures forall i :: 0 <= i < |r.dispatched| ==> R.WavesurferField !in R.Writes(r.dispatched[i])
    ensures c.Loop? && c.on ==> r.dispatched == []
    ensures c.Replay? ==> r.dispatched == []
    ensures |r.dispatched| <= 2 && |r.calls| <= 1
  {
    match c
    case SetFile(f) => Effect([R.SetFile(f)], [])
    case PlayPause =>
      if s.wavesurfer == null then Effect([], [])
      else Effect([R.TogglePlay], [E.PlayPause])
    case Loop(on) =>
      if s.wavesurfer == null then Effect([], [])
      else if on then Effect([], [E.AddRegion(Or(s.playback.loopStart, 0.0), Or(s.playback.loopEnd, duration))])
      else Effect([R.Loop(false)], [E.ClearRegions])
    case Replay =>
      if s.wavesurfer == null then Effect([], [])
      else if s.playback.isLooping && Truthy(s.playback.loopStart) then Effect([], [E.SetTime(s.playback.loopStart.value)])
      else Effect([], [E.SetTime(0.0)])
    case SetPitch(p) => Effect([R.SetPitch(p)], [])
    case SetSpeed(v) => Effect([R.SetSpeed(v)], [])
    case SetZoom(z) =>
      if s.wavesurfer == null then Effect([], [])
      else Effect([R.SetZoom(z)], [])
    case MetadataRequested =>
      if s.file.Some? then Effect([R.SetIsMetadataLoading(true)], [])
      else Effect([], [])
    case MetadataParsed(m) => Effect([R.SetMetadata(m), R.SetIsMetadataLoading(false)], [])
    case Ready => Effect([R.SetIsWavesurferLoading(false)], [])
    case RegionCreated => Effect([R.Loop(true)], [])
    case RegionUpdated(start, end) => Effect([R.SetLoopStart(Some(start)), R.SetLoopEnd(Some(end))], [])
  }

  /** The session state once the actions `c` dispatches have been reduced. */
  function Next(s: R.AudioState, c: Command, duration: real): R.AudioState {
    R.Run(s, Exec(s, c, duration).dispatched)
  }

  /** `Next` spelled out for the at most two actions a callback dispatches. */
  lemma NextUnfold(s: R.AudioState, c: Command, duration: real)
    ensures var e := Exec(s, c, duration).dispatched;
      && (|e| == 0 ==> Next(s, c, duration) == s)
      && (|e| == 1 ==> Next(s, c, duration) == R.Step(s, e[0]))
      && (|e| == 2 ==> Next(s, c, duration) == R.Step(R.Step(s, e[0]), e[1]))
  {
    R.RunShort(s, Exec(s, c, duration).dispatched);
  }

  /** The state after a sequence of callbacks and events, and every engine command issued on the way. */
  datatype Trace = Trace(state: R.AudioState, calls: seq<E.Call>)

  function Perform(s: R.AudioState, commands: seq<Command>, duration: real): Trace
    decreases |commands|
  {
    if commands == [] then Trace(s, [])
    else
      var rest := Perform(Next(s, commands[0], duration), commands[1..], duration);
      Trace(rest.state, Exec(s, commands[0], duration).calls + rest.calls)
  }

  /**
   * The session invariant: nothing plays and nothing loops unless an engine
   * is attached.
   */
  predicate Coherent(s: R.AudioState) {
    (s.playback.isPlaying || s.playback.isLooping) ==> s.wavesurfer != null
  }

  // ---------------------------------------------------------------------
  // Single callbacks and events.

  /** No callback or event replaces or drops the engine handle. */
  lemma CommandKeepsEngine(s: R.AudioState, c: Command, duration: real)
    ensures Next(s, c, duration).wavesurfer == s.wavesurfer
  {
    R.RunFrame(s, Exec(s, c, duration).dispatched, R.WavesurferField);
  }

  /** Every callback and every event emitted by the live engine keeps the session invariant. */
  lemma CommandKeepsCoherent(s: R.AudioState, c: Command, duration: real)
    requires Coherent(s)
    requires c.FromEngine() ==> s.wavesurfer != null
    ensures Coherent(Next(s, c, duration))
  {
    NextUnfold(s, c, duration);
  }

  /** Two presses of play/pause restore the state and send the transport toggle twice. */
  lemma PlayPauseTwice(s: R.AudioState, duration: real)
    requires s.wavesurfer != null
    ensures Perform(s, [PlayPause, PlayPause], duration) == Trace(s, [E.PlayPause, E.PlayPause])
  {
    var once := Next(s, PlayPause, duration);
    assert once == R.Step(s, R.TogglePlay);
    R.TogglePlayInvolution(s);
    assert Next(once, PlayPause, duration) == s;
  }

  /** `loop(true)` only asks the engine for a region; the flag waits for `region-created`. */
  lemma LoopWaitsForRegion(s: R.AudioState, duration: real)
    requires s.wavesurfer != null
    ensures Next(s, Loop(true), duration) == s
    ensures |Exec(s, Loop(true), duration).calls| == 1 && Exec(s, Loop(true), duration).calls[0].AddRegion?
    ensures Next(Next(s, Loop(true), duration), RegionCreated, duration).playback.isLooping
  {
    NextUnfold(s, Loop(true), duration);
    NextUnfold(s, RegionCreated, duration);
  }

  /** `loop(false)` clears the regions and turns looping off at once. */
  lemma LoopOffStopsLooping(s: R.AudioState, duration: real)
    requires s.wavesurfer != null
    ensures Exec(s, Loop(false), duration).calls == [E.ClearRegions]
    ensures !Next(s, Loop(false), duration).playback.isLooping
    ensures forall f :: f != R.IsLoopingField ==> R.Get(Next(s, Loop(false), duration), f) == R.Get(s, f)
  {
    NextUnfold(s, Loop(false), duration);
  }

  /**
   * A region dragged to a non-zero end is the region `loop(true)` asks for
   * next: the bounds round-trip through the state (a start at 0 reads as the
   * fallback 0 itself).
   */
  lemma RegionRoundTrip(s: R.AudioState, start: real, end: real, duration: real)
    requires s.wavesurfer != null
    requires end != 0.0
    ensures var t := Next(s, RegionUpdated(start, end), duration);
      t.playback.loopStart == Some(start) && t.playback.loopEnd == Some(end) &&
      Exec(t, Loop(true), duration).calls == [E.AddRegion(start, end)]
  {
    NextUnfold(s, RegionUpdated(start, end), duration);
  }

  /**
   * The `||` fallbacks: a bound at 0 is read as missing, so an end at 0
   * becomes the whole duration; inverted bounds are passed on unchanged.
   */
  lemma RegionBoundsFallback(s: R.AudioState, start: real, end: real, duration: real)
    requires s.wavesurfer != null
    ensures var t := Next(s, RegionUpdated(start, end), duration);
      Exec(t, Loop(true), duration).calls ==
        [E.AddRegion(start, if end == 0.0 then duration else end)]
  {
    NextUnfold(s, RegionUpdated(start, end), duration);
  }

  /**
   * `replay` seeks to the start of the current region while looping (a
   * start at 0 seeks to 0 either way), and to the beginning otherwise.
   */
  lemma ReplayTarget(s: R.AudioState, start: real, end: real, duration: real)
    requires s.wavesurfer != null
    ensures var t := Next(s, RegionUpdated(start, end), duration);
      Exec(t, Replay, duration).calls == [E.SetTime(if s.playback.isLooping then start else 0.0)]
  {
    NextUnfold(s, RegionUpdated(start, end), duration);
  }

  /** The metadata effect raises the metadata flag only when a file is set, and the answer lowers it. */
  lemma MetadataFetchSettles(s: R.AudioState, m: Metadata, duration: real)
    ensures Next(s, MetadataRequested, duration).loading.isMetadataLoading == (s.file.Some? || s.loading.isMetadataLoading)
    ensures var t := Next(s, MetadataParsed(m), duration);
      t.metadata == m && !t.loading.isMetadataLoading && R.IsLoading(t) == s.loading.isWavesurferLoading
  {
    NextUnfold(s, MetadataRequested, duration);
    NextUnfold(s, MetadataParsed(m), duration);
  }

  // ---------------------------------------------------------------------
  // Sequences of callbacks and events.

  /** The state after a sequence is the reducer applied to everything it dispatched. */
  lemma {:induction false} PerformKeepsEngine(s: R.AudioState, commands: seq<Command>, duration: real)
    ensures Perform(s, commands, duration).state.wavesurfer == s.wavesurfer
    ensures Perform(s, commands, duration).calls != [] ==> s.wavesurfer != null
    decreases |commands|
  {
    if commands != [] {
      CommandKeepsEngine(s, commands[0], duration);
      PerformKeepsEngine(Next(s, commands[0], duration), commands[1..], duration);
    }
  }

  /**
   * Without an engine, any sequence of play/pause, loop, replay and zoom
   * leaves the session exactly as it was and commands nothing.
   */
  lemma {:induction false} InertWithoutEngine(s: R.AudioState, commands: seq<Command>, duration: real)
    requires s.wavesurfer == null
    requires forall i :: 0 <= i < |commands| ==> commands[i].NeedsEngine()
    ensures Perform(s, commands, duration) == Trace(s, [])
    decreases |commands|
  {
    if commands != [] {
      assert commands[0].NeedsEngine();
      assert Next(s, commands[0], duration) == s;
      InertWithoutEngine(s, commands[1..], duration);
    }
  }

  /**
   * From a coherent state, any sequence of callbacks and of events from the
   * attached engine ends in a coherent state.
   */
  lemma {:induction false} PerformKeepsCoherent(s: R.AudioState, commands: seq<Command>, duration: real)
    requires Coherent(s)
    requires forall i :: 0 <= i < |commands| && commands[i].FromEngine() ==> s.wavesurfer != null
    ensures Coherent(Perform(s, commands, duration).state)
    decreases |commands|
  {
    if commands != [] {
      var t := Next(s, commands[0], duration);
      CommandKeepsCoherent(s, commands[0], duration);
      CommandKeepsEngine(s, commands[0], duration);
      PerformKeepsCoherent(t, commands[1..], duration);
    }
  }

  /**
   * The end-to-end loop scenario: with a 100-second file and no region yet,
   * `loop(true)` asks for [0, 100]; the engine confirms the region; the user
   * drags it to [10, 40]; `replay` then seeks to 10.
   */
  lemma LoopScenario(s: R.AudioState)
    requires s.wavesurfer != null
    requires s.playback.loopStart == None && s.playback.loopEnd == None
    ensures var t := Perform(s, [Loop(true), RegionCreated, RegionUpdated(10.0, 40.0), Replay], 100.0);
      t.calls == [E.AddRegion(0.0, 100.0), E.SetTime(10.0)] &&
      t.state.playback.isLooping &&
      t.state.playback.loopStart == Some(10.0) && t.state.playback.loopEnd == Some(40.0)
  {
    NextUnfold(s, Loop(true), 100.0);
    ScenarioAfterLoop(s);
    PerformStep(s, Loop(true), [RegionCreated, RegionUpdated(10.0, 40.0), Replay], 100.0);
  }

  /** The scenario once the region has been requested. */
  lemma ScenarioAfterLoop(s: R.AudioState)
    requires s.wavesurfer != null
    ensures var t := Perform(s, [RegionCreated, RegionUpdated(10.0, 40.0), Replay], 100.0);
      t.calls == [E.SetTime(10.0)] &&
      t.state.playback.isLooping &&
      t.state.playback.loopStart == Some(10.0) && t.state.playback.loopEnd == Some(40.0)
  {
    var s2 := Next(s, RegionCreated, 100.0);
    NextUnfold(s, RegionCreated, 100.0);
    ScenarioAfterRegion(s2);
    PerformStep(s, RegionCreated, [RegionUpdated(10.0, 40.0), Replay], 100.0);
  }

  /** The scenario once the engine has confirmed the region. */
  lemma ScenarioAfterRegion(s: R.AudioState)
    requires s.wavesurfer != null && s.playback.isLooping
    ensures var t := Perform(s, [RegionUpdated(10.0, 40.0), Replay], 100.0);
      t.calls == [E.SetTime(10.0)] &&
      t.state.playback.isLooping &&
      t.state.playback.loopStart == Some(10.0) && t.state.playback.loopEnd == Some(40.0)
  {
    var s3 := Next(s, RegionUpdated(10.0, 40.0), 100.0);
    NextUnfold(s, RegionUpdated(10.0, 40.0), 100.0);
    NextUnfold(s3, Replay, 100.0);
    PerformStep(s3, Replay, [], 100.0);
    PerformStep(s, RegionUpdated(10.0, 40.0), [Replay], 100.0);
  }

  /** `Perform` on a command followed by more commands. */
  lemma PerformStep(s: R.AudioState, c: Command, rest: seq<Command>, duration: real)
    ensures var t := Perform(Next(s, c, duration), rest, duration);
      Perform(s, [c] + rest, duration) == Trace(t.state, Exec(s, c, duration).calls + t.calls)
  {
    assert ([c] + rest)[0] == c && ([c] + rest)[1..] == rest;
  }
}
