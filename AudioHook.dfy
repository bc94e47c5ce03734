/**
 * The `useAudio` hook as an object: the reducer state it holds, the
 * callbacks it returns, the handlers it registers on the engine and the
 * engine lifecycle effect. Each callback is proved to dispatch what
 * AudioCommands.Exec says and to send the engine exactly the commands it
 * lists, so every lemma of AudioCommands applies to this object.
 */
module AudioHook {
  import opened Wrappers
  import opened Media
  import E = Engine
  import R = AudioReducer
  import C = AudioCommands

  /** What the engine's `getDuration()` answers; 0 when there is no engine. */
  function Duration(ws: E.WaveSurfer?): real
    reads ws
  {
    if ws == null then 0.0 else ws.duration
  }

  class Session {
    var state: R.AudioState

    constructor ()
      ensures state == R.Initial
    {
      state := R.Initial;
    }

    /** `dispatch`: one reducer step. */
    method Dispatch(a: R.Action)
      modifies this
      ensures state == R.Step(old(state), a)
    {
      state := R.Step(state, a);
    }

    /** Whether the loader is shown. */
    function IsLoading(): bool
      reads this
    {
      R.IsLoading(state)
    }

    method SetFile(file: Option<File>)
      modifies this
      ensures state == C.Next(old(state), C.SetFile(file), 0.0)
    {
      Dispatch(R.SetFile(file));
      R.RunShort(old(state), [R.SetFile(file)]);
    }

    method PlayPause()
      modifies this, state.wavesurfer
      ensures var ws := old(state.wavesurfer);
        state == C.Next(old(state), C.PlayPause, old(Duration(ws))) &&
        (ws != null ==> ws.log == old(ws.log) + C.Exec(old(state), C.PlayPause, old(Duration(ws))).calls) &&
        (ws != null ==> ws.duration == old(ws.duration))
    {
      var ws := state.wavesurfer;
      R.RunShort(state, C.Exec(state, C.PlayPause, Duration(ws)).dispatched);
      if ws != null {
        ws.PlayPause();
        Dispatch(R.TogglePlay);
      }
    }

    method Loop(on: bool)
      modifies this, state.wavesurfer
      ensures var ws := old(state.wavesurfer);
        state == C.Next(old(state), C.Loop(on), old(Duration(ws))) &&
        (ws != null ==> ws.log == old(ws.log) + C.Exec(old(state), C.Loop(on), old(Duration(ws))).calls) &&
        (ws != null ==> ws.duration == old(ws.duration))
    {
      var ws := state.wavesurfer;
      R.RunShort(state, C.Exec(state, C.Loop(on), Duration(ws)).dispatched);
      if ws != null {
        if on {
          var duration := ws.GetDuration();
          ws.AddRegion(Or(state.playback.loopStart, 0.0), Or(state.playback.loopEnd, duration));
        } else {
          ws.ClearRegions();
          Dispatch(R.Loop(false));
        }
      }
    }

    method Replay()
      modifies state.wavesurfer
      ensures var ws := old(state.wavesurfer);
        state == C.Next(old(state), C.Replay, old(Duration(ws))) &&
        (ws != null ==> ws.log == old(ws.log) + C.Exec(old(state), C.Replay, old(Duration(ws))).calls) &&
        (ws != null ==> ws.duration == old(ws.duration))
    {
      var ws := state.wavesurfer;
      R.RunShort(state, C.Exec(state, C.Replay, Duration(ws)).dispatched);
      if ws != null {
        if state.playback.isLooping && Truthy(state.playback.loopStart) {
          ws.SetTime(state.playback.loopStart.value);
        } else {
          ws.SetTime(0.0);
        }
      }
    }

    method SetPitch(pitch: real)
      modifies this
      ensures state == C.Next(old(state), C.SetPitch(pitch), 0.0)
    {
      Dispatch(R.SetPitch(pitch));
      R.RunShort(old(state), [R.SetPitch(pitch)]);
    }

    method SetSpeed(speed: real)
      modifies this
      ensures state == C.Next(old(state), C.SetSpeed(speed), 0.0)
    {
      Dispatch(R.SetSpeed(speed));
      R.RunShort(old(state), [R.SetSpeed(speed)]);
    }

    /** The state half of `setZoom`; the debounced engine call is not modelled. */
    method SetZoom(zoom: real)
      modifies this
      ensures state == C.Next(old(state), C.SetZoom(zoom), 0.0)
    {
      R.RunShort(state, C.Exec(state, C.SetZoom(zoom), 0.0).dispatched);
      if state.wavesurfer != null {
        Dispatch(R.SetZoom(zoom));
      }
    }

    /** The metadata effect up to the `await`: raise the flag when a file is set. */
    method RequestMetadata()
      modifies this
      ensures state == C.Next(old(state), C.MetadataRequested, 0.0)
    {
      R.RunShort(state, C.Exec(state, C.MetadataRequested, 0.0).dispatched);
      if state.file.Some? {
        Dispatch(R.SetIsMetadataLoading(true));
      }
    }

    /** The metadata effect after the tag reader answered with `metadata`. */
    method MetadataParsed(metadata: Metadata)
      modifies this
      ensures state == C.Next(old(state), C.MetadataParsed(metadata), 0.0)
    {
      R.RunShort(state, C.Exec(state, C.MetadataParsed(metadata), 0.0).dispatched);
      Dispatch(R.SetMetadata(metadata));
      Dispatch(R.SetIsMetadataLoading(false));
    }

    /** Handler of the engine's `ready` event. */
    method OnReady()
      modifies this
      ensures state == C.Next(old(state), C.Ready, 0.0)
    {
      Dispatch(R.SetIsWavesurferLoading(false));
      R.RunShort(old(state), [R.SetIsWavesurferLoading(false)]);
    }

    /** Handler of the regions plugin's `region-created` event. */
    method OnRegionCreated()
      modifies this
      ensures state == C.Next(old(state), C.RegionCreated, 0.0)
    {
      Dispatch(R.Loop(true));
      R.RunShort(old(state), [R.Loop(true)]);
    }

    /** Handler of the regions plugin's `region-updated` event for the region [start, end]. */
    method OnRegionUpdated(start: real, end: real)
      modifies this
      ensures state == C.Next(old(state), C.RegionUpdated(start, end), 0.0)
    {
      R.RunShort(state, [R.SetLoopStart(Some(start)), R.SetLoopEnd(Some(end))]);
      Dispatch(R.SetLoopStart(Some(start)));
      Dispatch(R.SetLoopEnd(Some(end)));
    }

    /** Handler of `region-out`: play the region [start, end] of the engine `ws` again; the state is untouched. */
    method OnRegionOut(ws: E.WaveSurfer, start: real, end: real)
      modifies ws
      ensures ws.log == old(ws.log) + [E.PlayRegion(start, end)]
    {
      ws.PlayRegion(start, end);
    }

    /**
     * The engine effect: with a file and a mounted container, raise the
     * engine flag, create an engine, hand it the file and keep it in the
     * state; otherwise do nothing. `duration` is what the new engine will
     * report once it has decoded the file.
     */
    method AttachEngine(containerMounted: bool, duration: real) returns (ws: E.WaveSurfer?)
      modifies this
      ensures ws == null <==> !(old(state).file.Some? && containerMounted)
      ensures ws == null ==> state == old(state)
      ensures ws != null ==>
        && fresh(ws) && ws.duration == duration
        && ws.log == [E.LoadBlob(old(state).file.value)]
        && state == R.Run(old(state), [R.SetIsWavesurferLoading(true), R.SetWavesurfer(ws)])
    {
      ws := null;
      var file := state.file;
      if file.Some? && containerMounted {
        Dispatch(R.SetIsWavesurferLoading(true));
        ws := new E.WaveSurfer.Create(duration);
        ws.LoadBlob(file.value);
        Dispatch(R.SetWavesurfer(ws));
        R.RunShort(old(state), [R.SetIsWavesurferLoading(true), R.SetWavesurfer(ws)]);
      }
    }

    /** The engine effect's cleanup: destroy the engine it created and reset the whole session. */
    method DetachEngine(ws: E.WaveSurfer)
      modifies this, ws
      ensures ws.log == old(ws.log) + [E.Destroy]
      ensures state == R.Initial
    {
      ws.Destroy();
      Dispatch(R.Reset);
    }
  }

  /**
   * A freshly attached engine leaves a coherent session coherent, shows the
   * loader, and is the engine every later callback talks to.
   */
  lemma AttachKeepsCoherent(s: R.AudioState, ws: E.WaveSurfer)
    requires C.Coherent(s)
    ensures var t := R.Run(s, [R.SetIsWavesurferLoading(true), R.SetWavesurfer(ws)]);
      C.Coherent(t) && R.IsLoading(t) && t.wavesurfer == ws && t.file == s.file
  {
    R.RunShort(s, [R.SetIsWavesurferLoading(true), R.SetWavesurfer(ws)]);
  }
}
