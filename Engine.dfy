/**
 * The waveform/transport engine (WaveSurfer with its regions plugin) seen
 * from the hook: an object that records every command it receives in a
 * ghost log. Decoding, rendering and audio output are not modelled; the
 * decoded duration is an input.
 */
module Engine {
  import opened Media

  /** A command the hook sends to the engine or to one of its regions. */
  datatype Call =
    | LoadBlob(file: File)
    | PlayPause
    | SetTime(time: real)
    | AddRegion(start: real, end: real)
    | ClearRegions
    | PlayRegion(start: real, end: real)
    | Destroy

  class WaveSurfer {
    /** What `getDuration()` answers, in seconds. */
    var duration: real
    /** Every command received so far, oldest first. */
    ghost var log: seq<Call>

    /** `WaveSurfer.create(...)`: a fresh engine that has received nothing yet. */
    constructor Create(duration: real)
      ensures this.duration == duration && log == []
    {
      this.duration := duration;
      log := [];
    }

    method LoadBlob(file: File)
      modifies this
      ensures duration == old(duration) && log == old(log) + [Call.LoadBlob(file)]
    {
      log := log + [Call.LoadBlob(file)];
    }

    method PlayPause()
      modifies this
      ensures duration == old(duration) && log == old(log) + [Call.PlayPause]
    {
      log := log + [Call.PlayPause];
    }

    method SetTime(time: real)
      modifies this
      ensures duration == old(duration) && log == old(log) + [Call.SetTime(time)]
    {
      log := log + [Call.SetTime(time)];
    }

    method AddRegion(start: real, end: real)
      modifies this
      ensures duration == old(duration) && log == old(log) + [Call.AddRegion(start, end)]
    {
      log := log + [Call.AddRegion(start, end)];
    }

    method ClearRegions()
      modifies this
      ensures duration == old(duration) && log == old(log) + [Call.ClearRegions]
    {
      log := log + [Call.ClearRegions];
    }

    method PlayRegion(start: real, end: real)
      modifies this
      ensures duration == old(duration) && log == old(log) + [Call.PlayRegion(start, end)]
    {
      log := log + [Call.PlayRegion(start, end)];
    }

    method Destroy()
      modifies this
      ensures duration == old(duration) && log == old(log) + [Call.Destroy]
    {
      log := log + [Call.Destroy];
    }

    /** `getDuration()`: reads, changes nothing. */
    method GetDuration() returns (d: real)
      ensures d == duration
    {
      d := duration;
    }
  }
}
