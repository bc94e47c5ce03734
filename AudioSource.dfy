/**
 * The older `useAudioSource` hook: a reducer with explicit play and pause
 * actions, two effects that follow the file (its tags and its contents as a
 * data URL), a player object derived from the contents and the file name,
 * and callbacks that drive that player and then dispatch.
 */
module AudioSource {
  import opened Wrappers
  import opened Media
  import FileName

  datatype Playback = Playback(isPlaying: bool, isLooping: bool, pitch: real, speed: real)

  datatype State = State(file: Option<File>, audioData: Option<string>, metadata: Metadata, playback: Playback)

  /** The state at mount. */
  const Initial: State := State(None, None, EmptyMetadata, Playback(false, false, 0.0, 1.0))

  datatype Action =
    | SetFile(file: Option<File>)
    | SetAudioData(audioData: Option<string>)
    | SetMetadata(metadata: Metadata)
    | Play
    | Pause
    | Loop(isLooping: bool)
    | SetPitch(pitch: real)
    | SetSpeed(speed: real)

  /** The reducer: each field is written by its own action only. */
  function Step(s: State, a: Action): (r: State)
    ensures r.file == if a.SetFile? then a.file else s.file
    ensures r.audioData == if a.SetAudioData? then a.audioData else s.audioData
    ensures r.metadata == if a.SetMetadata? then a.metadata else s.metadata
    ensures r.playback.isPlaying == if a.Play? then true else if a.Pause? then false else s.playback.isPlaying
    ensures r.playback.isLooping == if a.Loop? then a.isLooping else s.playback.isLooping
    ensures r.playback.pitch == if a.SetPitch? then a.pitch else s.playback.pitch
    ensures r.playback.speed == if a.SetSpeed? then a.speed else s.playback.speed
  {
    match a
    case SetFile(f) => s.(file := f)
    case SetAudioData(d) => s.(audioData := d)
    case SetMetadata(m) => s.(metadata := m)
    case Play => s.(playback := s.playback.(isPlaying := true))
    case Pause => s.(playback := s.playback.(isPlaying := false))
    case Loop(b) => s.(playback := s.playback.(isLooping := b))
    case SetPitch(p) => s.(playback := s.playback.(pitch := p))
    case SetSpeed(v) => s.(playback := s.playback.(speed := v))
  }

  /** What the player is built from. */
  datatype SoundConfig = SoundConfig(src: string, format: string)

  /**
   * The memoised player: none unless both the data URL and the file are
   * set (an empty data URL counts as unset); its format is the file name's
   * last extension.
   */
  function SoundOf(s: State): (r: Option<SoundConfig>)
    ensures r.Some? <==> TruthyText(s.audioData) && s.file.Some?
    ensures r.Some? ==> r.value.src == s.audioData.value
    ensures r.Some? ==>
      var name := s.file.value.name; var format := r.value.format;
      && '.' !in format
      && |format| <= |name| && name[|name| - |format|..] == format
      && ('.' !in name ==> format == name)
      && ('.' in name ==> name[|name| - |format| - 1] == '.')
  {
    if !TruthyText(s.audioData) || s.file.None? then None
    else
      var name := s.file.value.name;
      FileName.FormatIsLastExtension(name);
      Some(SoundConfig(s.audioData.value, FileName.Format(name)))
  }

  /** The data URL the file effect dispatches: what the reader produced for a set file, null for a cleared one. */
  function AudioDataFor(file: Option<File>, read: string): Option<string> {
    if file.Some? then Some(read) else None
  }

  /** Both file effects settled: tags and data URL follow the current file. */
  function Settle(s: State, parsed: Metadata, read: string): State {
    Step(Step(s, SetMetadata(MetadataFor(s.file, parsed))), SetAudioData(AudioDataFor(s.file, read)))
  }

  // ---------------------------------------------------------------------

  /** The initial state: no file, no data, empty tags, stopped, not looping, pitch 0, speed 1, and no player. */
  lemma InitialState()
    ensures Initial.file.None? && Initial.audioData.None? && Initial.metadata == EmptyMetadata
    ensures !Initial.playback.isPlaying && !Initial.playback.isLooping
    ensures Initial.playback.pitch == 0.0 && Initial.playback.speed == 1.0
    ensures SoundOf(Initial).None?
  {
  }

  /** `play` and `pause` set the flag whatever it was, and are idempotent. */
  lemma PlayPauseAssign(s: State)
    ensures Step(s, Action.Play).playback.isPlaying && !Step(s, Action.Pause).playback.isPlaying
    ensures Step(Step(s, Action.Play), Action.Play) == Step(s, Action.Play)
    ensures Step(Step(s, Action.Pause), Action.Pause) == Step(s, Action.Pause)
    ensures Step(Step(s, Action.Pause), Action.Play) == Step(s, Action.Play)
    ensures Step(Step(s, Action.Play), Action.Pause) == Step(s, Action.Pause)
  {
  }

  /** Every action is idempotent. */
  lemma StepIdempotent(s: State, a: Action)
    ensures Step(Step(s, a), a) == Step(s, a)
  {
  }

  /** Clearing the file, once both effects have run, empties the tags and the data and drops the player. */
  lemma ClearingFileResets(s: State, parsed: Metadata, read: string)
    ensures var t := Settle(Step(s, SetFile(None)), parsed, read);
      t.file.None? && t.metadata == EmptyMetadata && t.audioData.None? && SoundOf(t).None? &&
      t.playback == s.playback
  {
  }

  /** Loading a file, once both effects have run, yields a player for that file's data and extension. */
  lemma LoadingFileBuildsSound(s: State, f: File, parsed: Metadata, read: string)
    requires read != ""
    ensures var t := Settle(Step(s, SetFile(Some(f))), parsed, read);
      t.metadata == parsed && SoundOf(t) == Some(SoundConfig(read, FileName.Format(f.name)))
  {
  }

  // ---------------------------------------------------------------------
  // The player and the hook object.

  datatype HowlCall = PlayCall | PauseCall | LoopCall(loop: bool)

  /** A Howler `Howl`: records play/pause commands and keeps its own loop flag. */
  class Howl {
    const src: string
    const format: string
    var looping: bool
    ghost var log: seq<HowlCall>

    constructor (config: SoundConfig)
      ensures src == config.src && format == config.format
      ensures !looping && log == []
    {
      src, format := config.src, config.format;
      looping := false;
      log := [];
    }

    method Play()
      modifies this
      ensures looping == old(looping) && log == old(log) + [HowlCall.PlayCall]
    {
      log := log + [HowlCall.PlayCall];
    }

    method Pause()
      modifies this
      ensures looping == old(looping) && log == old(log) + [HowlCall.PauseCall]
    {
      log := log + [HowlCall.PauseCall];
    }

    /** `loop()` with no argument: only reads the loop flag. */
    method LoopFlag() returns (b: bool)
      ensures b == looping
    {
      b := looping;
    }

    /** `loop(b)`: sets the loop flag. */
    method SetLoop(b: bool)
      modifies this
      ensures looping == b && log == old(log) + [HowlCall.LoopCall(b)]
    {
      looping := b;
      log := log + [HowlCall.LoopCall(b)];
    }
  }

  class Hook {
    var state: State
    /** The memoised player, rebuilt whenever the data URL or the file changes. */
    var sound: Howl?

    /** The player matches what the state says it should be built from. */
    ghost predicate Valid()
      reads this
    {
      match SoundOf(state)
      case None => sound == null
      case Some(config) => sound != null && sound.src == config.src && sound.format == config.format
    }

    constructor ()
      ensures Valid() && state == Initial && sound == null
    {
      state := Initial;
      sound := null;
    }

    /** `dispatch`, followed by the memo re-deriving the player when its inputs changed. */
    method Dispatch(a: Action)
      requires Valid()
      modifies this
      ensures Valid() && state == Step(old(state), a)
      ensures state.audioData == old(state.audioData) && state.file == old(state.file) ==> sound == old(sound)
      ensures sound != null && sound != old(sound) ==> fresh(sound) && !sound.looping
      ensures (state.audioData != old(state.audioData) || state.file != old(state.file)) && SoundOf(state).Some? ==> fresh(sound)
    {
      var before := state;
      state := Step(state, a);
      if state.audioData != before.audioData || state.file != before.file {
        var config := SoundOf(state);
        if config.Some? {
          sound := new Howl(config.value);
        } else {
          sound := null;
        }
      }
    }

    method SetFile(file: Option<File>)
      requires Valid()
      modifies this
      ensures Valid() && state == Step(old(state), Action.SetFile(file))
      ensures state.file == old(state.file) ==> sound == old(sound)
      ensures sound != null && sound != old(sound) ==> fresh(sound) && !sound.looping
      ensures state.file != old(state.file) && SoundOf(state).Some? ==> fresh(sound)
    {
      Dispatch(Action.SetFile(file));
    }

    method Play()
      requires Valid()
      modifies this, sound
      ensures Valid() && state == Step(old(state), Action.Play) && sound == old(sound)
      ensures sound != null ==> sound.log == old(sound.log) + [HowlCall.PlayCall] && sound.looping == old(sound.looping)
    {
      if sound != null {
        sound.Play();
      }
      Dispatch(Action.Play);
    }

    method Pause()
      requires Valid()
      modifies this, sound
      ensures Valid() && state == Step(old(state), Action.Pause) && sound == old(sound)
      ensures sound != null ==> sound.log == old(sound.log) + [HowlCall.PauseCall] && sound.looping == old(sound.looping)
    {
      if sound != null {
        sound.Pause();
      }
      Dispatch(Action.Pause);
    }

    /**
     * `loop` as written: `sound?.loop()` passes no argument, so the player
     * is only asked for its flag and keeps it; the state flag is set anyway.
     */
    method LoopAsWritten(isLooping: bool)
      requires Valid()
      modifies this
      ensures Valid() && state == Step(old(state), Action.Loop(isLooping)) && sound == old(sound)
      ensures sound != null ==> sound.looping == old(sound.looping)
    {
      if sound != null {
        var _ := sound.LoopFlag();
      }
      Dispatch(Action.Loop(isLooping));
    }

    /** `loop` as intended: the player's flag follows the state's flag. */
    method Loop(isLooping: bool)
      requires Valid()
      modifies this, sound
      ensures Valid() && state == Step(old(state), Action.Loop(isLooping)) && sound == old(sound)
      ensures sound != null ==> sound.looping == state.playback.isLooping
      ensures sound != null ==> sound.log == old(sound.log) + [HowlCall.LoopCall(isLooping)]
    {
      if sound != null {
        sound.SetLoop(isLooping);
      }
      Dispatch(Action.Loop(isLooping));
    }

    method SetPitch(pitch: real)
      requires Valid()
      modifies this
      ensures Valid() && state == Step(old(state), Action.SetPitch(pitch)) && sound == old(sound)
    {
      Dispatch(Action.SetPitch(pitch));
    }

    method SetSpeed(speed: real)
      requires Valid()
      modifies this
      ensures Valid() && state == Step(old(state), Action.SetSpeed(speed)) && sound == old(sound)
    {
      Dispatch(Action.SetSpeed(speed));
    }

    /** The tag effect after a file change; `parsed` is the tag reader's answer when a file is set. */
    method MetadataEffect(parsed: Metadata)
      requires Valid()
      modifies this
      ensures Valid() && state == Step(old(state), Action.SetMetadata(MetadataFor(old(state).file, parsed))) && sound == old(sound)
    {
      if state.file.Some? {
        Dispatch(Action.SetMetadata(parsed));
      } else {
        Dispatch(Action.SetMetadata(EmptyMetadata));
      }
    }

    /** The reading effect after a file change; `read` is the data URL the reader produced when a file is set. */
    method ReadFileEffect(read: string)
      requires Valid()
      modifies this
      ensures Valid() && state == Step(old(state), Action.SetAudioData(AudioDataFor(old(state).file, read)))
      ensures state.audioData == old(state.audioData) ==> sound == old(sound)
      ensures sound != null && sound != old(sound) ==> fresh(sound) && !sound.looping
      ensures state.audioData != old(state.audioData) && SoundOf(state).Some? ==> fresh(sound)
    {
      if state.file.Some? {
        Dispatch(Action.SetAudioData(Some(read)));
      } else {
        Dispatch(Action.SetAudioData(None));
      }
    }
  }

  /**
   * The loop bug, on a concrete run: load "a.mp3", let the reader deliver
   * its data, press loop. The state says looping; the player does not loop.
   */
  method LoopAsWrittenDesync() returns (stateLooping: bool, soundLooping: bool)
    ensures stateLooping && !soundLooping
  {
    var hook := new Hook();
    hook.SetFile(Some(File("a.mp3", [])));
    hook.ReadFileEffect("data:audio/mpeg;base64,AA==");
    var player := hook.sound;
    hook.LoopAsWritten(true);
    stateLooping := hook.state.playback.isLooping;
    soundLooping := player.looping;
  }

  /** The same run with the corrected `loop`: state and player agree. */
  method LoopInSync() returns (stateLooping: bool, soundLooping: bool)
    ensures stateLooping && soundLooping
  {
    var hook := new Hook();
    hook.SetFile(Some(File("a.mp3", [])));
    hook.ReadFileEffect("data:audio/mpeg;base64,AA==");
    hook.Loop(true);
    stateLooping := hook.state.playback.isLooping;
    soundLooping := hook.sound.looping;
  }
}
