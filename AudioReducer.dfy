/**
 * The reducer of the `useAudio` hook: a total function from a session state
 * and one of thirteen actions to the next state. Every action but `Reset`
 * rewrites one field and copies the rest; `Reset` returns the initial state.
 */
module AudioReducer {
  import opened Wrappers
  import opened Media
  import opened Engine

  datatype Playback = Playback(
    isPlaying: bool,
    isLooping: bool,
    pitch: real,
    speed: real,
    zoom: real,
    loopStart: Option<real>,
    loopEnd: Option<real>)

  datatype Loading = Loading(isMetadataLoading: bool, isWavesurferLoading: bool)

  datatype AudioState = AudioState(
    file: Option<File>,
    metadata: Metadata,
    playback: Playback,
    wavesurfer: WaveSurfer?,
    loading: Loading)

  const InitialPlayback: Playback := Playback(false, false, 0.0, 1.0, 1.0, None, None)

  /** The state at mount, and the state `Reset` returns to. */
  const Initial: AudioState := AudioState(None, EmptyMetadata, InitialPlayback, null, Loading(false, false))

  datatype Action =
    | SetFile(file: Option<File>)
    | SetMetadata(metadata: Metadata)
    | TogglePlay
    | Loop(isLooping: bool)
    | SetPitch(pitch: real)
    | SetSpeed(speed: real)
    | SetZoom(zoom: real)
    | SetLoopStart(loopStart: Option<real>)
    | SetLoopEnd(loopEnd: Option<real>)
    | SetWavesurfer(wavesurfer: WaveSurfer?)
    | SetIsMetadataLoading(isMetadataLoading: bool)
    | SetIsWavesurferLoading(isWavesurferLoading: bool)
    | Reset

  /** The reducer. */
  function Step(s: AudioState, a: Action): (r: AudioState)
    ensures forall f :: f !in Writes(a) ==> Get(r, f) == Get(s, f)
    ensures !a.Reset? && !a.TogglePlay? ==> Get(r, Target(a)) == Payload(a)
    ensures a.TogglePlay? ==> r.playback.isPlaying == !s.playback.isPlaying
    ensures a.Reset? ==> forall f :: Get(r, f) == Get(Initial, f)
  {
    match a
    case SetFile(f) => s.(file := f)
    case SetMetadata(m) => s.(metadata := m)
    case TogglePlay => s.(playback := s.playback.(isPlaying := !s.playback.isPlaying))
    case Loop(b) => s.(playback := s.playback.(isLooping := b))
    case SetPitch(p) => s.(playback := s.playback.(pitch := p))
    case SetSpeed(v) => s.(playback := s.playback.(speed := v))
    case SetZoom(z) => s.(playback := s.playback.(zoom := z))
    case SetLoopStart(t) => s.(playback := s.playback.(loopStart := t))
    case SetLoopEnd(t) => s.(playback := s.playback.(loopEnd := t))
    case SetWavesurfer(ws) => s.(wavesurfer := ws)
    case SetIsMetadataLoading(b) => s.(loading := s.loading.(isMetadataLoading := b))
    case SetIsWavesurferLoading(b) => s.(loading := s.loading.(isWavesurferLoading := b))
    case Reset => Initial
  }

  /** The loader is shown while either the tags or the waveform are loading. */
  function IsLoading(s: AudioState): bool {
    s.loading.isMetadataLoading || s.loading.isWavesurferLoading
  }

  /** The reducer applied to the actions in dispatch order, as React does. */
  function Run(s: AudioState, actions: seq<Action>): AudioState
    decreases |actions|
  {
    if actions == [] then s else Run(Step(s, actions[0]), actions[1..])
  }

  // ---------------------------------------------------------------------
  // A field-by-field view of the state, so that "this action writes only
  // that field" can be stated once for every action.

  datatype Field =
    | FileField | MetadataField
    | IsPlayingField | IsLoopingField | PitchField | SpeedField | ZoomField | LoopStartField | LoopEndField
    | WavesurferField
    | MetadataLoadingField | WavesurferLoadingField

  datatype Value =
    | FileValue(file: Option<File>)
    | MetadataValue(metadata: Metadata)
    | FlagValue(flag: bool)
    | NumberValue(number: real)
    | BoundValue(bound: Option<real>)
    | EngineValue(engine: WaveSurfer?)

  function Get(s: AudioState, f: Field): Value {
    match f
    case FileField => FileValue(s.file)
    case MetadataField => MetadataValue(s.metadata)
    case IsPlayingField => FlagValue(s.playback.isPlaying)
    case IsLoopingField => FlagValue(s.playback.isLooping)
    case PitchField => NumberValue(s.playback.pitch)
    case SpeedField => NumberValue(s.playback.speed)
    case ZoomField => NumberValue(s.playback.zoom)
    case LoopStartField => BoundValue(s.playback.loopStart)
    case LoopEndField => BoundValue(s.playback.loopEnd)
    case WavesurferField => EngineValue(s.wavesurfer)
    case MetadataLoadingField => FlagValue(s.loading.isMetadataLoading)
    case WavesurferLoadingField => FlagValue(s.loading.isWavesurferLoading)
  }

  /** The one field a single-field action is about. */
  function Target(a: Action): Field
    requires !a.Reset?
  {
    match a
    case SetFile(_) => FileField
    case SetMetadata(_) => MetadataField
    case TogglePlay => IsPlayingField
    case Loop(_) => IsLoopingField
    case SetPitch(_) => PitchField
    case SetSpeed(_) => SpeedField
    case SetZoom(_) => ZoomField
    case SetLoopStart(_) => LoopStartField
    case SetLoopEnd(_) => LoopEndField
    case SetWavesurfer(_) => WavesurferField
    case SetIsMetadataLoading(_) => MetadataLoadingField
    case SetIsWavesurferLoading(_) => WavesurferLoadingField
  }

  /** The value a setter action carries for its field. */
  function Payload(a: Action): Value
    requires !a.Reset? && !a.TogglePlay?
  {
    match a
    case SetFile(f) => FileValue(f)
    case SetMetadata(m) => MetadataValue(m)
    case Loop(b) => FlagValue(b)
    case SetPitch(p) => NumberValue(p)
    case SetSpeed(v) => NumberValue(v)
    case SetZoom(z) => NumberValue(z)
    case SetLoopStart(t) => BoundValue(t)
    case SetLoopEnd(t) => BoundValue(t)
    case SetWavesurfer(ws) => EngineValue(ws)
    case SetIsMetadataLoading(b) => FlagValue(b)
    case SetIsWavesurferLoading(b) => FlagValue(b)
  }

  /** The fields an action may change. */
  function Writes(a: Action): set<Field> {
    if a.Reset? then
      {FileField, MetadataField, IsPlayingField, IsLoopingField, PitchField, SpeedField, ZoomField,
       LoopStartField, LoopEndField, WavesurferField, MetadataLoadingField, WavesurferLoadingField}
    else {Target(a)}
  }

  /** Two states that agree on every field are the same state. */
  lemma FieldsDetermineState(s: AudioState, t: AudioState)
    requires forall f :: Get(s, f) == Get(t, f)
    ensures s == t
  {
    assert Get(s, FileField) == Get(t, FileField);
    assert Get(s, MetadataField) == Get(t, MetadataField);
    assert Get(s, IsPlayingField) == Get(t, IsPlayingField);
    assert Get(s, IsLoopingField) == Get(t, IsLoopingField);
    assert Get(s, PitchField) == Get(t, PitchField);
    assert Get(s, SpeedField) == Get(t, SpeedField);
    assert Get(s, ZoomField) == Get(t, ZoomField);
    assert Get(s, LoopStartField) == Get(t, LoopStartField);
    assert Get(s, LoopEndField) == Get(t, LoopEndField);
    assert Get(s, WavesurferField) == Get(t, WavesurferField);
    assert Get(s, MetadataLoadingField) == Get(t, MetadataLoadingField);
    assert Get(s, WavesurferLoadingField) == Get(t, WavesurferLoadingField);
  }

  // ---------------------------------------------------------------------
  // Properties of single actions.

  /** `togglePlay` flips `isPlaying`, keeps every other field, and undoes itself. */
  lemma TogglePlayInvolution(s: AudioState)
    ensures Step(s, TogglePlay).playback.isPlaying != s.playback.isPlaying
    ensures forall f :: f != IsPlayingField ==> Get(Step(s, TogglePlay), f) == Get(s, f)
    ensures Step(Step(s, TogglePlay), TogglePlay) == s
  {
  }

  /** `reset` yields the initial state from any state, and resetting again changes nothing. */
  lemma ResetIdempotent(s: AudioState)
    ensures Step(s, Reset) == Initial
    ensures Step(Step(s, Reset), Reset) == Step(s, Reset)
    ensures !IsLoading(Step(s, Reset)) && Step(s, Reset).wavesurfer == null
  {
  }

  /** A setter action is idempotent: dispatching it twice is dispatching it once. */
  lemma SetterIdempotent(s: AudioState, a: Action)
    requires !a.TogglePlay?
    ensures Step(Step(s, a), a) == Step(s, a)
  {
  }

  /** Only the two loading actions (and `reset`) can change whether the loader is shown. */
  lemma IsLoadingFrame(s: AudioState, a: Action)
    requires MetadataLoadingField !in Writes(a) && WavesurferLoadingField !in Writes(a)
    ensures IsLoading(Step(s, a)) == IsLoading(s)
  {
    assert Get(Step(s, a), MetadataLoadingField) == Get(s, MetadataLoadingField);
    assert Get(Step(s, a), WavesurferLoadingField) == Get(s, WavesurferLoadingField);
  }

  /** The loader stays up until both loads have been reported finished. */
  lemma IsLoadingNeedsBothFlagsCleared(s: AudioState, b: bool)
    ensures IsLoading(Step(s, SetIsMetadataLoading(b))) == (b || s.loading.isWavesurferLoading)
    ensures IsLoading(Step(s, SetIsWavesurferLoading(b))) == (b || s.loading.isMetadataLoading)
  {
  }

  // ---------------------------------------------------------------------
  // Properties of sequences of dispatched actions.

  /** Dispatching `xs` and then `ys` is dispatching `xs + ys`. */
  lemma {:induction false} RunAppend(s: AudioState, xs: seq<Action>, ys: seq<Action>)
    ensures Run(s, xs + ys) == Run(Run(s, xs), ys)
    decreases |xs|
  {
    if xs != [] {
      assert (xs + ys)[0] == xs[0];
      assert (xs + ys)[1..] == xs[1..] + ys;
      RunAppend(Step(s, xs[0]), xs[1..], ys);
    } else {
      assert xs + ys == ys;
    }
  }

  /** Reducing none, one or two actions, spelled out. */
  lemma RunShort(s: AudioState, actions: seq<Action>)
    requires |actions| <= 2
    ensures |actions| == 0 ==> Run(s, actions) == s
    ensures |actions| == 1 ==> Run(s, actions) == Step(s, actions[0])
    ensures |actions| == 2 ==> Run(s, actions) == Step(Step(s, actions[0]), actions[1])
  {
    if |actions| == 2 {
      var t := actions[1..];
      assert t[0] == actions[1] && t[1..] == [];
      assert Run(Step(s, actions[0]), t) == Run(Step(Step(s, actions[0]), actions[1]), t[1..]);
    } else if |actions| == 1 {
      assert actions[1..] == [];
    }
  }

  /** A field that no dispatched action writes keeps its value through the whole run. */
  lemma {:induction false} RunFrame(s: AudioState, actions: seq<Action>, f: Field)
    requires forall i :: 0 <= i < |actions| ==> f !in Writes(actions[i])
    ensures Get(Run(s, actions), f) == Get(s, f)
    decreases |actions|
  {
    if actions != [] {
      assert f !in Writes(actions[0]);
      RunFrame(Step(s, actions[0]), actions[1..], f);
    }
  }

  /** A `reset` erases all history: what follows it runs from the initial state. */
  lemma ResetForgetsHistory(s: AudioState, before: seq<Action>, after: seq<Action>)
    ensures Run(s, before + [Reset] + after) == Run(Initial, after)
  {
    RunAppend(s, before + [Reset], after);
    RunAppend(s, before, [Reset]);
  }

  /** `n` toggles leave `isPlaying` flipped exactly when `n` is odd, and change nothing else. */
  lemma {:induction false} TogglesParity(s: AudioState, actions: seq<Action>)
    requires forall i :: 0 <= i < |actions| ==> actions[i] == TogglePlay
    ensures Run(s, actions).playback.isPlaying == (s.playback.isPlaying != (|actions| % 2 == 1))
    ensures forall f :: f != IsPlayingField ==> Get(Run(s, actions), f) == Get(s, f)
    decreases |actions|
  {
    if actions != [] {
      assert actions[0] == TogglePlay;
      TogglesParity(Step(s, TogglePlay), actions[1..]);
    }
  }
}
