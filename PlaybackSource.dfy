/**
 * The `usePlaybackSource` store hook: four setters over four playback
 * fields. Every action assigns its own field and leaves the other three.
 */
module PlaybackSource {

  datatype State = State(isPlaying: bool, isRepeating: bool, pitch: real, speed: real)

  /** The state at mount. */
  const Initial: State := State(false, false, 0.0, 1.0)

  datatype Action =
    | SetIsPlaying(isPlaying: bool)
    | SetIsRepeating(isRepeating: bool)
    | SetPitch(pitch: real)
    | SetSpeed(speed: real)

  datatype Field = IsPlayingField | IsRepeatingField | PitchField | SpeedField

  datatype Value = FlagValue(flag: bool) | NumberValue(number: real)

  function Get(s: State, f: Field): Value {
    match f
    case IsPlayingField => FlagValue(s.isPlaying)
    case IsRepeatingField => FlagValue(s.isRepeating)
    case PitchField => NumberValue(s.pitch)
    case SpeedField => NumberValue(s.speed)
  }

  /** The field an action writes. */
  function Target(a: Action): Field {
    match a
    case SetIsPlaying(_) => IsPlayingField
    case SetIsRepeating(_) => IsRepeatingField
    case SetPitch(_) => PitchField
    case SetSpeed(_) => SpeedField
  }

  /** The value an action carries. */
  function Payload(a: Action): Value {
    match a
    case SetIsPlaying(b) => FlagValue(b)
    case SetIsRepeating(b) => FlagValue(b)
    case SetPitch(p) => NumberValue(p)
    case SetSpeed(v) => NumberValue(v)
  }

  /** The reducer. */
  function Step(s: State, a: Action): (r: State)
    ensures Get(r, Target(a)) == Payload(a)
    ensures forall f :: f != Target(a) ==> Get(r, f) == Get(s, f)
  {
    match a
    case SetIsPlaying(b) => s.(isPlaying := b)
    case SetIsRepeating(b) => s.(isRepeating := b)
    case SetPitch(p) => s.(pitch := p)
    case SetSpeed(v) => s.(speed := v)
  }

  /** The reducer applied to the actions in dispatch order. */
  function Run(s: State, actions: seq<Action>): State
    decreases |actions|
  {
    if actions == [] then s else Run(Step(s, actions[0]), actions[1..])
  }

  /** Two states that agree on every field are the same state. */
  lemma FieldsDetermineState(s: State, t: State)
    requires forall f :: Get(s, f) == Get(t, f)
    ensures s == t
  {
    assert Get(s, IsPlayingField) == Get(t, IsPlayingField);
    assert Get(s, IsRepeatingField) == Get(t, IsRepeatingField);
    assert Get(s, PitchField) == Get(t, PitchField);
    assert Get(s, SpeedField) == Get(t, SpeedField);
  }

  /** The initial state: stopped, not repeating, pitch 0, speed 1. */
  lemma InitialState()
    ensures Get(Initial, IsPlayingField) == FlagValue(false)
    ensures Get(Initial, IsRepeatingField) == FlagValue(false)
    ensures Get(Initial, PitchField) == NumberValue(0.0)
    ensures Get(Initial, SpeedField) == NumberValue(1.0)
  {
  }

  /** Every setter is idempotent. */
  lemma SetterIdempotent(s: State, a: Action)
    ensures Step(Step(s, a), a) == Step(s, a)
  {
    var once := Step(s, a);
    var twice := Step(once, a);
    forall f
      ensures Get(twice, f) == Get(once, f)
    {
      if f != Target(a) {
        assert Get(twice, f) == Get(once, f);
      }
    }
    FieldsDetermineState(twice, once);
  }

  /** `setIsPlaying(b)` assigns rather than toggles, from either prior value. */
  lemma SetIsPlayingAssigns(s: State, b: bool)
    ensures Step(s, SetIsPlaying(b)).isPlaying == b
    ensures Step(s.(isPlaying := !s.isPlaying), SetIsPlaying(b)) == Step(s, SetIsPlaying(b))
  {
  }

  /** Setters of different fields commute. */
  lemma SettersCommute(s: State, a: Action, b: Action)
    requires Target(a) != Target(b)
    ensures Step(Step(s, a), b) == Step(Step(s, b), a)
  {
    var ab := Step(Step(s, a), b);
    var ba := Step(Step(s, b), a);
    forall f
      ensures Get(ab, f) == Get(ba, f)
    {
    }
    FieldsDetermineState(ab, ba);
  }

  /** Dispatching `xs` and then `ys` is dispatching `xs + ys`. */
  lemma {:induction false} RunAppend(s: State, xs: seq<Action>, ys: seq<Action>)
    ensures Run(s, xs + ys) == Run(Run(s, xs), ys)
    decreases |xs|
  {
    if xs != [] {
      assert (xs + ys)[0] == xs[0];
      assert (xs + ys)[1..] == xs[1..] + ys;
      RunAppend(Step(s, xs[0]), xs[1..], ys);
    } else {
      assert xs + ys == ys;
    }
  }

  /** A field no dispatched action targets keeps its value. */
  lemma {:induction false} RunFrame(s: State, actions: seq<Action>, f: Field)
    requires forall i :: 0 <= i < |actions| ==> Target(actions[i]) != f
    ensures Get(Run(s, actions), f) == Get(s, f)
    decreases |actions|
  {
    if actions != [] {
      assert Target(actions[0]) != f;
      RunFrame(Step(s, actions[0]), actions[1..], f);
    }
  }

  /** The last setter of a field decides its value, whatever was dispatched before or after it. */
  lemma LastSetterWins(s: State, before: seq<Action>, a: Action, after: seq<Action>)
    requires forall i :: 0 <= i < |after| ==> Target(after[i]) != Target(a)
    ensures Get(Run(s, before + [a] + after), Target(a)) == Payload(a)
  {
    RunAppend(s, before + [a], after);
    RunAppend(s, before, [a]);
    var t := Run(s, before);
    assert Run(t, [a]) == Run(Step(t, a), []);
    RunFrame(Run(s, before + [a]), after, Target(a));
  }
}
