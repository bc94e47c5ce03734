# audio-shifter playback state, in Dafny

audio-shifter is a browser audio player. The user loads a local file, sees its tags and a
waveform, and can play/pause, loop a region, replay, shift pitch, change speed and zoom.
All the audio work is done by libraries: WaveSurfer (waveform, transport and regions),
Howler (the older player), and a tag reader. What the repository itself decides is the
playback session state and the guards around the engine calls. It does this in four React
`useReducer` hooks, each a revision of the same idea. This project models those four hooks.

- **`useAudio`** (current revision) has three parts.
  - `AudioReducer`: the 13-action reducer, its initial state and the `isLoading` flag.
  - `AudioCommands`: what each callback and engine event does. This is given as the actions
    it dispatches plus the engine commands it issues.
  - `AudioHook.Session`: the hook as an object. Its callbacks drive a `WaveSurfer` engine
    object that keeps a ghost log of the commands it receives. Each callback is proved to do
    exactly what `AudioCommands.Exec` specifies.
- **`useAudioSource`** (older revision) is module `AudioSource`. It has a reducer with
  assigning `play`/`pause` actions and the two effects that follow the file. It also has the
  memoised Howler player, whose format comes from the file name (module `FileName`). The
  `Hook` class drives that player.
- **`usePlaybackSource`** and **`useAudioFileSource`** are minimal reducers: modules
  `PlaybackSource` and `AudioFileSource`.

JavaScript numbers are `real`. The `x || fallback` reads of `number | null` follow JavaScript
truthiness: null and 0 are falsy (`Media.Truthy`, `Media.Or`). A `string | null` data URL is
falsy when null or empty.

## Model

| member | source | states |
|---|---|---|
| AudioReducer.Step | src/hooks/useAudio.tsx:85-114 | each action changes only the field it targets and leaves all eleven others unchanged; a setter stores its payload; `togglePlay` negates `isPlaying`; `reset` gives the initial value on every field |
| AudioReducer.TogglePlayInvolution | src/hooks/useAudio.tsx:91-92 | `togglePlay` flips `isPlaying`, keeps every other field, and applied twice gives back the original state |
| AudioReducer.ResetIdempotent | src/hooks/useAudio.tsx:111-112 | `reset` yields exactly the initial state from any state, is idempotent, and leaves no engine and no loader |
| AudioReducer.SetterIdempotent | src/hooks/useAudio.tsx:87-110 | every action except `togglePlay` is idempotent |
| AudioReducer.IsLoadingFrame | src/hooks/useAudio.tsx:254 | only the two loading actions and `reset` can change whether the loader shows |
| AudioReducer.IsLoadingNeedsBothFlagsCleared | src/hooks/useAudio.tsx:254 | the loader shows after a loading action exactly when its new flag or the other flag is set |
| AudioReducer.RunAppend | src/hooks/useAudio.tsx:84-116 | reducing `xs` then `ys` equals reducing `xs + ys` |
| AudioReducer.RunFrame | src/hooks/useAudio.tsx:85-114 | a field that no dispatched action writes keeps its value through any sequence of actions |
| AudioReducer.ResetForgetsHistory | src/hooks/useAudio.tsx:111-112 | whatever came before a `reset`, what follows runs as if from the initial state |
| AudioReducer.TogglesParity | src/hooks/useAudio.tsx:91-92 | after n toggles, `isPlaying` is flipped exactly when n is odd, and nothing else changes |
| AudioCommands.Exec | src/hooks/useAudio.tsx:185-252 | without an engine, play/pause, loop, replay and zoom dispatch nothing and call nothing; the engine is called only when present; no callback replaces the engine; `loop(true)` and `replay` dispatch nothing |
| AudioCommands.CommandKeepsEngine | src/hooks/useAudio.tsx:185-252 | no callback or engine event changes the engine handle in the state |
| AudioCommands.CommandKeepsCoherent | src/hooks/useAudio.tsx:189-224 | every callback, and every event from the attached engine, keeps "playing or looping implies an engine" |
| AudioCommands.PlayPauseTwice | src/hooks/useAudio.tsx:189-194 | with an engine, two play/pause presses restore the state and toggle the transport twice |
| AudioCommands.LoopWaitsForRegion | src/hooks/useAudio.tsx:201-206 | `loop(true)` leaves the state unchanged and only requests a region; the following `region-created` sets `isLooping` |
| AudioCommands.LoopOffStopsLooping | src/hooks/useAudio.tsx:207-210 | `loop(false)` clears the regions, sets `isLooping` to false and changes no other field |
| AudioCommands.RegionRoundTrip | src/hooks/useAudio.tsx:165-168 | `region-updated` stores the region's bounds, and with a non-zero end the next `loop(true)` requests exactly that region, whatever the start |
| AudioCommands.RegionBoundsFallback | src/hooks/useAudio.tsx:202-206 | because of `||`, a region end of 0 is requested as the whole duration; inverted bounds pass unchanged (no clamping) |
| AudioCommands.ReplayTarget | src/hooks/useAudio.tsx:216-224 | after `region-updated`, `replay` seeks to the region start while looping and to 0 otherwise |
| AudioCommands.MetadataFetchSettles | src/hooks/useAudio.tsx:120-140 | the metadata effect raises its flag only when a file is set; the tag reader's answer stores the tags and lowers the flag |
| AudioCommands.PerformKeepsEngine | src/hooks/useAudio.tsx:189-252 | over any sequence of callbacks and events the engine handle is unchanged, and no engine command is issued without an engine |
| AudioCommands.InertWithoutEngine | src/hooks/useAudio.tsx:189-252 | without an engine, any sequence of play/pause, loop, replay and zoom leaves the state unchanged and issues no command |
| AudioCommands.PerformKeepsCoherent | src/hooks/useAudio.tsx:189-224 | over any sequence of callbacks and events from the attached engine, "playing or looping implies an engine" is kept |
| AudioCommands.LoopScenario | src/hooks/useAudio.tsx:196-224 | 100 s file, no region: `loop(true)` requests [0, 100]; after `region-created` and a drag to [10, 40], `replay` seeks to 10 |
| AudioHook.Session.constructor | src/hooks/useAudio.tsx:36-58 | the hook starts in the initial state |
| AudioHook.Session.Dispatch | src/hooks/useAudio.tsx:84-116 | dispatch applies one reducer step |
| AudioHook.Session.SetFile | src/hooks/useAudio.tsx:185-187 | `setFile` performs what `Exec` specifies |
| AudioHook.Session.PlayPause | src/hooks/useAudio.tsx:189-194 | the new state and the commands appended to the engine's log are those `Exec` specifies; the engine's duration is unchanged |
| AudioHook.Session.Loop | src/hooks/useAudio.tsx:196-214 | same as PlayPause, with the engine's current duration as `getDuration()`, which the call leaves unchanged |
| AudioHook.Session.Replay | src/hooks/useAudio.tsx:216-224 | same as PlayPause; the state is untouched |
| AudioHook.Session.SetPitch | src/hooks/useAudio.tsx:226-228 | `setPitch` performs what `Exec` specifies (unguarded) |
| AudioHook.Session.SetSpeed | src/hooks/useAudio.tsx:230-232 | `setSpeed` performs what `Exec` specifies (unguarded) |
| AudioHook.Session.SetZoom | src/hooks/useAudio.tsx:244-252 | `setZoom` stores the zoom only when an engine exists |
| AudioHook.Session.RequestMetadata | src/hooks/useAudio.tsx:120-124 | the metadata effect raises its flag when a file is set |
| AudioHook.Session.MetadataParsed | src/hooks/useAudio.tsx:125-135 | the tag reader's answer is stored and the flag lowered |
| AudioHook.Session.OnReady | src/hooks/useAudio.tsx:157-159 | `ready` lowers the engine loading flag |
| AudioHook.Session.OnRegionCreated | src/hooks/useAudio.tsx:161-163 | `region-created` sets `isLooping` |
| AudioHook.Session.OnRegionUpdated | src/hooks/useAudio.tsx:165-168 | `region-updated` stores the region's start and end |
| AudioHook.Session.OnRegionOut | src/hooks/useAudio.tsx:170-172 | `region-out` asks the engine to play the region again and leaves the state alone |
| AudioHook.Session.AttachEngine | src/hooks/useAudio.tsx:147-176 | with a file and a container: raises the engine flag, creates a fresh engine, hands it exactly the file, stores it; otherwise changes nothing |
| AudioHook.Session.DetachEngine | src/hooks/useAudio.tsx:178-181 | the cleanup destroys the engine and resets the whole session |
| AudioHook.AttachKeepsCoherent | src/hooks/useAudio.tsx:147-176 | attaching an engine keeps the session invariant, shows the loader and keeps the file |
| FileName.Split | src/store/hooks/useAudioSource.tsx:128 | `split('.')` gives at least one piece, so `pop()` always has a value, and no piece contains the separator |
| FileName.JoinSplit | src/store/hooks/useAudioSource.tsx:128 | joining the pieces of a split gives back the name |
| FileName.SplitJoin | src/store/hooks/useAudioSource.tsx:128 | splitting a join of separator-free pieces gives back the pieces |
| FileName.FormatIsLastExtension | src/store/hooks/useAudioSource.tsx:128 | the format has no '.', ends the name, is the whole name when the name has no '.', and otherwise directly follows a '.' |
| FileName.FormatExample | src/store/hooks/useAudioSource.tsx:128 | "live.set.wav" has format "wav" |
| FileName.FormatTrailingDot | src/store/hooks/useAudioSource.tsx:128 | "a." has the empty format |
| AudioSource.Step | src/store/hooks/useAudioSource.tsx:43-62 | each field is written only by its own action; `play` sets `isPlaying` to true and `pause` sets it to false |
| AudioSource.SoundOf | src/store/hooks/useAudioSource.tsx:123-134 | a player exists exactly when the data URL is non-empty and a file is set; its source is the data URL and its format is the file name's last extension |
| AudioSource.InitialState | src/store/hooks/useAudioSource.tsx:63-78 | no file, no data, empty tags, stopped, not looping, pitch 0, speed 1, and no player |
| AudioSource.PlayPauseAssign | src/store/hooks/useAudioSource.tsx:51-54 | `play`/`pause` set the flag whatever its prior value, are idempotent, and the last one wins |
| AudioSource.StepIdempotent | src/store/hooks/useAudioSource.tsx:43-62 | every action is idempotent |
| AudioSource.ClearingFileResets | src/store/hooks/useAudioSource.tsx:81-121 | after clearing the file and both effects, tags are empty, data is null, there is no player, and playback fields are kept |
| AudioSource.LoadingFileBuildsSound | src/store/hooks/useAudioSource.tsx:81-134 | after setting a file and both effects, the tags are the parsed ones and the player is built from the read data and the file's extension |
| AudioSource.Hook.constructor | src/store/hooks/useAudioSource.tsx:63-78 | the hook starts in the initial state with no player |
| AudioSource.Hook.Dispatch | src/store/hooks/useAudioSource.tsx:123-134 | dispatch applies one reducer step; the player is kept exactly when neither the data nor the file changed; otherwise it is a fresh, non-looping player built from the new data and the file's extension, or none |
| AudioSource.Hook.SetFile | src/store/hooks/useAudioSource.tsx:136-138 | `setFile` dispatches the file; the player is kept when the file is the same and rebuilt fresh when it changed |
| AudioSource.Hook.Play | src/store/hooks/useAudioSource.tsx:140-143 | the player, if any, is told to play; `isPlaying` becomes true even without a player |
| AudioSource.Hook.Pause | src/store/hooks/useAudioSource.tsx:145-148 | the player, if any, is told to pause; `isPlaying` becomes false even without a player |
| AudioSource.Hook.LoopAsWritten | src/store/hooks/useAudioSource.tsx:150-156 | `loop(b)` sets `isLooping` to b even without a player, and leaves the player's own loop flag unchanged |
| AudioSource.Hook.Loop | src/store/hooks/useAudioSource.tsx:150-156 | corrected `loop(b)`: sets `isLooping` to b and the player's loop flag to the same value |
| AudioSource.Hook.SetPitch | src/store/hooks/useAudioSource.tsx:158-160 | `setPitch` dispatches the pitch |
| AudioSource.Hook.SetSpeed | src/store/hooks/useAudioSource.tsx:162-164 | `setSpeed` dispatches the speed |
| AudioSource.Hook.MetadataEffect | src/store/hooks/useAudioSource.tsx:81-107 | the tag effect stores the parsed tags for a set file and empty tags for a cleared one, and keeps the same player |
| AudioSource.Hook.ReadFileEffect | src/store/hooks/useAudioSource.tsx:109-121 | the read effect stores the data URL for a set file and null for a cleared one; the player is kept when the data is unchanged and is a fresh one otherwise |
| AudioSource.LoopAsWrittenDesync | src/store/hooks/useAudioSource.tsx:150-156 | a concrete run where, after `loop(true)`, the state says looping and the player does not loop |
| AudioSource.LoopInSync | src/store/hooks/useAudioSource.tsx:150-156 | the same run with the corrected `loop`: state and player agree |
| PlaybackSource.Step | src/store/hooks/usePlaybackSource.tsx:27-38 | each action sets its own field to its payload and leaves the other three unchanged |
| PlaybackSource.InitialState | src/store/hooks/usePlaybackSource.tsx:39-44 | stopped, not repeating, pitch 0, speed 1 |
| PlaybackSource.SetterIdempotent | src/store/hooks/usePlaybackSource.tsx:28-37 | applying the same setter twice equals applying it once |
| PlaybackSource.SetIsPlayingAssigns | src/store/hooks/usePlaybackSource.tsx:29-30 | `setIsPlaying(b)` leaves `isPlaying == b` from either prior value: it assigns and does not toggle |
| PlaybackSource.SettersCommute | src/store/hooks/usePlaybackSource.tsx:28-37 | setters of different fields commute |
| PlaybackSource.RunAppend | src/store/hooks/usePlaybackSource.tsx:26-45 | reducing `xs` then `ys` equals reducing `xs + ys` |
| PlaybackSource.RunFrame | src/store/hooks/usePlaybackSource.tsx:28-37 | a field that no dispatched action targets keeps its value |
| PlaybackSource.LastSetterWins | src/store/hooks/usePlaybackSource.tsx:28-37 | the last setter of a field decides its value, whatever comes before it and whatever later touches only other fields |
| AudioFileSource.Step | src/store/hooks/useAudioFileSource.tsx:18-25 | `setFile` changes only the file; `setMetadata` changes only the tags |
| AudioFileSource.AfterMetadataEffect | src/store/hooks/useAudioFileSource.tsx:37-63 | the effect keeps the file and stores the parsed tags for a set file and empty tags for a cleared one |
| AudioFileSource.InitialState | src/store/hooks/useAudioFileSource.tsx:26-34 | no file, no cover, empty title, artist and album |
| AudioFileSource.ClearingFileRestoresInitial | src/store/hooks/useAudioFileSource.tsx:50-58 | from any state, clearing the file and running the effect gives back the initial state |
| AudioFileSource.StepLaws | src/store/hooks/useAudioFileSource.tsx:18-25 | each action is idempotent and the two actions commute |

## Left out

- WaveSurfer, its regions plugin, Howler and the tag reader are external libraries. The
  engine and the player are objects that log the commands they receive. The tag reader's
  answer, the data URL produced by `FileReader` (src/utils/data.ts) and the engine's
  duration are inputs.
- AudioHook.Session.SetZoom: does not model the debounced `wavesurfer.zoom` call (200 ms,
  trailing edge). That call is about timing, so only the state update is modelled.
- React scheduling is not modelled: effect ordering, dependency lists, `useCallback` and
  `useMemo` identities, and the order of cleanup and re-run when the file changes. The
  effects are methods, called where React would run them.
- Async races are not modelled. A stale tag answer or load after a file change is out of
  scope, and so is a tag-reader failure, which the code leaves unhandled.
- Floating point is not modelled: NaN (also falsy in JavaScript), -0 and rounding. Numbers
  are reals with no arithmetic.
- The theme colours given to the engine and the regions are not modelled.
- The throw for a container that is not a `div` (src/hooks/useAudio.tsx:143-145) is not
  modelled: AttachEngine takes only whether a container is mounted.
- File identity: a `File` is a value (name and bytes). JavaScript compares `File` objects by
  reference in the memo dependencies.
- Old Howler players are not unloaded when the memo rebuilds the player; the model keeps no
  list of them.
- In `useAudio`, `setPitch` and `setSpeed` only store the value: the hook never sets a pitch
  node or the engine's playback rate, so the model has none. There is no range clamping,
  because the reducers do not clamp.
- src/components/Main.tsx reads `error` and `reset` from `useAudio`, but the hook does not
  return them, so there is no error dialog in the model.

## Findings

| source | as written | input that shows it | evidently intended | confidence | as-written member | corrected member |
|---|---|---|---|---|---|---|
| src/store/hooks/useAudioSource.tsx:150-156 | `sound?.loop()` is called with no argument; in Howler, `loop()` without an argument only reads the loop flag | load "a.mp3", let the reader deliver its data, call `loop(true)`: `isLooping` is true but the player still does not loop | `sound?.loop(isLooping)` | medium (relies on Howler's documented getter behaviour); not executed | AudioSource.Hook.LoopAsWritten | AudioSource.Hook.Loop |
