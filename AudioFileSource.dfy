/**
 * The `useAudioFileSource` store hook: the current file and its tags, with
 * an effect that empties the tags when the file is cleared.
 */
module AudioFileSource {
  import opened Wrappers
  import opened Media

  datatype State = State(file: Option<File>, metadata: Metadata)

  /** The state at mount. */
  const Initial: State := State(None, EmptyMetadata)

  datatype Action = SetFile(file: Option<File>) | SetMetadata(metadata: Metadata)

  /** The reducer: `setFile` writes only the file, `setMetadata` only the tags. */
  function Step(s: State, a: Action): (r: State)
    ensures r.file == if a.SetFile? then a.file else s.file
    ensures r.metadata == if a.SetMetadata? then a.metadata else s.metadata
  {
    match a
    case SetFile(f) => s.(file := f)
    case SetMetadata(m) => s.(metadata := m)
  }

  /**
   * The tag effect after a file change has run: it dispatches the tag
   * reader's answer `parsed` for a set file and empty tags for a cleared one.
   */
  function AfterMetadataEffect(s: State, parsed: Metadata): (r: State)
    ensures r.file == s.file
    ensures s.file.None? ==> r.metadata == EmptyMetadata
    ensures s.file.Some? ==> r.metadata == parsed
  {
    Step(s, SetMetadata(MetadataFor(s.file, parsed)))
  }

  /** The initial state: no file, no cover, empty title, artist and album. */
  lemma InitialState()
    ensures Initial.file.None?
    ensures Initial.metadata.cover.None?
    ensures Initial.metadata.title == Some("") && Initial.metadata.artist == Some("") && Initial.metadata.album == Some("")
  {
  }

  /** Clearing the file and letting the effect run brings the hook back to its initial state, from any state. */
  lemma ClearingFileRestoresInitial(s: State, parsed: Metadata)
    ensures AfterMetadataEffect(Step(s, SetFile(None)), parsed) == Initial
  {
  }

  /** Each action is idempotent, and the two commute. */
  lemma StepLaws(s: State, f: Option<File>, m: Metadata)
    ensures Step(Step(s, SetFile(f)), SetFile(f)) == Step(s, SetFile(f))
    ensures Step(Step(s, SetMetadata(m)), SetMetadata(m)) == Step(s, SetMetadata(m))
    ensures Step(Step(s, SetFile(f)), SetMetadata(m)) == Step(Step(s, SetMetadata(m)), SetFile(f)) == State(f, m)
  {
  }
}
