/**
 * Values shared by every hook: the loaded file, its tag metadata, and the
 * JavaScript truthiness rules the hooks lean on when they read a
 * `number | null` or a `string | null`.
 */
module Media {
  import opened Wrappers

  /** A browser `File`: the hooks look only at its name; the bytes are opaque. */
  datatype File = File(name: string, contents: seq<bv8>)

  /** A cover image as chosen by the tag reader. */
  datatype Picture = Picture(format: string, data: seq<bv8>)

  /** models/Metadata.ts: the cover may be null and every text tag may be undefined. */
  datatype Metadata = Metadata(cover: Option<Picture>, title: Option<string>, artist: Option<string>, album: Option<string>)

  /** The metadata every hook starts with and falls back to: no cover, empty texts. */
  const EmptyMetadata: Metadata := Metadata(None, Some(""), Some(""), Some(""))

  /** JavaScript truthiness of a `number | null`: null and 0 are falsy (NaN is not modelled). */
  predicate Truthy(n: Option<real>) {
    n.Some? && n.value != 0.0
  }

  /** JavaScript truthiness of a `string | null`: null and "" are falsy. */
  predicate TruthyText(t: Option<string>) {
    t.Some? && t.value != ""
  }

  /** The JavaScript expression `n || fallback` for a `number | null`. */
  function Or(n: Option<real>, fallback: real): real {
    if Truthy(n) then n.value else fallback
  }

  /**
   * The metadata the store hooks' effect dispatches after a file change:
   * the tag reader's answer `parsed` when a file is set, empty metadata
   * when the file was cleared.
   */
  function MetadataFor(file: Option<File>, parsed: Metadata): Metadata {
    if file.Some? then parsed else EmptyMetadata
  }
}
