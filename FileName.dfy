/**
 * The audio format the older hook derives from a file name with
 * `name.split('.').pop()`: JavaScript's split on a one-character separator
 * followed by taking the last piece.
 */
module FileName {

  /** `s.split([sep])`: the pieces between separators, empty pieces included. */
  function Split(s: string, sep: char): (parts: seq<string>)
    ensures |parts| >= 1
    ensures forall i :: 0 <= i < |parts| ==> sep !in parts[i]
    decreases |s|
  {
    if s == [] then [""]
    else
      var rest := Split(s[1..], sep);
      if s[0] == sep then [""] + rest
      else [[s[0]] + rest[0]] + rest[1..]
  }

  /** `parts.join([sep])`. */
  function Join(parts: seq<string>, sep: char): string
    requires |parts| >= 1
    decreases |parts|
  {
    if |parts| == 1 then parts[0] else parts[0] + [sep] + Join(parts[1..], sep)
  }

  /** The format handed to the player: the last piece of the name split on '.'. */
  function Format(name: string): string {
    var parts := Split(name, '.');
    parts[|parts| - 1]
  }

  /** Joining the pieces of a split gives back the string. */
  lemma {:induction false} JoinSplit(s: string, sep: char)
    ensures Join(Split(s, sep), sep) == s
    decreases |s|
  {
    if s != [] {
      var rest := Split(s[1..], sep);
      JoinSplit(s[1..], sep);
      if s[0] == sep {
        assert ([""] + rest)[1..] == rest;
      } else {
        var head := [s[0]] + rest[0];
        if |rest| == 1 {
          assert Split(s, sep) == [head];
        } else {
          assert Join(rest, sep) == rest[0] + [sep] + Join(rest[1..], sep);
          assert ([head] + rest[1..])[1..] == rest[1..];
        }
      }
    }
  }

  /** Splitting a join of separator-free pieces gives back the pieces. */
  lemma {:induction false} SplitJoin(parts: seq<string>, sep: char)
    requires |parts| >= 1
    requires forall i :: 0 <= i < |parts| ==> sep !in parts[i]
    ensures Split(Join(parts, sep), sep) == parts
    decreases |parts|
  {
    if |parts| == 1 {
      SplitPiece(parts[0], sep, []);
      assert parts[0] + [] == parts[0];
      assert Split([], sep) == [""];
      assert parts == [parts[0]];
    } else {
      var tail := Join(parts[1..], sep);
      SplitJoin(parts[1..], sep);
      SplitPiece(parts[0], sep, [sep] + tail);
      assert Join(parts, sep) == parts[0] + ([sep] + tail);
      assert ([sep] + tail)[0] == sep && ([sep] + tail)[1..] == tail;
      var r := Split([sep] + tail, sep);
      assert r == [""] + parts[1..];
      assert r[0] == "" && r[1..] == parts[1..];
      assert parts[0] + "" == parts[0];
      assert [parts[0]] + parts[1..] == parts;
    }
  }

  /** A separator-free prefix glues onto the first piece of whatever follows. */
  lemma {:induction false} SplitPiece(piece: string, sep: char, rest: string)
    requires sep !in piece
    requires rest == [] || rest[0] == sep
    ensures var r := Split(rest, sep);
      Split(piece + rest, sep) == [piece + r[0]] + r[1..]
    decreases |piece|
  {
    if piece == [] {
      assert piece + rest == rest;
      var r := Split(rest, sep);
      assert [piece + r[0]] + r[1..] == r;
    } else {
      assert (piece + rest)[0] == piece[0];
      assert (piece + rest)[1..] == piece[1..] + rest;
      SplitPiece(piece[1..], sep, rest);
      var r := Split(rest, sep);
      assert [piece[0]] + (piece[1..] + r[0]) == piece + r[0];
    }
  }

  /**
   * The format has no '.', ends the name, and is the whole name when there is
   * no '.'; otherwise a '.' stands right before it.
   */
  lemma FormatIsLastExtension(name: string)
    ensures var f := Format(name);
      && '.' !in f
      && |f| <= |name| && name[|name| - |f|..] == f
      && ('.' !in name ==> f == name)
      && ('.' in name ==> |f| < |name| && name[|name| - |f| - 1] == '.')
  {
    var parts := Split(name, '.');
    JoinSplit(name, '.');
    LastPiece(parts, '.');
    if '.' !in name {
      SplitPiece(name, '.', []);
      assert name + [] == name;
    }
  }

  /** The last piece closes the join, after a separator when there are several pieces. */
  lemma {:induction false} LastPiece(parts: seq<string>, sep: char)
    requires |parts| >= 1
    ensures var s := Join(parts, sep); var last := parts[|parts| - 1];
      && |last| <= |s| && s[|s| - |last|..] == last
      && (|parts| > 1 ==> |last| < |s| && s[|s| - |last| - 1] == sep)
      && (|parts| > 1 ==> sep in s)
    decreases |parts|
  {
    if |parts| > 1 {
      LastPiece(parts[1..], sep);
      var s := Join(parts, sep);
      var t := Join(parts[1..], sep);
      assert s == (parts[0] + [sep]) + t;
      assert s[|s| - |t|..] == t;
      assert s[|s| - |t| - 1] == sep;
    }
  }

  /** Example: a name with several dots keeps only the last extension. */
  lemma FormatExample()
    ensures Format("live.set.wav") == "wav"
  {
    SplitJoin(["live", "set", "wav"], '.');
    assert Join(["live", "set", "wav"], '.') == "live.set.wav";
  }

  /** Example: a trailing dot gives the empty format. */
  lemma FormatTrailingDot()
    ensures Format("a.") == ""
  {
    SplitJoin(["a", ""], '.');
    assert Join(["a", ""], '.') == "a.";
  }
}
