/** Newline framing of a byte stream (tracking_server.cpp, `handle_client`). */
module LineFraming {
  import opened Wrappers

  /** Complete lines, without their newline, and the bytes after the last newline. */
  datatype Split = Split(lines: seq<string>, rest: string)

  predicate OneLine(s: string) {
    forall i :: 0 <= i < |s| ==> s[i] != '\n'
  }

  /** `std::string::find('\n')`. */
  function FindNewline(s: string): (pos: Option<nat>)
    ensures pos.None? ==> OneLine(s)
    ensures pos.Some? ==> pos.value < |s| && s[pos.value] == '\n' && OneLine(s[..pos.value])
  {
    if s == [] then None
    else if s[0] == '\n' then Some(0)
    else
      match FindNewline(s[1..])
      case None => None
      case Some(p) =>
        assert s[..p + 1] == [s[0]] + s[1..][..p];
        Some(p + 1)
  }

  function SplitLines(s: string): Split
    decreases |s|
  {
    match FindNewline(s)
    case None => Split([], s)
    case Some(p) =>
      var tail := SplitLines(s[p + 1..]);
      Split([s[..p]] + tail.lines, tail.rest)
  }

  /** The stream a list of lines and a remainder came from. */
  function Unsplit(lines: seq<string>, rest: string): string {
    if lines == [] then rest else lines[0] + "\n" + Unsplit(lines[1..], rest)
  }

  /** `lines` are exactly the newline-terminated pieces of `s`, in order, and `rest` is what follows. */
  ghost predicate Frames(lines: seq<string>, rest: string, s: string) {
    && Unsplit(lines, rest) == s
    && OneLine(rest)
    && (forall i :: 0 <= i < |lines| ==> OneLine(lines[i]))
  }

  lemma {:induction false} SplitLinesFrames(s: string)
    ensures Frames(SplitLines(s).lines, SplitLines(s).rest, s)
    decreases |s|
  {
    match FindNewline(s)
    case None =>
    case Some(p) =>
      SplitLinesFrames(s[p + 1..]);
      assert s == s[..p] + "\n" + s[p + 1..];
      assert SplitLines(s).lines[1..] == SplitLines(s[p + 1..]).lines;
  }

  lemma {:induction false} FirstNewline(line: string, tail: string)
    requires OneLine(line)
    ensures FindNewline(line + "\n" + tail) == Some(|line|)
  {
    var s := line + "\n" + tail;
    if line != [] {
      FirstNewline(line[1..], tail);
      assert s[1..] == line[1..] + "\n" + tail;
    }
  }

  lemma RestIsOneLine(s: string)
    ensures OneLine(SplitLines(s).rest)
  {
    SplitLinesFrames(s);
  }

  lemma AppendAssociative(a: string, b: string, c: string)
    ensures a + (b + c) == a + b + c
  {
  }

  /** There is only one way to frame a stream. */
  lemma {:induction false} FramingIsUnique(lines: seq<string>, rest: string, s: string)
    requires Frames(lines, rest, s)
    ensures SplitLines(s) == Split(lines, rest)
    decreases |lines|
  {
    if lines == [] {
      assert s == rest;
    } else {
      var tail := Unsplit(lines[1..], rest);
      var n := |lines[0]|;
      assert s == lines[0] + "\n" + tail;
      assert s[n] == '\n' && s[..n] == lines[0] && s[n + 1..] == tail;
      FirstNewline(lines[0], tail);
      FramingIsUnique(lines[1..], rest, tail);
      assert lines == [lines[0]] + lines[1..];
    }
  }

  /** Framing can be resumed: only the unfinished remainder matters for what comes next. */
  lemma {:induction false} SplitLinesAppend(a: string, b: string)
    ensures var sa := SplitLines(a);
            var sb := SplitLines(sa.rest + b);
            SplitLines(a + b) == Split(sa.lines + sb.lines, sb.rest)
  {
    var sa := SplitLines(a);
    var sb := SplitLines(sa.rest + b);
    SplitLinesFrames(a);
    SplitLinesFrames(sa.rest + b);
    UnsplitAppend(sa.lines, sb.lines, sa.rest, b, sb.rest);
    FramingIsUnique(sa.lines + sb.lines, sb.rest, a + b);
  }

  lemma {:induction false} UnsplitAppend(l1: seq<string>, l2: seq<string>, r1: string, b: string, r2: string)
    requires Unsplit(l2, r2) == r1 + b
    ensures Unsplit(l1 + l2, r2) == Unsplit(l1, r1) + b
  {
    if l1 == [] {
      assert l1 + l2 == l2;
    } else {
      assert (l1 + l2)[1..] == l1[1..] + l2;
      UnsplitAppend(l1[1..], l2, r1, b, r2);
    }
  }
}
