/** Bounded line readers over a buffered byte stream: the MCP server's (`src/mcp.rs`) and the PCC
    consumer's (`src/pcc_import.rs`). */
module Framing {
  import opened Basics

  newtype Byte = b: int | 0 <= b < 256

  const NEWLINE: Byte := 10
  const MAX_MESSAGE_BYTES := 1024 * 1024
  const MAX_LINE_BYTES := 4 * 1024 * 1024

  function Joined(buffers: seq<seq<Byte>>): seq<Byte> {
    if buffers == [] then [] else buffers[0] + Joined(buffers[1..])
  }

  /** A `BufRead`: the bytes still to come, cut into whatever buffers the stream delivers. */
  class BufReader {
    var buffers: seq<seq<Byte>>

    predicate Valid()
      reads this
    {
      forall i :: 0 <= i < |buffers| ==> buffers[i] != []
    }

    function Rest(): seq<Byte>
      reads this
    {
      Joined(buffers)
    }

    constructor (buffers: seq<seq<Byte>>)
      requires forall i :: 0 <= i < |buffers| ==> buffers[i] != []
      ensures Valid() && Rest() == Joined(buffers)
    {
      this.buffers := buffers;
    }

    /** The current buffer, empty only at the end of the stream. */
    method FillBuf() returns (available: seq<Byte>)
      requires Valid()
      ensures available <= Rest() && (available == [] <==> Rest() == [])
      ensures buffers != [] ==> available == buffers[0]
      ensures buffers == [] ==> available == []
    {
      available := if buffers == [] then [] else buffers[0];
    }

    method Consume(n: nat)
      requires Valid() && (buffers == [] ==> n == 0) && (buffers != [] ==> n <= |buffers[0]|)
      modifies this
      ensures Valid() && n <= |old(Rest())| && Rest() == old(Rest())[n..]
      ensures old(buffers) != [] && n > 0 && n < |old(buffers)[0]| ==> |buffers| == |old(buffers)|
      ensures old(buffers) != [] && n == |old(buffers)[0]| ==> buffers == old(buffers)[1..]
    {
      if buffers != [] {
        if n == |buffers[0]| {
          buffers := buffers[1..];
        } else {
          buffers := [buffers[0][n..]] + buffers[1..];
        }
      }
    }
  }

  /** The end of the line that byte `from` is in: behind its first newline, or the end of all bytes. */
  function LineEnd(s: seq<Byte>, from: nat): (n: nat)
    requires from <= |s|
    ensures from <= n <= |s| && (from < |s| ==> from < n)
    decreases |s| - from
  {
    if from == |s| then from else if s[from] == NEWLINE then from + 1 else LineEnd(s, from + 1)
  }

  /** Bytes up to and including the first newline, or all of them. */
  function LineLength(s: seq<Byte>): (n: nat)
    ensures n <= |s| && (s != [] ==> n > 0)
  {
    LineEnd(s, 0)
  }

  predicate NoneIn(s: seq<Byte>, low: nat, high: nat)
    requires high <= |s|
  {
    forall i :: low <= i < high ==> s[i] != NEWLINE
  }

  /** One line: no newline but at its end. */
  predicate IsLine(l: seq<Byte>) {
    l != [] && NoneIn(l, 0, |l| - 1)
  }

  predicate Ended(l: seq<Byte>) {
    l != [] && l[|l| - 1] == NEWLINE
  }

  lemma {:induction false} LineEndIs(s: seq<Byte>, from: nat)
    requires from < |s|
    ensures NoneIn(s, from, LineEnd(s, from) - 1)
    ensures LineEnd(s, from) < |s| ==> s[LineEnd(s, from) - 1] == NEWLINE
    decreases |s| - from
  {
    if s[from] != NEWLINE && from + 1 < |s| {
      LineEndIs(s, from + 1);
    }
  }

  lemma {:induction false} LineEndUnique(s: seq<Byte>, from: nat, n: nat)
    requires from < n <= |s| && NoneIn(s, from, n - 1) && (n < |s| ==> s[n - 1] == NEWLINE)
    ensures LineEnd(s, from) == n
    decreases |s| - from
  {
    if from < n - 1 {
      LineEndUnique(s, from + 1, n);
    }
  }

  lemma {:induction false} LineEndBeyond(s: seq<Byte>, from: nat, n: nat)
    requires from <= n < |s| && NoneIn(s, from, n)
    ensures LineEnd(s, from) > n
    decreases |s| - from
  {
    if from < n {
      LineEndBeyond(s, from + 1, n);
    }
  }

  /** `split_inclusive('\n')`. */
  function Lines(s: seq<Byte>): seq<seq<Byte>>
    decreases |s|
  {
    if s == [] then [] else [s[..LineLength(s)]] + Lines(s[LineLength(s)..])
  }

  /** Splitting loses nothing, and a line holds a newline only at its end. */
  lemma {:induction false} LinesAreASplit(s: seq<Byte>)
    ensures Joined(Lines(s)) == s
    ensures forall k :: 0 <= k < |Lines(s)| ==> IsLine(Lines(s)[k]) && (k < |Lines(s)| - 1 ==> Ended(Lines(s)[k]))
    decreases |s|
  {
    if s != [] {
      var n := LineLength(s);
      var first, rest := s[..n], Lines(s[n..]);
      LineEndIs(s, 0);
      LinesAreASplit(s[n..]);
      assert first + s[n..] == s;
      forall k | 0 <= k < |rest| + 1
        ensures IsLine(([first] + rest)[k]) && (k < |rest| ==> Ended(([first] + rest)[k])) {
        if k > 0 {
          assert ([first] + rest)[k] == rest[k - 1];
        } else {
          assert rest != [] ==> n < |s|;
        }
      }
      assert ([first] + rest)[1..] == rest;
    }
  }

  method FindNewline(s: seq<Byte>) returns (at: Option<nat>)
    ensures at.Some? ==> at.value < |s| && s[at.value] == NEWLINE && NoneIn(s, 0, at.value)
    ensures at.None? ==> NoneIn(s, 0, |s|)
  {
    for i := 0 to |s|
      invariant NoneIn(s, 0, i)
    {
      if s[i] == NEWLINE {
        return Some(i);
      }
    }
    return None;
  }

  /** The first newline of the current buffer, as FindNewline reports it. */
  predicate FirstNewline(buffer: seq<Byte>, newline: Option<nat>) {
    && (newline.Some? ==>
          newline.value < |buffer| && buffer[newline.value] == NEWLINE && NoneIn(buffer, 0, newline.value))
    && (newline.None? ==> NoneIn(buffer, 0, |buffer|))
  }

  /** Taking the front of the current buffer extends what has been read. */
  lemma TakeExtends(s: seq<Byte>, done: nat, buffer: seq<Byte>, take: nat)
    requires done <= |s| && buffer <= s[done..] && take <= |buffer|
    ensures s[..done] + buffer[..take] == s[..done + take] && s[done..][take..] == s[done + take..]
  {
    assert buffer[..take] == s[done..][..take] == s[done..done + take];
  }

  lemma BufferInPlace(s: seq<Byte>, done: nat, buffer: seq<Byte>, take: nat)
    requires done <= |s| && buffer <= s[done..] && take <= |buffer| && NoneIn(s, 0, done) && NoneIn(buffer, 0, take)
    ensures NoneIn(s, 0, done + take)
  {
    forall i | done <= i < done + take ensures s[i] != NEWLINE {
      assert s[i] == s[done..][i - done] == buffer[i - done];
    }
  }

  /** What a buffer up to its first newline, or all of it, adds to a line that has had none. */
  lemma NextPiece(s: seq<Byte>, done: nat, buffer: seq<Byte>, newline: Option<nat>)
    requires done <= |s| && buffer <= s[done..] && NoneIn(s, 0, done) && FirstNewline(buffer, newline)
    ensures newline.None? ==> NoneIn(s, 0, done + |buffer|)
    ensures newline.Some? ==> LineLength(s) == done + newline.value + 1
  {
    if newline.Some? {
      BufferInPlace(s, done, buffer, newline.value);
      assert s[done + newline.value] == s[done..][newline.value] == buffer[newline.value];
      LineEndUnique(s, 0, done + newline.value + 1);
    } else {
      BufferInPlace(s, done, buffer, |buffer|);
    }
  }

  /** One MCP line: absent at the end of the stream, otherwise flagged and emptied when too long. */
  datatype Frame = Frame(oversized: bool, line: seq<Byte>)

  function FrameOf(line: seq<Byte>): Frame {
    if |line| > MAX_MESSAGE_BYTES then Frame(true, []) else Frame(false, line)
  }

  /** What the buffer holds after `done` bytes of a line: all of them, or nothing once they are too many. */
  function Kept(s: seq<Byte>, done: nat): seq<Byte>
    requires done <= |s|
  {
    if done > MAX_MESSAGE_BYTES then [] else s[..done]
  }

  method ReadMcpLine(reader: BufReader) returns (frame: Option<Frame>)
    requires reader.Valid()
    modifies reader
    ensures reader.Valid()
    ensures var s := old(reader.Rest());
            && frame == (if s == [] then None else Some(FrameOf(s[..LineLength(s)])))
            && reader.Rest() == s[LineLength(s)..]
  {
    ghost var s := reader.Rest();
    var line: seq<Byte> := [];
    var oversized := false;
    var readAny := false;
    ghost var done := 0;
    while true
      invariant reader.Valid() && 0 <= done <= |s| && reader.Rest() == s[done..]
      invariant readAny <==> done > 0
      invariant NoneIn(s, 0, done)
      invariant oversized <==> done > MAX_MESSAGE_BYTES
      invariant line == Kept(s, done)
      decreases |s| - done
    {
      var available := reader.FillBuf();
      if available == [] {
        if readAny {
          LineEndUnique(s, 0, |s|);
          assert s[..|s|] == s;
          return Some(Frame(oversized, line));
        }
        return None;
      }
      var newline := FindNewline(available);
      var consumed := if newline.Some? then newline.value + 1 else |available|;
      readAny := true;
      TakeExtends(s, done, available, consumed);
      NextPiece(s, done, available, newline);
      if !oversized {
        if |line| + consumed > MAX_MESSAGE_BYTES {
          line := [];
          oversized := true;
        } else {
          line := line + available[..consumed];
        }
      }
      reader.Consume(consumed);
      done := done + consumed;
      if newline.Some? {
        return Some(Frame(oversized, line));
      }
    }
  }

  /** Reading to the end refines the plain split, however the stream is cut into buffers. */
  method ReadMcpLines(reader: BufReader) returns (frames: seq<Frame>)
    requires reader.Valid()
    modifies reader
    ensures reader.Rest() == []
    ensures var lines := Lines(old(reader.Rest()));
            |frames| == |lines| && forall k :: 0 <= k < |lines| ==> frames[k] == FrameOf(lines[k])
  {
    frames := [];
    ghost var lines := Lines(reader.Rest());
    while true
      invariant reader.Valid() && |frames| <= |lines| && lines[|frames|..] == Lines(reader.Rest())
      invariant forall k :: 0 <= k < |frames| ==> frames[k] == FrameOf(lines[k])
      decreases |reader.Rest()|
    {
      ghost var s := reader.Rest();
      var frame := ReadMcpLine(reader);
      if frame.None? {
        return;
      }
      assert lines[|frames|..][0] == s[..LineLength(s)] && lines[|frames|..][1..] == lines[|frames| + 1..];
      frames := frames + [frame.value];
    }
  }

  // ---- the PCC reader gives up on a line as soon as it is known to be too long

  function PccTake(s: seq<Byte>): (n: nat)
    ensures n <= |s| && (s != [] ==> n > 0)
  {
    if LineLength(s) > MAX_LINE_BYTES + 1 then MAX_LINE_BYTES + 1 else LineLength(s)
  }

  function Zeros(n: nat): seq<Byte> {
    seq(n, i => 0 as Byte)
  }

  function PccLine(s: seq<Byte>): seq<Byte> {
    if LineLength(s) > MAX_LINE_BYTES + 1 then Zeros(MAX_LINE_BYTES + 1) else s[..LineLength(s)]
  }

  /** The successive results of the reader over a byte stream. */
  function PccLines(s: seq<Byte>): seq<seq<Byte>>
    decreases |s|
  {
    if s == [] then [] else [PccLine(s)] + PccLines(s[PccTake(s)..])
  }

  method ReadPccLine(reader: BufReader) returns (result: Option<seq<Byte>>)
    requires reader.Valid()
    modifies reader
    ensures reader.Valid()
    ensures var s := old(reader.Rest());
            && result == (if s == [] then None else Some(PccLine(s)))
            && reader.Rest() == s[PccTake(s)..]
  {
    ghost var s := reader.Rest();
    var line: seq<Byte> := [];
    while true
      invariant reader.Valid() && |line| <= |s| && line == s[..|line|] && reader.Rest() == s[|line|..]
      invariant |line| <= MAX_LINE_BYTES + 1 && NoneIn(s, 0, |line|)
      decreases |s| - |line|
    {
      var buffer := reader.FillBuf();
      if buffer == [] {
        assert line == s;
        if line == [] {
          return None;
        }
        LineEndUnique(s, 0, |s|);
        return Some(line);
      }
      var newline := FindNewline(buffer);
      var take := if newline.Some? then newline.value + 1 else |buffer|;
      if |line| + take > MAX_LINE_BYTES + 1 {
        var remaining := MAX_LINE_BYTES + 1 - |line|;
        TakeExtends(s, |line|, buffer, remaining);
        TooLong(s, |line|, buffer, newline);
        reader.Consume(remaining);
        return Some(seq(MAX_LINE_BYTES + 1, i => 0 as Byte));
      }
      TakeExtends(s, |line|, buffer, take);
      NextPiece(s, |line|, buffer, newline);
      reader.Consume(take);
      line := line + buffer[..take];
      if newline.Some? {
        return Some(line);
      }
    }
  }

  lemma TooLong(s: seq<Byte>, done: nat, buffer: seq<Byte>, newline: Option<nat>)
    requires done <= |s| && buffer <= s[done..] && buffer != [] && NoneIn(s, 0, done) && FirstNewline(buffer, newline)
    ensures LineLength(s) >= done + if newline.Some? then newline.value + 1 else |buffer|
  {
    NextPiece(s, done, buffer, newline);
    if newline.None? {
      LineEndBeyond(s, 0, done + |buffer| - 1);
    }
  }

  /** The PCC reader returns a line of legal length exactly as the plain split has it. */
  lemma PccLineAgrees(s: seq<Byte>)
    requires s != []
    ensures |PccLine(s)| <= MAX_LINE_BYTES <==> |Lines(s)[0]| <= MAX_LINE_BYTES
    ensures |PccLine(s)| <= MAX_LINE_BYTES ==> PccLine(s) == Lines(s)[0] && s[PccTake(s)..] == s[|Lines(s)[0]|..]
  {
  }

  /** Two lists of lines agree up to line k, and both find that one too long if one does. */
  predicate AgreeTo(a: seq<seq<Byte>>, b: seq<seq<Byte>>, k: nat) {
    && k < |a| && k < |b| && a[..k] == b[..k]
    && if |b[k]| <= MAX_LINE_BYTES then a[k] == b[k] else |a[k]| > MAX_LINE_BYTES
  }

  lemma AgreeCons(head: seq<Byte>, a: seq<seq<Byte>>, b: seq<seq<Byte>>, k: nat)
    requires AgreeTo(a, b, k)
    ensures AgreeTo([head] + a, [head] + b, k + 1)
  {
    assert ([head] + a)[..k + 1] == [head] + a[..k] && ([head] + b)[..k + 1] == [head] + b[..k];
  }

  lemma PccStep(s: seq<Byte>)
    requires s != [] && |Lines(s)[0]| <= MAX_LINE_BYTES
    ensures var head, rest := Lines(s)[0], s[PccTake(s)..];
            Lines(s) == [head] + Lines(rest) && PccLines(s) == [head] + PccLines(rest)
  {
    PccLineAgrees(s);
  }

  /** Of any input it returns the lines of the plain split up to the first that is too long, and for that one a line
      that is too long as well. */
  lemma {:induction false} PccLinesAgree(s: seq<Byte>, k: nat)
    requires k < |Lines(s)| && forall j :: 0 <= j < k ==> |Lines(s)[j]| <= MAX_LINE_BYTES
    ensures AgreeTo(PccLines(s), Lines(s), k)
    decreases k
  {
    if k == 0 {
      PccLineAgrees(s);
    } else {
      var rest := s[PccTake(s)..];
      PccStep(s);
      forall j | 0 <= j < k - 1 ensures |Lines(rest)[j]| <= MAX_LINE_BYTES {
        assert Lines(rest)[j] == Lines(s)[j + 1];
      }
      PccLinesAgree(rest, k - 1);
      AgreeCons(Lines(s)[0], PccLines(rest), Lines(rest), k - 1);
    }
  }
}
