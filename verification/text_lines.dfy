/** Lines of a text and trimming, as Rust's `split_inclusive('\n')` and `str::trim` define them. */
module TextLines {
  /** The Unicode White_Space property. */
  predicate IsWhite(c: char) {
    var n := c as int;
    || 0x09 <= n <= 0x0D || n == 0x20 || n == 0x85 || n == 0xA0 || n == 0x1680 || 0x2000 <= n <= 0x200A
    || n == 0x2028 || n == 0x2029 || n == 0x202F || n == 0x205F || n == 0x3000
  }

  function TrimStart(s: string): string {
    if s != "" && IsWhite(s[0]) then TrimStart(s[1..]) else s
  }

  function TrimEnd(s: string): string {
    if s != "" && IsWhite(s[|s| - 1]) then TrimEnd(s[..|s| - 1]) else s
  }

  function Trim(s: string): string {
    TrimStart(TrimEnd(s))
  }

  predicate EndsLine(s: string) {
    s == "" || s[|s| - 1] == '\n'
  }

  /** Length of the first line, its newline included. */
  function FirstLine(s: string): (n: nat)
    ensures n <= |s| && (s != "" ==> n > 0)
  {
    if s == "" then 0 else if s[0] == '\n' then 1 else 1 + FirstLine(s[1..])
  }

  /** What follows an ended line does not change it. */
  lemma {:induction false} FirstLineJoin(a: string, b: string)
    requires a != "" && EndsLine(a)
    ensures FirstLine(a + b) == FirstLine(a)
  {
    if a[0] != '\n' {
      assert (a + b)[1..] == a[1..] + b;
      FirstLineJoin(a[1..], b);
    }
  }

  lemma {:induction false} FirstLineTake(s: string)
    ensures FirstLine(s[..FirstLine(s)]) == FirstLine(s)
    ensures FirstLine(s) < |s| ==> EndsLine(s[..FirstLine(s)])
  {
    if s != "" && s[0] != '\n' {
      FirstLineTake(s[1..]);
      assert s[..FirstLine(s)][1..] == s[1..][..FirstLine(s[1..])];
    }
  }

  /** A line that lacks only its newline. */
  lemma {:induction false} FirstLineEnd(s: string)
    requires FirstLine(s) == |s| && !EndsLine(s)
    ensures FirstLine(s + "\n") == |s| + 1
  {
    if |s| == 1 {
      assert (s + "\n")[1..] == "\n" && "\n"[1..] == "";
    } else {
      assert (s + "\n")[1..] == s[1..] + "\n";
      FirstLineEnd(s[1..]);
    }
  }

  lemma {:induction false} FirstLineInside(s: string)
    ensures forall i :: 0 <= i < FirstLine(s) - 1 ==> s[i] != '\n'
    ensures s != "" && FirstLine(s) < |s| ==> s[FirstLine(s) - 1] == '\n'
  {
    if s != "" && s[0] != '\n' {
      FirstLineInside(s[1..]);
      forall i | 0 < i < FirstLine(s) - 1 ensures s[i] != '\n' {
        assert s[i] == s[1..][i - 1];
      }
    }
  }

  lemma {:induction false} FirstLineWhole(s: string)
    requires s != "" && forall i :: 0 <= i < |s| - 1 ==> s[i] != '\n'
    ensures FirstLine(s) == |s|
  {
    if |s| > 1 {
      assert forall i :: 0 <= i < |s| - 2 ==> s[1..][i] == s[i + 1];
      FirstLineWhole(s[1..]);
    } else {
      assert s[1..] == "";
    }
  }

  function SplitLines(s: string): seq<string>
    decreases |s|
  {
    if s == "" then [] else [s[..FirstLine(s)]] + SplitLines(s[FirstLine(s)..])
  }

  /** Length of the first k lines. */
  function Offset(lines: seq<string>, k: nat): nat
    requires k <= |lines|
  {
    if k == 0 then 0 else Offset(lines, k - 1) + |lines[k - 1]|
  }

  lemma {:induction false} OffsetGrows(lines: seq<string>, i: nat, j: nat)
    requires i <= j <= |lines|
    ensures Offset(lines, i) <= Offset(lines, j)
  {
    if i < j {
      OffsetGrows(lines, i, j - 1);
    }
  }

  function Concat(lines: seq<string>): string {
    if lines == [] then "" else lines[0] + Concat(lines[1..])
  }

  /** Splitting goes piece by piece at a line end. */
  lemma {:induction false} SplitJoin(a: string, b: string)
    requires EndsLine(a)
    ensures SplitLines(a + b) == SplitLines(a) + SplitLines(b)
    decreases |a|
  {
    if a == "" {
      assert a + b == b;
    } else {
      var n := FirstLine(a);
      FirstLineJoin(a, b);
      assert (a + b)[..n] == a[..n] && (a + b)[n..] == a[n..] + b;
      SplitJoin(a[n..], b);
    }
  }

  lemma HeadLine(s: string)
    requires s != ""
    ensures var n := FirstLine(s);
            && SplitLines(s) != [] && SplitLines(s)[0] == s[..n] && SplitLines(s)[1..] == SplitLines(s[n..])
            && SplitLines(s[..n]) == [s[..n]] && (n < |s| ==> EndsLine(s[..n]))
  {
    var n := FirstLine(s);
    FirstLineTake(s);
    assert s[..n][..n] == s[..n] && s[..n][n..] == "";
  }

  /** The text cut at `at` is its first k lines and the others. */
  predicate CutAt(s: string, lines: seq<string>, k: nat, at: nat) {
    && at <= |s| && k <= |lines|
    && SplitLines(s[at..]) == lines[k..] && SplitLines(s[..at]) == lines[..k]
    && (at < |s| ==> EndsLine(s[..at]))
  }

  lemma CutNext(s: string, lines: seq<string>, k: nat, at: nat)
    requires CutAt(s, lines, k, at) && k < |lines|
    ensures CutAt(s, lines, k + 1, at + |lines[k]|)
  {
    var front, rest := s[..at], s[at..];
    HeadLine(rest);
    var n := FirstLine(rest);
    var line := rest[..n];
    assert lines[k..][0] == lines[k] && lines[k..][1..] == lines[k + 1..];
    assert rest[n..] == s[at + n..] && front + line == s[..at + n];
    CutFront(front, line, lines, k);
    assert at + n < |s| ==> EndsLine(front + line) by { if at + n < |s| { EndsJoin(front, line); } }
  }

  lemma CutFront(front: string, line: string, lines: seq<string>, k: nat)
    requires k < |lines| && EndsLine(front) && SplitLines(front) == lines[..k] && SplitLines(line) == [lines[k]]
    ensures SplitLines(front + line) == lines[..k + 1]
  {
    SplitJoin(front, line);
  }

  lemma {:induction false} CutFrom(s: string, lines: seq<string>, k: nat)
    requires CutAt(s, lines, 0, 0) && k <= |lines|
    ensures CutAt(s, lines, k, Offset(lines, k))
  {
    if k > 0 {
      CutFrom(s, lines, k - 1);
      CutNext(s, lines, k - 1, Offset(lines, k - 1));
    }
  }

  lemma SplitAt(s: string, k: nat)
    requires k <= |SplitLines(s)|
    ensures CutAt(s, SplitLines(s), k, Offset(SplitLines(s), k))
  {
    assert s[0..] == s && s[..0] == "";
    CutFrom(s, SplitLines(s), k);
  }

  /** All lines together are the text. */
  lemma WholeText(s: string)
    ensures Offset(SplitLines(s), |SplitLines(s)|) == |s|
  {
    var n := |SplitLines(s)|;
    SplitAt(s, n);
    var at := Offset(SplitLines(s), n);
    if at < |s| {
      HeadLine(s[at..]);
    }
  }

  lemma LineAlone(s: string)
    requires s != "" && FirstLine(s) == |s|
    ensures SplitLines(s) == [s]
  {
    assert s[..|s|] == s && s[|s|..] == "";
  }

  lemma OneLine(s: string)
    requires s != "" && EndsLine(s) && forall i :: 0 <= i < |s| - 1 ==> s[i] != '\n'
    ensures SplitLines(s) == [s]
  {
    FirstLineWhole(s);
    LineAlone(s);
  }

  /** Ending the last line leaves the others alone. */
  lemma EndLastLine(s: string)
    requires !EndsLine(s)
    ensures var ls := SplitLines(s);
            ls != [] && SplitLines(s + "\n") == ls[..|ls| - 1] + [ls[|ls| - 1] + "\n"]
  {
    HeadLine(s);
    var ls := SplitLines(s);
    SplitAt(s, |ls| - 1);
    WholeText(s);
    EndCut(s, ls, Offset(ls, |ls| - 1));
  }

  lemma EndCut(s: string, ls: seq<string>, at: nat)
    requires ls != [] && at < |s| && CutAt(s, ls, |ls| - 1, at) && s[|s| - 1] != '\n'
    ensures SplitLines(s + "\n") == ls[..|ls| - 1] + [ls[|ls| - 1] + "\n"]
  {
    var front, last := s[..at], s[at..];
    HeadLine(last);
    assert ls[|ls| - 1..] == [ls[|ls| - 1]];
    assert last[FirstLine(last)..] == "";
    assert last == ls[|ls| - 1] && last[|last| - 1] == s[|s| - 1];
    FirstLineEnd(last);
    LineAlone(last + "\n");
    assert s + "\n" == front + (last + "\n");
    SplitJoin(front, last + "\n");
  }

  /** A line that is ended and has no other newline. */
  ghost predicate StandsAlone(line: string) {
    EndsLine(line) && SplitLines(line) == [line]
  }

  /** Lines written one after the other are the lines of the text. */
  lemma {:induction false} ConcatSplits(lines: seq<string>)
    requires forall k :: 0 <= k < |lines| ==> StandsAlone(lines[k])
    ensures SplitLines(Concat(lines)) == lines && EndsLine(Concat(lines))
  {
    if lines != [] {
      var rest := Concat(lines[1..]);
      ConcatSplits(lines[1..]);
      assert StandsAlone(lines[0]);
      SplitJoin(lines[0], rest);
      assert [lines[0]] + lines[1..] == lines;
      EndsJoin(lines[0], rest);
    }
  }

  lemma EndsJoin(a: string, b: string)
    requires EndsLine(a) && EndsLine(b)
    ensures EndsLine(a + b)
  {
  }

  lemma TrimNewline(s: string)
    ensures Trim(s + "\n") == Trim(s)
  {
    assert (s + "\n")[..|s|] == s;
  }

  /** Text that starts with an ordinary character still does when trimmed. */
  lemma TrimKeepsHead(s: string)
    requires s != "" && !IsWhite(s[0])
    ensures Trim(s) != "" && Trim(s)[0] == s[0]
  {
    EndKeepsHead(s);
  }

  lemma {:induction false} EndKeepsHead(s: string)
    requires s != "" && !IsWhite(s[0])
    ensures TrimEnd(s) != "" && TrimEnd(s)[0] == s[0]
  {
    if IsWhite(s[|s| - 1]) {
      EndKeepsHead(s[..|s| - 1]);
    }
  }
}
