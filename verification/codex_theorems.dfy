/** Properties of the owned section: whatever is written is found again, and nothing outside it changes. */
module CodexTheorems {
  import opened Basics
  import opened TextLines
  import opened CodexSection
  import Toml

  ghost predicate OwnedMarks(m: seq<Mark>) {
    m != [] && m[0] == Header && forall k :: 1 <= k < |m| ==> m[k] == Plain
  }

  /** A text that is a section of its own: a header line, no other table line, all lines ended. */
  ghost predicate Owned(d: string) {
    EndsLine(d) && OwnedMarks(Marks(SplitLines(d)))
  }

  ghost predicate NoHeader(marks: seq<Mark>) {
    forall k :: 0 <= k < |marks| ==> marks[k] != Header
  }

  lemma {:induction false} HeaderFromIs(marks: seq<Mark>, k: nat, i: nat)
    requires k <= i < |marks| && marks[i] == Header && forall m :: k <= m < i ==> marks[m] != Header
    ensures HeaderFrom(marks, k) == i
    decreases i - k
  {
    if k < i {
      HeaderFromIs(marks, k + 1, i);
    }
  }

  lemma {:induction false} HeaderFromFinds(marks: seq<Mark>, k: nat)
    requires k <= |marks|
    ensures forall m :: k <= m < HeaderFrom(marks, k) ==> marks[m] != Header
    decreases |marks| - k
  {
    if k < |marks| && marks[k] != Header {
      HeaderFromFinds(marks, k + 1);
    }
  }

  lemma {:induction false} TableFromIs(marks: seq<Mark>, k: nat, i: nat)
    requires k <= i <= |marks| && (i < |marks| ==> marks[i] != Plain) && forall m :: k <= m < i ==> marks[m] == Plain
    ensures TableFrom(marks, k) == i
    decreases i - k
  {
    if k < i {
      TableFromIs(marks, k + 1, i);
    }
  }

  lemma {:induction false} TableFromFinds(marks: seq<Mark>, k: nat)
    requires k <= |marks|
    ensures TableFrom(marks, k) < |marks| ==> marks[TableFrom(marks, k)] != Plain
    decreases |marks| - k
  {
    if k < |marks| && marks[k] == Plain {
      TableFromFinds(marks, k + 1);
    }
  }

  lemma MarksJoin(a: seq<string>, b: seq<string>)
    ensures Marks(a + b) == Marks(a) + Marks(b)
  {
    assert forall k :: |a| <= k < |a + b| ==> (a + b)[k] == b[k - |a|];
  }

  ghost predicate StartsTable(lines: seq<string>) {
    Marks(lines) != [] ==> Marks(lines)[0] != Plain
  }

  lemma {:induction false} OffsetPrefix(a: seq<string>, b: seq<string>, k: nat)
    requires k <= |a|
    ensures Offset(a + b, k) == Offset(a, k)
  {
    if k > 0 {
      OffsetPrefix(a, b, k - 1);
    }
  }

  lemma SectionOfMarks(f: seq<Mark>, d: seq<Mark>, b: seq<Mark>)
    requires NoHeader(f) && OwnedMarks(d) && (b != [] ==> b[0] != Plain)
    ensures SectionLines(f + d + b) == Span(|f|, |f| + |d|)
  {
    var marks := f + d + b;
    assert marks[|f|] == d[0];
    assert forall m :: 0 <= m < |f| ==> marks[m] == f[m];
    HeaderFromIs(marks, 0, |f|);
    assert forall m :: |f| + 1 <= m < |f| + |d| ==> marks[m] == d[m - |f|];
    assert b != [] ==> marks[|f| + |d|] == b[0];
    TableFromIs(marks, |f| + 1, |f| + |d|);
  }

  lemma LinesBetween(front: string, d: string, back: string, f: seq<string>, o: seq<string>, b: seq<string>)
    requires EndsLine(front) && EndsLine(d) && f == SplitLines(front) && o == SplitLines(d) && b == SplitLines(back)
    ensures SplitLines(front + d + back) == f + o + b
    ensures Offset(f, |f|) == |front| && Offset(f + o, |f + o|) == |front| + |d|
  {
    SplitJoin(front, d);
    EndsJoin(front, d);
    SplitJoin(front + d, back);
    WholeText(front);
    WholeText(front + d);
  }

  lemma OffsetsBetween(lines: seq<string>, f: seq<string>, d: seq<string>, b: seq<string>, fn: nat, dn: nat)
    requires lines == f + d + b && Offset(f, |f|) == fn && Offset(f + d, |f + d|) == fn + dn
    ensures Offset(lines, |f|) == fn && Offset(lines, |f| + |d|) == fn + dn
  {
    var fd := f + d;
    OffsetPrefix(fd, b, |fd|);
    OffsetPrefix(fd, b, |f|);
    OffsetPrefix(f, d, |f|);
  }

  lemma MarksBetween(lines: seq<string>, f: seq<string>, d: seq<string>, b: seq<string>)
    requires lines == f + d + b
    ensures Marks(lines) == Marks(f) + Marks(d) + Marks(b)
  {
    MarksJoin(f, d);
    MarksJoin(f + d, b);
  }

  /** Marks alone place the section. */
  lemma FoundAmong(lines: seq<string>, f: seq<string>, d: seq<string>, b: seq<string>,
        mf: seq<Mark>, md: seq<Mark>, mb: seq<Mark>, fn: nat, dn: nat)
    requires lines == f + d + b && |mf| == |f| && |md| == |d| && |mb| == |b|
    requires Offset(f, |f|) == fn && Offset(f + d, |f + d|) == fn + dn
    requires NoHeader(mf) && OwnedMarks(md) && (mb != [] ==> mb[0] != Plain)
    ensures Offsets(lines, SectionLines(mf + md + mb)) == Span(fn, fn + dn)
  {
    SectionOfMarks(mf, md, mb);
    OffsetsBetween(lines, f, d, b, fn, dn);
  }

  lemma FoundIn(raw: string, front: string, d: string, back: string, f: seq<string>, o: seq<string>, b: seq<string>)
    requires raw == front + d + back && EndsLine(front) && EndsLine(d)
    requires f == SplitLines(front) && o == SplitLines(d) && b == SplitLines(back)
    requires NoHeader(Marks(f)) && OwnedMarks(Marks(o)) && StartsTable(b)
    ensures Section(raw) == Span(|front|, |front| + |d|)
  {
    LinesBetween(front, d, back, f, o, b);
    MarksBetween(SplitLines(raw), f, o, b);
    FoundAmong(SplitLines(raw), f, o, b, Marks(f), Marks(o), Marks(b), |front|, |d|);
  }

  /** A section between text without the header and text that starts a table is found exactly. */
  lemma FoundBetween(raw: string, front: string, d: string, back: string)
    requires raw == front + d + back
    requires EndsLine(front) && NoHeader(Marks(SplitLines(front))) && Owned(d) && StartsTable(SplitLines(back))
    ensures Section(raw) == Span(|front|, |front| + |d|)
  {
    FoundIn(raw, front, d, back, SplitLines(front), SplitLines(d), SplitLines(back));
  }

  /** The text before the place of the section, with the separation an insertion makes. */
  function Front(raw: string): string {
    match Section(raw)
    case Span(a, _) => SectionInRange(raw); raw[..a]
    case Absent => Separated(raw)
  }

  function Back(raw: string): string {
    match Section(raw)
    case Span(_, b) => SectionInRange(raw); raw[b..]
    case Absent => ""
  }

  lemma BlankIsPlain()
    ensures StandsAlone("\n") && MarkOf("\n") == Plain
  {
    OneLine("\n");
    TrimNewline("");
    assert "" + "\n" == "\n";
  }

  lemma EndedMarks(raw: string)
    requires !EndsLine(raw)
    ensures Marks(SplitLines(raw + "\n")) == Marks(SplitLines(raw))
  {
    var lines := SplitLines(raw);
    EndLastLine(raw);
    SameMarks(lines, lines[..|lines| - 1] + [lines[|lines| - 1] + "\n"]);
  }

  lemma SameMarks(a: seq<string>, b: seq<string>)
    requires a != [] && b == a[..|a| - 1] + [a[|a| - 1] + "\n"]
    ensures Marks(b) == Marks(a)
  {
    TrimNewline(a[|a| - 1]);
  }

  lemma SeparatedHasNoHeader(raw: string)
    requires NoHeader(Marks(SplitLines(raw)))
    ensures EndsLine(Separated(raw)) && NoHeader(Marks(SplitLines(Separated(raw))))
  {
    if raw != "" {
      var ended := if EndsLine(raw) then raw else raw + "\n";
      if !EndsLine(raw) {
        EndedMarks(raw);
      }
      BlankIsPlain();
      SplitJoin(ended, "\n");
      MarksJoin(SplitLines(ended), ["\n"]);
      assert Separated(raw) == ended + "\n" by { assert raw + "" == raw; }
    }
  }

  lemma AroundCut(raw: string, lines: seq<string>, i: nat, j: nat, a: nat, b: nat)
    requires CutAt(raw, lines, i, a) && CutAt(raw, lines, j, b) && SectionLines(Marks(lines)) == Span(i, j)
    ensures EndsLine(raw[..a]) && NoHeader(Marks(SplitLines(raw[..a]))) && StartsTable(SplitLines(raw[b..]))
  {
    HeaderFromFinds(Marks(lines), 0);
    TableFromFinds(Marks(lines), i + 1);
    assert lines[i..] != [];
    assert Marks(lines[..i]) == Marks(lines)[..i] && Marks(lines[j..]) == Marks(lines)[j..];
  }

  /** What surrounds the place of the section. */
  lemma Around(raw: string)
    ensures EndsLine(Front(raw)) && NoHeader(Marks(SplitLines(Front(raw)))) && StartsTable(SplitLines(Back(raw)))
  {
    var lines := SplitLines(raw);
    match SectionLines(Marks(lines))
    case Span(i, j) =>
      SplitAt(raw, i);
      SplitAt(raw, j);
      AroundCut(raw, lines, i, j, Offset(lines, i), Offset(lines, j));
    case Absent =>
      HeaderFromFinds(Marks(lines), 0);
      SeparatedHasNoHeader(raw);
  }

  lemma {:induction false} TableFromFirst(marks: seq<Mark>, k: nat)
    requires k <= |marks|
    ensures forall m :: k <= m < TableFrom(marks, k) ==> marks[m] == Plain
    decreases |marks| - k
  {
    if k < |marks| && marks[k] == Plain {
      TableFromFirst(marks, k + 1);
    }
  }

  lemma HeaderFromStops(marks: seq<Mark>, k: nat)
    requires k <= |marks|
    ensures HeaderFrom(marks, k) < |marks| ==> marks[HeaderFrom(marks, k)] == Header
    decreases |marks| - k
  {
  }

  lemma LinesCutOut(raw: string, lines: seq<string>, i: nat, j: nat, a: nat, b: nat)
    requires CutAt(raw, lines, i, a) && CutAt(raw, lines, j, b) && i < j && a <= b
    ensures SplitLines(raw[a..b]) == lines[i..j]
  {
    assert lines[i..] != [];
    assert raw[..a] + raw[a..b] == raw[..b];
    SplitJoin(raw[..a], raw[a..b]);
    assert lines[..i] + lines[i..j] == lines[..j];
    assert (lines[..i] + SplitLines(raw[a..b]))[i..] == SplitLines(raw[a..b]);
    assert (lines[..i] + lines[i..j])[i..] == lines[i..j];
  }

  lemma OwnMarks(lines: seq<string>, i: nat, j: nat)
    requires SectionLines(Marks(lines)) == Span(i, j)
    ensures OwnedMarks(Marks(lines[i..j]))
  {
    HeaderFromStops(Marks(lines), 0);
    TableFromFirst(Marks(lines), i + 1);
    assert Marks(lines[i..j]) == Marks(lines)[i..j];
  }

  /** The section found is the first of its kind and whole: no line before it is the header; it is one header line
      and lines that are no table headers; it is followed by another table header or nothing.  None is found exactly
      when no line is the header. */
  lemma FoundIsTheSection(raw: string)
    ensures Section(raw).Absent? <==> NoHeader(Marks(SplitLines(raw)))
    ensures Section(raw).Span? ==>
              var a, b := Section(raw).from, Section(raw).to;
              && a <= b <= |raw| && EndsLine(raw[..a])
              && NoHeader(Marks(SplitLines(raw[..a])))
              && OwnedMarks(Marks(SplitLines(raw[a..b])))
              && StartsTable(SplitLines(raw[b..]))
  {
    var lines := SplitLines(raw);
    HeaderFromFinds(Marks(lines), 0);
    HeaderFromStops(Marks(lines), 0);
    SectionInRange(raw);
    match SectionLines(Marks(lines))
    case Span(i, j) =>
      SplitAt(raw, i);
      SplitAt(raw, j);
      AroundCut(raw, lines, i, j, Offset(lines, i), Offset(lines, j));
      LinesCutOut(raw, lines, i, j, Offset(lines, i), Offset(lines, j));
      OwnMarks(lines, i, j);
    case Absent =>
  }

  /** A file is text, its section, and text: the section is the first of its kind and whole. */
  ghost predicate Parts(raw: string, front: string, own: string, back: string) {
    && raw == front + own + back && EndsLine(front) && NoHeader(Marks(SplitLines(front)))
    && OwnedMarks(Marks(SplitLines(own))) && StartsTable(SplitLines(back))
  }

  lemma SectionUnlessNone(raw: string)
    ensures Section(raw).Absent? <==> NoHeader(Marks(SplitLines(raw)))
  {
    FoundIsTheSection(raw);
  }

  lemma ThreeParts(raw: string, a: nat, b: nat)
    requires a <= b <= |raw|
    ensures raw == raw[..a] + raw[a..b] + raw[b..]
  {
  }

  lemma PartsOf(raw: string, a: nat, b: nat)
    requires Section(raw) == Span(a, b)
    ensures a <= b <= |raw| && Parts(raw, raw[..a], raw[a..b], raw[b..])
  {
    FoundIsTheSection(raw);
    ThreeParts(raw, a, b);
  }

  /** In a file with a header line an upsert puts the new text in the place of the section and a removal takes the
      section out; both leave every character around it as it was. */
  lemma EditsKeepTheRest(raw: string, d: string) returns (front: string, own: string, back: string)
    requires !NoHeader(Marks(SplitLines(raw)))
    ensures Parts(raw, front, own, back) && Upserted(raw, d) == front + d + back && Removed(raw) == Some(front + back)
  {
    SectionUnlessNone(raw);
    var a, b := Section(raw).from, Section(raw).to;
    PartsOf(raw, a, b);
    front, own, back := raw[..a], raw[a..b], raw[b..];
  }

  /** In a file without one an upsert appends the text behind an empty line, changes nothing before it, and adds no
      more newlines than that takes; there is nothing to remove. */
  lemma AppendKeepsFile(raw: string, d: string) returns (gap: string)
    requires NoHeader(Marks(SplitLines(raw)))
    ensures Upserted(raw, d) == raw + gap + d && Removed(raw) == None
    ensures gap == if raw == "" then "" else if raw[|raw| - 1] == '\n' then "\n" else "\n\n"
  {
    SectionUnlessNone(raw);
    gap := Separated(raw)[|raw|..];
    assert Separated(raw) == raw + gap;
  }

  lemma UpsertedIs(raw: string, d: string)
    ensures Upserted(raw, d) == Front(raw) + d + Back(raw)
  {
    assert Section(raw).Absent? ==> Separated(raw) + d + "" == Separated(raw) + d;
  }

  /** After an upsert the section found is the text written, and what surrounds it is unchanged. */
  lemma UpsertedIsFound(raw: string, d: string)
    requires Owned(d)
    ensures var out, at := Upserted(raw, d), |Front(raw)|;
            && Section(out) == Span(at, at + |d|) && at + |d| <= |out| && out[at..at + |d|] == d
            && Front(out) == Front(raw) && Back(out) == Back(raw)
  {
    Around(raw);
    UpsertedIs(raw, d);
    FoundBetween(Upserted(raw, d), Front(raw), d, Back(raw));
  }

  /** The last upsert wins; in particular upserting is idempotent. */
  lemma LastUpsertWins(raw: string, first: string, second: string)
    requires Owned(first)
    ensures Upserted(Upserted(raw, first), second) == Upserted(raw, second)
  {
    UpsertedIsFound(raw, first);
    UpsertedIs(raw, second);
    UpsertedIs(Upserted(raw, first), second);
  }

  /** Removing after an upsert gives the file without its old section, or the file with the separation that the
      insertion added; so inserting and removing restores only a file that was empty. */
  lemma RemoveAfterUpsert(raw: string, d: string)
    requires Owned(d)
    ensures Removed(Upserted(raw, d)) == (if Section(raw).Span? then Removed(raw) else Some(Separated(raw)))
    ensures Section(raw).Absent? ==> (Removed(Upserted(raw, d)) == Some(raw) <==> raw == "")
  {
    UpsertedIsFound(raw, d);
    assert Separated(raw) + "" == Separated(raw);
  }

  // ---- the rendered snippet

  predicate OneLiner(s: string) {
    '\n' !in s
  }

  lemma QuotedIsOneLiner(s: string)
    requires '\0' !in s
    ensures OneLiner(Toml.Quoted(s))
  {
    Toml.EscapedIsOneLine(s);
    assert forall i :: 0 <= i < |Toml.EscapedAll(s)| ==> Toml.EscapedAll(s)[i] != '\n';
  }

  lemma {:induction false} JoinedIsOneLiner(items: seq<string>)
    requires forall i :: 0 <= i < |items| ==> '\0' !in items[i]
    ensures OneLiner(Toml.Joined(items))
  {
    if items != [] {
      QuotedIsOneLiner(items[0]);
      JoinedIsOneLiner(items[1..]);
    }
  }

  predicate IsKey(key: string) {
    OneLiner(key) && key != "" && key[0] != '[' && !IsWhite(key[0])
  }

  ghost predicate PlainLine(line: string) {
    StandsAlone(line) && MarkOf(line) == Plain
  }

  /** A line `key = value` stands alone and is no table line. */
  lemma KeyLineIsPlain(key: string, value: string)
    requires IsKey(key) && OneLiner(value)
    ensures PlainLine(KeyLine(key, value))
  {
    var line := KeyLine(key, value);
    assert forall i :: 0 <= i < |line| - 1 ==> line[i] in key || line[i] in " = " || line[i] in value;
    OneLine(line);
    assert line[0] == key[0];
    TrimKeepsHead(line);
  }

  lemma HeaderLine()
    ensures StandsAlone(HEADER + "\n") && MarkOf(HEADER + "\n") == Header
  {
    OneLine(HEADER + "\n");
    TrimNewline(HEADER);
  }

  lemma MarksOfSection(lines: seq<string>)
    requires lines != [] && MarkOf(lines[0]) == Header && forall k :: 1 <= k < |lines| ==> MarkOf(lines[k]) == Plain
    ensures OwnedMarks(Marks(lines))
  {
  }

  lemma SectionIsOwned(c: string, lines: seq<string>)
    requires c == Concat(lines) && (forall k :: 0 <= k < |lines| ==> StandsAlone(lines[k])) && OwnedMarks(Marks(lines))
    ensures SplitLines(c) == lines && Owned(c)
  {
    ConcatSplits(lines);
  }

  lemma ToolKeys()
    ensures IsKey("command") && IsKey("args") && IsKey("enabled_tools")
  {
  }

  lemma LimitKeys()
    ensures IsKey("default_tools_approval_mode") && IsKey("startup_timeout_sec") && IsKey("tool_timeout_sec")
  {
  }

  lemma ToolLines(r: Resolved)
    requires NulFree(r)
    ensures PlainLine(KeyLine("command", Toml.Quoted(r.command))) && PlainLine(KeyLine("args", Toml.QuotedList(r.args)))
    ensures PlainLine(KeyLine("enabled_tools", Toml.QuotedList(r.enabledTools)))
  {
    ToolKeys();
    QuotedIsOneLiner(r.command);
    JoinedIsOneLiner(r.args);
    JoinedIsOneLiner(r.enabledTools);
    KeyLineIsPlain("command", Toml.Quoted(r.command));
    KeyLineIsPlain("args", Toml.QuotedList(r.args));
    KeyLineIsPlain("enabled_tools", Toml.QuotedList(r.enabledTools));
  }

  lemma LimitLines(r: Resolved)
    requires NulFree(r)
    ensures PlainLine(KeyLine("default_tools_approval_mode", Toml.Quoted(r.approvalMode)))
    ensures PlainLine(KeyLine("startup_timeout_sec", Decimal(r.startupTimeoutSec)))
    ensures PlainLine(KeyLine("tool_timeout_sec", Decimal(r.toolTimeoutSec)))
  {
    LimitKeys();
    QuotedIsOneLiner(r.approvalMode);
    KeyLineIsPlain("default_tools_approval_mode", Toml.Quoted(r.approvalMode));
    KeyLineIsPlain("startup_timeout_sec", Decimal(r.startupTimeoutSec));
    KeyLineIsPlain("tool_timeout_sec", Decimal(r.toolTimeoutSec));
  }

  lemma LinesArePlain(r: Resolved)
    requires NulFree(r)
    ensures forall k :: 1 <= k < 7 ==> PlainLine(SnippetLines(r)[k])
  {
    ToolLines(r);
    LimitLines(r);
  }

  /** The snippet of NUL-free settings is exactly its seven lines, and it is a section of its own. */
  lemma SnippetIsOwned(r: Resolved)
    requires NulFree(r)
    ensures SplitLines(Snippet(r)) == SnippetLines(r)
    ensures Owned(Snippet(r))
  {
    HeaderLine();
    LinesArePlain(r);
    MarksOfSection(SnippetLines(r));
    SectionIsOwned(Snippet(r), SnippetLines(r));
  }
}
