/** The Markdown chunker of `src/ingest.rs`: heading sections, bullet items and paragraphs, fixed-size pieces. */
module Chunker {
  import opened TextLines

  const MAX_CHUNK_CHARS := 1500

  // ---- what a text says: its non-whitespace characters

  lemma Assoc(x: string, y: string, z: string)
    ensures x + y + z == x + (y + z)
  {
  }

  lemma NothingAdded(x: string)
    ensures x + "" == x && "" + x == x
  {
  }

  function InkTo(s: string, n: nat): string
    requires n <= |s|
  {
    if n == 0 then "" else InkTo(s, n - 1) + (if IsWhite(s[n - 1]) then "" else [s[n - 1]])
  }

  function Ink(s: string): string {
    InkTo(s, |s|)
  }

  lemma {:induction false} InkOfPrefix(s: string, t: string, n: nat)
    requires n <= |s| && n <= |t| && s[..n] == t[..n]
    ensures InkTo(s, n) == InkTo(t, n)
  {
    if n > 0 {
      assert s[..n][..n - 1] == s[..n - 1] && t[..n][..n - 1] == t[..n - 1];
      assert s[n - 1] == s[..n][n - 1] == t[..n][n - 1] == t[n - 1];
      InkOfPrefix(s, t, n - 1);
    }
  }

  lemma {:induction false} InkJoinTo(a: string, b: string, k: nat)
    requires k <= |b|
    ensures InkTo(a + b, |a| + k) == Ink(a) + InkTo(b, k)
  {
    if k == 0 {
      assert (a + b)[..|a|] == a[..|a|];
      InkOfPrefix(a + b, a, |a|);
    } else {
      InkJoinTo(a, b, k - 1);
      assert (a + b)[|a| + k - 1] == b[k - 1];
      Assoc(Ink(a), InkTo(b, k - 1), if IsWhite(b[k - 1]) then "" else [b[k - 1]]);
    }
  }

  lemma InkJoin(a: string, b: string)
    ensures Ink(a + b) == Ink(a) + Ink(b)
  {
    InkJoinTo(a, b, |b|);
  }

  lemma InkOfChar(c: char)
    ensures Ink([c]) == if IsWhite(c) then "" else [c]
  {
    assert InkTo([c], 0) == "";
  }

  lemma {:induction false} InkOfStart(s: string)
    ensures Ink(TrimStart(s)) == Ink(s)
  {
    if s != "" && IsWhite(s[0]) {
      InkOfStart(s[1..]);
      InkJoin([s[0]], s[1..]);
      InkOfChar(s[0]);
      assert s == [s[0]] + s[1..];
    }
  }

  lemma {:induction false} InkOfEnd(s: string)
    ensures Ink(TrimEnd(s)) == Ink(s)
  {
    if s != "" && IsWhite(s[|s| - 1]) {
      var n := |s| - 1;
      InkOfEnd(s[..n]);
      InkJoin(s[..n], [s[n]]);
      InkOfChar(s[n]);
      assert s == s[..n] + [s[n]];
    }
  }

  lemma InkOfTrim(s: string)
    ensures Ink(Trim(s)) == Ink(s)
  {
    InkOfEnd(s);
    InkOfStart(TrimEnd(s));
  }

  lemma InkOfBlank(s: string)
    requires Trim(s) == ""
    ensures Ink(s) == ""
  {
    InkOfTrim(s);
  }

  // ---- strings in a row

  function Sum(parts: seq<string>, n: nat): string
    requires n <= |parts|
  {
    if n == 0 then "" else Sum(parts, n - 1) + parts[n - 1]
  }

  function SumAll(parts: seq<string>): string {
    Sum(parts, |parts|)
  }

  lemma {:induction false} SumOfFirst(a: seq<string>, b: seq<string>, n: nat)
    requires n <= |a|
    ensures Sum(a + b, n) == Sum(a, n)
  {
    if n > 0 {
      SumOfFirst(a, b, n - 1);
    }
  }

  lemma {:induction false} SumJoinTo(a: seq<string>, b: seq<string>, k: nat)
    requires k <= |b|
    ensures Sum(a + b, |a| + k) == SumAll(a) + Sum(b, k)
  {
    if k == 0 {
      SumOfFirst(a, b, |a|);
    } else {
      SumJoinTo(a, b, k - 1);
      assert (a + b)[|a| + k - 1] == b[k - 1];
      Assoc(SumAll(a), Sum(b, k - 1), b[k - 1]);
    }
  }

  lemma SumJoin(a: seq<string>, b: seq<string>)
    ensures SumAll(a + b) == SumAll(a) + SumAll(b)
  {
    SumJoinTo(a, b, |b|);
  }

  lemma SumOfOne(x: string)
    ensures SumAll([x]) == x
  {
    assert Sum([x], 0) == "";
  }

  /** What each of several texts says. */
  function Inks(texts: seq<string>): (inks: seq<string>)
    ensures |inks| == |texts|
  {
    seq(|texts|, i requires 0 <= i < |texts| => Ink(texts[i]))
  }

  /** What several texts say, one after the other. */
  function InkOfAll(texts: seq<string>): string {
    SumAll(Inks(texts))
  }

  lemma InkOfAllJoin(a: seq<string>, b: seq<string>)
    ensures InkOfAll(a + b) == InkOfAll(a) + InkOfAll(b)
  {
    assert Inks(a + b) == Inks(a) + Inks(b);
    SumJoin(Inks(a), Inks(b));
  }

  lemma InkOfSnoc(a: seq<string>, t: string)
    ensures InkOfAll(a + [t]) == InkOfAll(a) + Ink(t)
  {
    InkOfAllJoin(a, [t]);
    assert Inks([t]) == [Ink(t)];
    SumOfOne(Ink(t));
  }

  /** Lists of texts in a row. */
  function Flat(parts: seq<seq<string>>, n: nat): seq<string>
    requires n <= |parts|
  {
    if n == 0 then [] else Flat(parts, n - 1) + parts[n - 1]
  }

  lemma {:induction false} FlatSays(parts: seq<seq<string>>, inks: seq<string>, n: nat)
    requires |parts| == |inks| && n <= |parts| && forall i :: 0 <= i < |parts| ==> InkOfAll(parts[i]) == inks[i]
    ensures InkOfAll(Flat(parts, n)) == Sum(inks, n)
  {
    if n > 0 {
      var front, last := Flat(parts, n - 1), parts[n - 1];
      FlatSays(parts, inks, n - 1);
      InkOfAllJoin(front, last);
      assert Flat(parts, n) == front + last && InkOfAll(last) == inks[n - 1];
    }
  }

  // ---- fixed-size pieces

  predicate IsBreak(c: char) {
    c == '\n' || c == '.' || c == ' '
  }

  datatype Cutting = Cutting(out: seq<string>, start: nat)

  /** The pieces cut off the first n characters, and where the next piece starts: a piece ends at the first break at
      or behind its 1500th character. */
  function CutBy(s: string, n: nat): (c: Cutting)
    requires n <= |s|
    ensures c.start <= n
  {
    if n == 0 then Cutting([], 0)
    else
      var c := CutBy(s, n - 1);
      if n - c.start >= MAX_CHUNK_CHARS && IsBreak(s[n - 1]) then Cutting(c.out + [s[c.start..n]], n) else c
  }

  function FixedPieces(chunk: string): seq<string> {
    if |chunk| <= MAX_CHUNK_CHARS then [chunk]
    else
      var c := CutBy(chunk, |chunk|);
      if Trim(chunk[c.start..]) != "" then c.out + [chunk[c.start..]] else c.out
  }

  method SplitFixed(chunk: string) returns (out: seq<string>)
    ensures out == FixedPieces(chunk)
  {
    if |chunk| <= MAX_CHUNK_CHARS {
      return [chunk];
    }
    out := [];
    var buf, count := "", 0;
    ghost var start := 0;
    for i := 0 to |chunk|
      invariant CutBy(chunk, i) == Cutting(out, start)
      invariant buf == chunk[start..i] && count == i - start
    {
      var ch := chunk[i];
      assert chunk[start..i] + [ch] == chunk[start..i + 1];
      buf := buf + [ch];
      count := count + 1;
      if count >= MAX_CHUNK_CHARS && (ch == '\n' || ch == '.' || ch == ' ') {
        out := out + [buf];
        buf, count := "", 0;
        start := i + 1;
      }
    }
    assert chunk[start..|chunk|] == chunk[start..];
    if Trim(buf) != "" {
      out := out + [buf];
    }
  }

  predicate IsLongPiece(p: string) {
    |p| >= MAX_CHUNK_CHARS && IsBreak(p[|p| - 1])
  }

  lemma {:induction false} CutsAreLong(s: string, n: nat)
    requires n <= |s|
    ensures forall k :: 0 <= k < |CutBy(s, n).out| ==> IsLongPiece(CutBy(s, n).out[k])
  {
    if n > 0 {
      CutsAreLong(s, n - 1);
    }
  }

  /** Every piece but the last has at least 1500 characters and ends at a break. */
  lemma PiecesAreLong(chunk: string, k: nat)
    requires k + 1 < |FixedPieces(chunk)|
    ensures IsLongPiece(FixedPieces(chunk)[k])
  {
    CutsAreLong(chunk, |chunk|);
  }

  lemma {:induction false} CutsConserve(s: string, n: nat)
    requires n <= |s|
    ensures InkOfAll(CutBy(s, n).out) == Ink(s[..CutBy(s, n).start])
  {
    if n > 0 {
      var c, d := CutBy(s, n - 1), CutBy(s, n);
      CutsConserve(s, n - 1);
      if d != c {
        var piece := s[c.start..n];
        InkOfSnoc(c.out, piece);
        InkJoin(s[..c.start], piece);
        assert s[..n] == s[..c.start] + piece;
      }
    }
  }

  lemma RestConserves(out: seq<string>, front: string, rest: string)
    requires InkOfAll(out) == Ink(front)
    ensures InkOfAll(if Trim(rest) != "" then out + [rest] else out) == Ink(front + rest)
  {
    InkJoin(front, rest);
    if Trim(rest) != "" {
      InkOfSnoc(out, rest);
    } else {
      InkOfBlank(rest);
    }
  }

  /** The pieces say what the text says. */
  lemma FixedPiecesConserve(chunk: string)
    ensures InkOfAll(FixedPieces(chunk)) == Ink(chunk)
  {
    if |chunk| <= MAX_CHUNK_CHARS {
      InkOfSnoc([], chunk);
      assert [] + [chunk] == [chunk];
    } else {
      var c := CutBy(chunk, |chunk|);
      CutsConserve(chunk, |chunk|);
      RestConserves(c.out, chunk[..c.start], chunk[c.start..]);
      assert chunk == chunk[..c.start] + chunk[c.start..];
    }
  }

  // ---- sections

  /** `str::lines`: without the newline and a carriage return before it. */
  function Chomp(line: string): string {
    if line != "" && line[|line| - 1] == '\n' then
      var l := line[..|line| - 1];
      if l != "" && l[|l| - 1] == '\r' then l[..|l| - 1] else l
    else line
  }

  function LinesOf(s: string): (lines: seq<string>)
    ensures |lines| == |SplitLines(s)|
  {
    var raw := SplitLines(s);
    seq(|raw|, i requires 0 <= i < |raw| => Chomp(raw[i]))
  }

  predicate IsHeading(line: string) {
    var t := TrimStart(line);
    t != "" && t[0] == '#'
  }

  datatype Gathering = Gathering(sections: seq<string>, current: string)

  /** The sections of the first n lines, and the one being gathered. */
  function Gathered(lines: seq<string>, n: nat): Gathering
    requires n <= |lines|
  {
    if n == 0 then Gathering([], "")
    else
      var g := Gathered(lines, n - 1);
      var line := lines[n - 1];
      if IsHeading(line) && Trim(g.current) != "" then Gathering(g.sections + [g.current], line + "\n")
      else Gathering(g.sections, g.current + line + "\n")
  }

  function SectionsOf(content: string): seq<string> {
    var lines := LinesOf(content);
    var g := Gathered(lines, |lines|);
    var sections := if Trim(g.current) != "" then g.sections + [g.current] else g.sections;
    if sections == [] then [content] else sections
  }

  // ---- blocks of a section

  function HeadingOf(lines: seq<string>): string {
    if lines != [] && IsHeading(lines[0]) then Trim(lines[0]) else ""
  }

  function BodyOf(lines: seq<string>): seq<string> {
    if lines != [] && IsHeading(lines[0]) then lines[1..] else lines
  }

  predicate IsDigit(c: char) {
    '0' <= c <= '9'
  }

  /** All of t before k is a number, ended at k by a dot or a parenthesis. */
  predicate NumberUpTo(t: string, k: nat) {
    0 < k < |t| && (t[k] == '.' || t[k] == ')') && forall i :: 0 <= i < k ==> IsDigit(t[i])
  }

  predicate IsNumbered(t: string) {
    exists k :: 0 < k < |t| && NumberUpTo(t, k)
  }

  method IsNumberedBullet(t: string) returns (r: bool)
    ensures r <==> IsNumbered(t)
  {
    var sawDigit := false;
    var i := 0;
    while i < |t|
      invariant 0 <= i <= |t| && (sawDigit <==> i > 0)
      invariant forall k :: 0 <= k < i ==> IsDigit(t[k])
    {
      var c := t[i];
      if '0' <= c <= '9' {
        sawDigit := true;
      } else if c == '.' || c == ')' {
        assert !IsDigit(t[i]) && (sawDigit ==> NumberUpTo(t, i));
        return sawDigit;
      } else {
        assert !IsDigit(t[i]);
        return false;
      }
      i := i + 1;
    }
    return false;
  }

  predicate IsBullet(t: string) {
    "- " <= t || "* " <= t || IsNumbered(t)
  }

  function Flushed(blocks: seq<string>, paragraph: string): seq<string> {
    if Trim(paragraph) != "" then blocks + [Trim(paragraph)] else blocks
  }

  datatype Blocks = Blocks(done: seq<string>, paragraph: string)

  /** The blocks of the first n body lines, and the paragraph being gathered. */
  function Blocked(lines: seq<string>, n: nat): Blocks
    requires n <= |lines|
  {
    if n == 0 then Blocks([], "")
    else
      var b := Blocked(lines, n - 1);
      var line := lines[n - 1];
      var t := TrimStart(line);
      if IsBullet(t) then Blocks(Flushed(b.done, b.paragraph) + [t], "")
      else if t == "" then Blocks(Flushed(b.done, b.paragraph), "")
      else Blocks(b.done, b.paragraph + line + "\n")
  }

  function BlocksOf(lines: seq<string>): seq<string> {
    var b := Blocked(lines, |lines|);
    Flushed(b.done, b.paragraph)
  }

  function Headed(heading: string, block: string): string {
    if heading == "" then block else heading + "\n" + block
  }

  function AllHeaded(heading: string, blocks: seq<string>): (chunks: seq<string>)
    ensures |chunks| == |blocks|
  {
    seq(|blocks|, i requires 0 <= i < |blocks| => Headed(heading, blocks[i]))
  }

  /** What a section is split into: every block under its heading, or a heading alone. */
  function SectionChunks(section: string): seq<string> {
    var lines := LinesOf(section);
    var chunks := AllHeaded(HeadingOf(lines), BlocksOf(BodyOf(lines)));
    if chunks == [] && HeadingOf(lines) != "" then [HeadingOf(lines)] else chunks
  }

  method SplitSection(section: string) returns (chunks: seq<string>)
    ensures chunks == SectionChunks(section)
  {
    var lines := LinesOf(section);
    var heading, body := ReadHeading(lines);
    chunks := SplitBlocks(heading, body);
    if chunks == [] && heading != "" {
      chunks := chunks + [heading];
    }
  }

  method ReadHeading(lines: seq<string>) returns (heading: string, body: seq<string>)
    ensures heading == HeadingOf(lines) && body == BodyOf(lines)
  {
    heading, body := "", [];
    for i := 0 to |lines|
      invariant heading == (if i > 0 then HeadingOf(lines) else "")
      invariant body == if i > 0 && IsHeading(lines[0]) then lines[1..i] else lines[..i]
    {
      if i == 0 && IsHeading(lines[i]) {
        heading := Trim(lines[i]);
      } else {
        body := body + [lines[i]];
      }
    }
  }

  lemma AllHeadedSnoc(heading: string, blocks: seq<string>, block: string)
    ensures AllHeaded(heading, blocks + [block]) == AllHeaded(heading, blocks) + [Headed(heading, block)]
  {
  }

  method SplitBlocks(heading: string, body: seq<string>) returns (chunks: seq<string>)
    ensures chunks == AllHeaded(heading, BlocksOf(body))
  {
    chunks := [];
    var paragraph := "";
    ghost var done: seq<string> := [];
    for i := 0 to |body|
      invariant Blocked(body, i) == Blocks(done, paragraph)
      invariant chunks == AllHeaded(heading, done)
    {
      var t := TrimStart(body[i]);
      var numbered := IsNumberedBullet(t);
      if "- " <= t || "* " <= t || numbered {
        chunks := Flush(paragraph, chunks, heading, done);
        AllHeadedSnoc(heading, Flushed(done, paragraph), t);
        chunks := chunks + [Headed(heading, t)];
        done := Flushed(done, paragraph) + [t];
        paragraph := "";
      } else if t == "" {
        chunks := Flush(paragraph, chunks, heading, done);
        done := Flushed(done, paragraph);
        paragraph := "";
      } else {
        paragraph := paragraph + body[i] + "\n";
      }
    }
    chunks := Flush(paragraph, chunks, heading, done);
  }

  /** The closure the source flushes a paragraph with. */
  method Flush(paragraph: string, chunks: seq<string>, heading: string, ghost blocks: seq<string>)
    returns (out: seq<string>)
    requires chunks == AllHeaded(heading, blocks)
    ensures out == AllHeaded(heading, Flushed(blocks, paragraph))
  {
    out := chunks;
    if Trim(paragraph) != "" {
      var chunk := if heading == "" then Trim(paragraph) else heading + "\n" + Trim(paragraph);
      out := out + [chunk];
    }
  }

  // ---- all of it

  function OneTrimmed(text: string): seq<string> {
    if Trim(text) == "" then [] else [Trim(text)]
  }

  function PieceTexts(chunk: string): seq<string> {
    var pieces := FixedPieces(chunk);
    Flat(seq(|pieces|, i requires 0 <= i < |pieces| => OneTrimmed(pieces[i])), |pieces|)
  }

  function ChunkTexts(chunks: seq<string>): seq<string> {
    Flat(seq(|chunks|, i requires 0 <= i < |chunks| => PieceTexts(chunks[i])), |chunks|)
  }

  function SectionTexts(sections: seq<string>): seq<string> {
    Flat(seq(|sections|, i requires 0 <= i < |sections| => ChunkTexts(SectionChunks(sections[i]))), |sections|)
  }

  function Chunks(content: string): seq<string> {
    SectionTexts(SectionsOf(content))
  }

  method GatherSections(content: string) returns (sections: seq<string>)
    ensures sections == SectionsOf(content)
  {
    var lines := LinesOf(content);
    sections := [];
    var current := "";
    for i := 0 to |lines|
      invariant Gathered(lines, i) == Gathering(sections, current)
    {
      if IsHeading(lines[i]) && Trim(current) != "" {
        sections := sections + [current];
        current := "";
        NothingAdded(lines[i]);
      }
      current := current + lines[i] + "\n";
    }
    if Trim(current) != "" {
      sections := sections + [current];
    }
    if sections == [] {
      sections := sections + [content];
    }
  }

  method TrimPieces(chunk: string) returns (texts: seq<string>)
    ensures texts == PieceTexts(chunk)
  {
    var sized := SplitFixed(chunk);
    ghost var parts := seq(|sized|, i requires 0 <= i < |sized| => OneTrimmed(sized[i]));
    texts := [];
    for k := 0 to |sized|
      invariant texts == Flat(parts, k)
    {
      var trimmed := Trim(sized[k]);
      if trimmed != "" {
        texts := texts + [trimmed];
      }
    }
  }

  method ChunkSection(section: string) returns (texts: seq<string>)
    ensures texts == ChunkTexts(SectionChunks(section))
  {
    var pieces := SplitSection(section);
    ghost var parts := seq(|pieces|, i requires 0 <= i < |pieces| => PieceTexts(pieces[i]));
    texts := [];
    for j := 0 to |pieces|
      invariant texts == Flat(parts, j)
    {
      var more := TrimPieces(pieces[j]);
      texts := texts + more;
    }
  }

  method ChunkMarkdown(content: string) returns (chunks: seq<string>)
    ensures chunks == Chunks(content)
  {
    var sections := GatherSections(content);
    ghost var parts := seq(|sections|, i requires 0 <= i < |sections| => ChunkTexts(SectionChunks(sections[i])));
    chunks := [];
    for i := 0 to |sections|
      invariant chunks == Flat(parts, i)
    {
      var more := ChunkSection(sections[i]);
      chunks := chunks + more;
    }
  }

  // ---- conservation

  lemma OneTrimmedSays(text: string)
    ensures InkOfAll(OneTrimmed(text)) == Ink(text)
  {
    InkOfTrim(text);
    InkOfSnoc([], Trim(text));
    assert [] + [Trim(text)] == [Trim(text)];
    assert InkOfAll([]) == "";
    NothingAdded(Ink(text));
    if Trim(text) == "" {
      InkOfBlank(text);
    }
  }

  /** Cutting a chunk to size and trimming the pieces changes nothing it says. */
  lemma PieceTextsConserve(chunk: string)
    ensures InkOfAll(PieceTexts(chunk)) == Ink(chunk)
  {
    var pieces := FixedPieces(chunk);
    var parts := seq(|pieces|, i requires 0 <= i < |pieces| => OneTrimmed(pieces[i]));
    forall i | 0 <= i < |pieces| ensures InkOfAll(parts[i]) == Inks(pieces)[i] {
      OneTrimmedSays(pieces[i]);
    }
    FlatSays(parts, Inks(pieces), |pieces|);
    FixedPiecesConserve(chunk);
  }

  lemma ChunkTextsConserve(chunks: seq<string>)
    ensures InkOfAll(ChunkTexts(chunks)) == InkOfAll(chunks)
  {
    var parts := seq(|chunks|, i requires 0 <= i < |chunks| => PieceTexts(chunks[i]));
    forall i | 0 <= i < |chunks| ensures InkOfAll(parts[i]) == Inks(chunks)[i] {
      PieceTextsConserve(chunks[i]);
    }
    FlatSays(parts, Inks(chunks), |chunks|);
  }

  lemma InkOfLine(line: string)
    ensures Ink(line + "\n") == Ink(line)
  {
    InkJoin(line, "\n");
    InkOfChar('\n');
  }

  lemma InkOfChomp(line: string)
    ensures Ink(Chomp(line)) == Ink(line)
  {
    if line != "" && line[|line| - 1] == '\n' {
      var l := line[..|line| - 1];
      InkOfLine(l);
      assert line == l + "\n";
      if l != "" && l[|l| - 1] == '\r' {
        InkJoin(l[..|l| - 1], "\r");
        InkOfChar('\r');
        assert l == l[..|l| - 1] + "\r";
      }
    }
  }

  lemma GrowParagraph(paragraph: string, line: string)
    ensures Ink(paragraph + line + "\n") == Ink(paragraph) + Ink(line)
  {
    InkOfLine(paragraph + line);
    InkJoin(paragraph, line);
  }

  lemma FlushedConserves(blocks: seq<string>, paragraph: string)
    ensures InkOfAll(Flushed(blocks, paragraph)) == InkOfAll(blocks) + Ink(paragraph)
  {
    InkOfTrim(paragraph);
    InkOfSnoc(blocks, Trim(paragraph));
  }

  lemma BlockStep(b: Blocks, line: string)
    ensures var t := TrimStart(line);
            && InkOfAll(Flushed(b.done, b.paragraph) + [t]) + Ink("") == InkOfAll(b.done) + Ink(b.paragraph) + Ink(line)
            && (t == "" ==>
                  InkOfAll(Flushed(b.done, b.paragraph)) + Ink("") == InkOfAll(b.done) + Ink(b.paragraph) + Ink(line))
            && InkOfAll(b.done) + Ink(b.paragraph + line + "\n") == InkOfAll(b.done) + Ink(b.paragraph) + Ink(line)
  {
    var t := TrimStart(line);
    FlushedConserves(b.done, b.paragraph);
    InkOfStart(line);
    InkOfSnoc(Flushed(b.done, b.paragraph), t);
    GrowParagraph(b.paragraph, line);
    Assoc(InkOfAll(b.done), Ink(b.paragraph), Ink(line));
  }

  lemma {:induction false} BlockedConserves(lines: seq<string>, n: nat)
    requires n <= |lines|
    ensures InkOfAll(Blocked(lines, n).done) + Ink(Blocked(lines, n).paragraph) == Sum(Inks(lines), n)
  {
    if n > 0 {
      var b, line := Blocked(lines, n - 1), lines[n - 1];
      BlockedConserves(lines, n - 1);
      BlockStep(b, line);
      assert Inks(lines)[n - 1] == Ink(line);
    }
  }

  /** The blocks of a section are its body, once each and in order. */
  lemma BlocksConserve(lines: seq<string>)
    ensures InkOfAll(BlocksOf(lines)) == InkOfAll(lines)
  {
    var b := Blocked(lines, |lines|);
    BlockedConserves(lines, |lines|);
    FlushedConserves(b.done, b.paragraph);
  }

  lemma GatherStep(g: Gathering, line: string)
    ensures InkOfAll(g.sections + [g.current]) + Ink(line + "\n") == InkOfAll(g.sections) + Ink(g.current) + Ink(line)
    ensures InkOfAll(g.sections) + Ink(g.current + line + "\n") == InkOfAll(g.sections) + Ink(g.current) + Ink(line)
  {
    InkOfSnoc(g.sections, g.current);
    InkOfLine(line);
    GrowParagraph(g.current, line);
    Assoc(InkOfAll(g.sections), Ink(g.current), Ink(line));
  }

  lemma {:induction false} GatheredConserves(lines: seq<string>, n: nat)
    requires n <= |lines|
    ensures InkOfAll(Gathered(lines, n).sections) + Ink(Gathered(lines, n).current) == Sum(Inks(lines), n)
  {
    if n > 0 {
      var g, line := Gathered(lines, n - 1), lines[n - 1];
      GatheredConserves(lines, n - 1);
      GatherStep(g, line);
      assert Inks(lines)[n - 1] == Ink(line);
    }
  }

  lemma LineAt(s: string, raw: seq<string>, k: nat)
    requires raw == SplitLines(s) && k < |raw|
    ensures Offset(raw, k + 1) <= |s| && s[..Offset(raw, k)] + raw[k] == s[..Offset(raw, k + 1)]
  {
    SplitAt(s, k);
    var at := Offset(raw, k);
    HeadLine(s[at..]);
    assert raw[k..][0] == raw[k];
  }

  lemma {:induction false} ChompsConserve(s: string, raw: seq<string>, n: nat)
    requires raw == SplitLines(s) && n <= |raw|
    ensures Offset(raw, n) <= |s| && Sum(Inks(LinesOf(s)), n) == Ink(s[..Offset(raw, n)])
  {
    if n > 0 {
      ChompsConserve(s, raw, n - 1);
      LineAt(s, raw, n - 1);
      InkOfChomp(raw[n - 1]);
      assert Inks(LinesOf(s))[n - 1] == Ink(raw[n - 1]);
      InkJoin(s[..Offset(raw, n - 1)], raw[n - 1]);
    }
  }

  /** The lines of a text say what it says. */
  lemma LinesConserve(s: string)
    ensures InkOfAll(LinesOf(s)) == Ink(s)
  {
    var raw := SplitLines(s);
    WholeText(s);
    ChompsConserve(s, raw, |raw|);
    assert s[..|s|] == s;
  }

  /** The sections together are the document. */
  lemma SectionsConserve(content: string)
    ensures InkOfAll(SectionsOf(content)) == Ink(content)
  {
    var lines := LinesOf(content);
    var g := Gathered(lines, |lines|);
    GatheredConserves(lines, |lines|);
    LinesConserve(content);
    InkOfSnoc(g.sections, g.current);
    InkOfSnoc([], content);
    assert [] + [content] == [content];
    if Trim(g.current) == "" {
      InkOfBlank(g.current);
    }
  }

  /** A section is its heading and the blocks of its body. */
  lemma SectionConserves(section: string)
    ensures var lines := LinesOf(section);
            Ink(section) == Ink(HeadingOf(lines)) + InkOfAll(BlocksOf(BodyOf(lines)))
  {
    var lines := LinesOf(section);
    LinesConserve(section);
    BlocksConserve(BodyOf(lines));
    if lines != [] && IsHeading(lines[0]) {
      InkOfTrim(lines[0]);
      InkOfAllJoin([lines[0]], lines[1..]);
      InkOfSnoc([], lines[0]);
      assert [] + [lines[0]] == [lines[0]] && [lines[0]] + lines[1..] == lines;
    }
  }

  /** What the chunks of a section say: its blocks in order, the heading repeated before each. */
  function Repeated(heading: string, blocks: seq<string>): (parts: seq<string>)
    ensures |parts| == |blocks|
  {
    seq(|blocks|, i requires 0 <= i < |blocks| => Ink(heading) + Ink(blocks[i]))
  }

  function Told(section: string): string {
    var lines := LinesOf(section);
    var blocks := BlocksOf(BodyOf(lines));
    if blocks == [] then Ink(HeadingOf(lines)) else SumAll(Repeated(HeadingOf(lines), blocks))
  }

  function ToldBy(sections: seq<string>): (parts: seq<string>)
    ensures |parts| == |sections|
  {
    seq(|sections|, i requires 0 <= i < |sections| => Told(sections[i]))
  }

  lemma HeadedConserves(heading: string, block: string)
    ensures Ink(Headed(heading, block)) == Ink(heading) + Ink(block)
  {
    InkOfLine(heading);
    InkJoin(heading + "\n", block);
    assert Ink("") == "";
  }

  lemma SectionChunksConserve(section: string)
    ensures InkOfAll(SectionChunks(section)) == Told(section)
  {
    var lines := LinesOf(section);
    var heading, blocks := HeadingOf(lines), BlocksOf(BodyOf(lines));
    var chunks := AllHeaded(heading, blocks);
    forall i | 0 <= i < |blocks| ensures Inks(chunks)[i] == Repeated(heading, blocks)[i] {
      HeadedConserves(heading, blocks[i]);
    }
    assert Inks(chunks) == Repeated(heading, blocks);
    if blocks == [] {
      InkOfSnoc([], heading);
      assert [] + [heading] == [heading] && InkOfAll([]) == "" && Ink("") == "";
      NothingAdded(Ink(heading));
    }
  }

  lemma SectionTold(section: string)
    ensures InkOfAll(ChunkTexts(SectionChunks(section))) == Told(section)
  {
    ChunkTextsConserve(SectionChunks(section));
    SectionChunksConserve(section);
  }

  lemma SectionTextsConserve(sections: seq<string>)
    ensures InkOfAll(SectionTexts(sections)) == SumAll(ToldBy(sections))
  {
    var parts := seq(|sections|, i requires 0 <= i < |sections| => ChunkTexts(SectionChunks(sections[i])));
    forall i | 0 <= i < |sections| ensures InkOfAll(parts[i]) == ToldBy(sections)[i] {
      SectionTold(sections[i]);
    }
    FlatSays(parts, ToldBy(sections), |sections|);
  }

  /** Chunking conserves text: the chunks say, section by section, the blocks of the body once each and in order, with
      the heading before each block; the sections are the document and their blocks are their bodies. */
  lemma ChunksConserve(content: string)
    ensures InkOfAll(Chunks(content)) == SumAll(ToldBy(SectionsOf(content)))
    ensures InkOfAll(SectionsOf(content)) == Ink(content)
    ensures forall i :: 0 <= i < |SectionsOf(content)| ==>
              var lines := LinesOf(SectionsOf(content)[i]);
              Ink(SectionsOf(content)[i]) == Ink(HeadingOf(lines)) + InkOfAll(BlocksOf(BodyOf(lines)))
  {
    var sections := SectionsOf(content);
    SectionTextsConserve(sections);
    SectionsConserve(content);
    forall i | 0 <= i < |sections|
      ensures var lines := LinesOf(sections[i]);
              Ink(sections[i]) == Ink(HeadingOf(lines)) + InkOfAll(BlocksOf(BodyOf(lines)))
    {
      SectionConserves(sections[i]);
    }
  }

  lemma PlainTold(section: string)
    requires HeadingOf(LinesOf(section)) == ""
    ensures Told(section) == Ink(section)
  {
    var blocks := BlocksOf(BodyOf(LinesOf(section)));
    SectionConserves(section);
    assert Ink("") == "";
    forall i | 0 <= i < |blocks| ensures Repeated("", blocks)[i] == Inks(blocks)[i] {
      NothingAdded(Ink(blocks[i]));
    }
    assert Repeated("", blocks) == Inks(blocks);
    NothingAdded(InkOfAll(blocks));
  }

  lemma PlainSectionsConserved(content: string)
    requires forall i :: 0 <= i < |SectionsOf(content)| ==> HeadingOf(LinesOf(SectionsOf(content)[i])) == ""
    ensures InkOfAll(Chunks(content)) == Ink(content)
  {
    var sections := SectionsOf(content);
    ChunksConserve(content);
    forall i | 0 <= i < |sections| ensures ToldBy(sections)[i] == Inks(sections)[i] {
      PlainTold(sections[i]);
    }
    assert ToldBy(sections) == Inks(sections);
  }

  /** No line of the document is a heading. */
  predicate NoHeadings(lines: seq<string>) {
    forall k :: 0 <= k < |lines| ==> !IsHeading(lines[k])
  }

  lemma {:induction false} HeadingGrows(line: string, more: string)
    requires IsHeading(line)
    ensures IsHeading(line + more)
  {
    if IsWhite(line[0]) {
      assert (line + more)[1..] == line[1..] + more;
      HeadingGrows(line[1..], more);
    }
  }

  /** Without headings nothing is cut off, so the section being gathered starts with the first line. */
  lemma {:induction false} GatheredWhole(lines: seq<string>, n: nat)
    requires 0 < n <= |lines| && NoHeadings(lines)
    ensures Gathered(lines, n).sections == [] && lines[0] + "\n" <= Gathered(lines, n).current
  {
    if n == 1 {
      assert Gathered(lines, 0) == Gathering([], "");
      NothingAdded(lines[0]);
    } else {
      GatheredWhole(lines, n - 1);
    }
  }

  lemma ChompedIsOneLine(content: string)
    requires content != ""
    ensures LinesOf(content) != [] && '\n' !in LinesOf(content)[0]
  {
    HeadLine(content);
    FirstLineInside(content);
    var raw := content[..FirstLine(content)];
    assert forall i :: 0 <= i < |raw| - 1 ==> raw[i] != '\n';
  }

  /** A text that starts with a line that is no heading has none. */
  lemma PlainStart(first: string, text: string)
    requires '\n' !in first && !IsHeading(first) && first + "\n" <= text
    ensures HeadingOf(LinesOf(text)) == ""
  {
    var line := first + "\n";
    FirstLineWhole(line);
    FirstLineJoin(line, text[|line|..]);
    assert text == line + text[|line|..] && text[..|line|] == line;
    HeadLine(text);
    assert line[..|line| - 1] == first;
    if first != "" && first[|first| - 1] == '\r' {
      var shorter := first[..|first| - 1];
      assert shorter + "\r" == first;
      if IsHeading(shorter) {
        HeadingGrows(shorter, "\r");
      }
    }
  }

  /** Of a document without headings the chunks say exactly what it says. */
  lemma PlainTextConserved(content: string)
    requires forall k :: 0 <= k < |LinesOf(content)| ==> !IsHeading(LinesOf(content)[k])
    ensures InkOfAll(Chunks(content)) == Ink(content)
  {
    var lines := LinesOf(content);
    if content != "" {
      ChompedIsOneLine(content);
      GatheredWhole(lines, |lines|);
      PlainStart(lines[0], Gathered(lines, |lines|).current);
    }
    PlainSectionsConserved(content);
  }
}
