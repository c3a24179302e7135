/** Where the Markdown chunker cuts: sections at headings that follow text, blocks at bullets and blank lines. */
module ChunkShapes {
  import opened TextLines
  import opened Chunker

  /** Lines a to b of a document, each ended. */
  function JoinLines(lines: seq<string>, a: nat, b: nat): string
    requires a <= b <= |lines|
    decreases b
  {
    if a == b then "" else JoinLines(lines, a, b - 1) + lines[b - 1] + "\n"
  }

  // ---- sections

  /** Cuts into stretches of lines, the first at the start. */
  predicate Bounds(bounds: seq<nat>, n: nat) {
    && bounds != [] && bounds[0] == 0
    && (forall i :: 0 <= i < |bounds| - 1 ==> bounds[i] < bounds[i + 1])
    && forall i :: 0 <= i < |bounds| ==> bounds[i] <= n
  }

  /** In the stretch from a to b a heading stands only behind blank text. */
  ghost predicate HeadingsLead(lines: seq<string>, a: nat, b: nat)
    requires a <= b <= |lines|
  {
    forall k :: a < k < b && IsHeading(lines[k]) ==> Trim(JoinLines(lines, a, k)) == ""
  }

  /** Section i holds the lines between two cuts; it starts at a heading unless it is the first, has text, and holds no
      heading behind text. */
  ghost predicate SectionAt(lines: seq<string>, bounds: seq<nat>, n: nat, i: nat, section: string)
    requires n <= |lines| && Bounds(bounds, n) && i + 1 < |bounds|
  {
    && section == JoinLines(lines, bounds[i], bounds[i + 1]) && Trim(section) != ""
    && HeadingsLead(lines, bounds[i], bounds[i + 1]) && bounds[i + 1] < |lines| && IsHeading(lines[bounds[i + 1]])
  }

  /** The first n lines as they have been gathered. */
  ghost predicate Cut(lines: seq<string>, n: nat, g: Gathering, bounds: seq<nat>)
    requires n <= |lines|
  {
    && Bounds(bounds, n) && |bounds| == |g.sections| + 1
    && (forall i :: 0 <= i < |g.sections| ==> SectionAt(lines, bounds, n, i, g.sections[i]))
    && g.current == JoinLines(lines, bounds[|g.sections|], n) && HeadingsLead(lines, bounds[|g.sections|], n)
  }

  lemma CutGoesOn(lines: seq<string>, n: nat, g: Gathering, bounds: seq<nat>)
    requires n < |lines| && Cut(lines, n, g, bounds)
    requires !(IsHeading(lines[n]) && Trim(g.current) != "")
    ensures Cut(lines, n + 1, Gathering(g.sections, g.current + lines[n] + "\n"), bounds)
  {
    forall i | 0 <= i < |g.sections| ensures SectionAt(lines, bounds, n + 1, i, g.sections[i]) {
      assert SectionAt(lines, bounds, n, i, g.sections[i]);
    }
  }

  lemma CutHere(lines: seq<string>, n: nat, g: Gathering, bounds: seq<nat>)
    requires n < |lines| && Cut(lines, n, g, bounds) && IsHeading(lines[n]) && Trim(g.current) != ""
    ensures Cut(lines, n + 1, Gathering(g.sections + [g.current], lines[n] + "\n"), bounds + [n])
  {
    var m, more, sections := |g.sections|, bounds + [n], g.sections + [g.current];
    assert bounds[m] == n ==> g.current == "";
    assert Trim("") == "";
    forall i | 0 <= i < |more| - 1 ensures more[i] < more[i + 1] {
      if i < m {
        assert bounds[i] < bounds[i + 1];
      }
    }
    forall i | 0 <= i < |sections| ensures SectionAt(lines, more, n + 1, i, sections[i]) {
      if i < m {
        assert SectionAt(lines, bounds, n, i, g.sections[i]);
      }
    }
    assert JoinLines(lines, n, n) == "" && "" + lines[n] == lines[n];
  }

  function Next(g: Gathering, line: string): Gathering {
    if IsHeading(line) && Trim(g.current) != "" then Gathering(g.sections + [g.current], line + "\n")
    else Gathering(g.sections, g.current + line + "\n")
  }

  lemma GatheredNext(lines: seq<string>, n: nat)
    requires n < |lines|
    ensures Gathered(lines, n + 1) == Next(Gathered(lines, n), lines[n])
  {
  }

  lemma CutNextLine(lines: seq<string>, n: nat, g: Gathering, bounds: seq<nat>, m: nat, h: Gathering)
    returns (more: seq<nat>)
    requires n < |lines| && Cut(lines, n, g, bounds) && m == n + 1 && h == Next(g, lines[n])
    ensures Cut(lines, m, h, more)
  {
    more := bounds;
    if IsHeading(lines[n]) && Trim(g.current) != "" {
      CutHere(lines, n, g, bounds);
      more := bounds + [n];
    } else {
      CutGoesOn(lines, n, g, bounds);
    }
  }

  lemma CutNothing(lines: seq<string>)
    ensures Cut(lines, 0, Gathered(lines, 0), [0])
  {
  }

  lemma GatheredCut(lines: seq<string>) returns (bounds: seq<nat>)
    ensures Cut(lines, |lines|, Gathered(lines, |lines|), bounds)
  {
    CutNothing(lines);
    var g;
    g, bounds := Gathered(lines, 0), [0];
    for i := 0 to |lines|
      invariant g == Gathered(lines, i) && Cut(lines, i, g, bounds)
    {
      GatheredNext(lines, i);
      var h := Next(g, lines[i]);
      bounds := CutNextLine(lines, i, g, bounds, i + 1, h);
      g := h;
    }
  }

  /** The lines of a section, wherever it ends. */
  ghost predicate Section(lines: seq<string>, from: nat, to: nat, section: string) {
    && from < to <= |lines| && section == JoinLines(lines, from, to) && Trim(section) != ""
    && (from > 0 ==> IsHeading(lines[from])) && HeadingsLead(lines, from, to)
    && (to < |lines| ==> IsHeading(lines[to]))
  }

  /** The sections are the lines from one cut to the next, and all lines. */
  ghost predicate AllCut(lines: seq<string>, sections: seq<string>, bounds: seq<nat>) {
    && Bounds(bounds, |lines|) && |bounds| == |sections| + 1 && bounds[|sections|] == |lines|
    && forall i :: 0 <= i < |sections| ==> Section(lines, bounds[i], bounds[i + 1], sections[i])
  }

  lemma OneSection(lines: seq<string>, g: Gathering, cuts: seq<nat>)
    requires Cut(lines, |lines|, g, cuts) && g.sections == [] && Trim(g.current) != ""
    ensures AllCut(lines, [g.current], [0, |lines|])
  {
    assert Trim("") == "";
    assert |lines| == 0 ==> g.current == "";
  }

  lemma SomeSections(lines: seq<string>, g: Gathering, cuts: seq<nat>)
    requires Cut(lines, |lines|, g, cuts) && g.sections != []
    ensures Trim(g.current) != "" && AllCut(lines, g.sections + [g.current], cuts + [|lines|])
    ensures Trim(JoinLines(lines, 0, |lines|)) != ""
  {
    LastHasText(lines, g, cuts);
    SectionsAreCut(lines, g, cuts);
    assert SectionAt(lines, cuts, |lines|, 0, g.sections[0]);
    WholeHasText(lines, cuts[1]);
  }

  /** A document with text is cut at exactly the headings that follow text: the sections are its lines from one cut to
      the next; each has text and starts at a heading unless it is the first; a heading inside it has only blank text
      of its section before it.  A blank document is one section. */
  lemma SectionsCutAtHeadings(content: string) returns (bounds: seq<nat>)
    ensures var lines := LinesOf(content);
            if Trim(JoinLines(lines, 0, |lines|)) == "" then SectionsOf(content) == [content]
            else AllCut(lines, SectionsOf(content), bounds)
  {
    var lines := LinesOf(content);
    var g := Gathered(lines, |lines|);
    var cuts := GatheredCut(lines);
    if g.sections != [] {
      SomeSections(lines, g, cuts);
      bounds := cuts + [|lines|];
    } else {
      if Trim(g.current) != "" {
        OneSection(lines, g, cuts);
        assert [] + [g.current] == [g.current];
      }
      bounds := [0, |lines|];
    }
  }

  lemma LastHasText(lines: seq<string>, g: Gathering, bounds: seq<nat>)
    requires Cut(lines, |lines|, g, bounds) && g.sections != []
    ensures Trim(g.current) != "" && bounds[|g.sections|] < |lines| && IsHeading(lines[bounds[|g.sections|]])
  {
    var m := |g.sections|;
    assert SectionAt(lines, bounds, |lines|, m - 1, g.sections[m - 1]);
    HeadingIsText(lines, bounds[m], |lines|);
  }

  lemma BoundsEnd(bounds: seq<nat>, n: nat)
    requires Bounds(bounds, n) && bounds[|bounds| - 1] < n
    ensures Bounds(bounds + [n], n)
  {
    var more := bounds + [n];
    forall i | 0 <= i < |more| - 1 ensures more[i] < more[i + 1] {
      if i < |bounds| - 1 {
        assert bounds[i] < bounds[i + 1];
      }
    }
  }

  /** A section starts at a heading unless it is the first. */
  lemma StartsAtHeading(lines: seq<string>, g: Gathering, bounds: seq<nat>, i: nat)
    requires Cut(lines, |lines|, g, bounds) && 0 < i <= |g.sections|
    ensures bounds[i] < |lines| && IsHeading(lines[bounds[i]])
  {
    assert SectionAt(lines, bounds, |lines|, i - 1, g.sections[i - 1]);
  }

  lemma SectionIsCut(lines: seq<string>, g: Gathering, bounds: seq<nat>, i: nat)
    requires Cut(lines, |lines|, g, bounds) && i < |g.sections|
    ensures Section(lines, bounds[i], bounds[i + 1], g.sections[i])
  {
    assert SectionAt(lines, bounds, |lines|, i, g.sections[i]);
    if i > 0 {
      StartsAtHeading(lines, g, bounds, i);
    }
  }

  lemma LastIsCut(lines: seq<string>, g: Gathering, bounds: seq<nat>)
    requires Cut(lines, |lines|, g, bounds) && g.sections != [] && Trim(g.current) != ""
    ensures Section(lines, bounds[|g.sections|], |lines|, g.current)
  {
    StartsAtHeading(lines, g, bounds, |g.sections|);
  }

  lemma SectionsAreCut(lines: seq<string>, g: Gathering, bounds: seq<nat>)
    requires Cut(lines, |lines|, g, bounds) && g.sections != [] && Trim(g.current) != ""
    ensures AllCut(lines, g.sections + [g.current], bounds + [|lines|])
  {
    var m, sections, more := |g.sections|, g.sections + [g.current], bounds + [|lines|];
    StartsAtHeading(lines, g, bounds, m);
    BoundsEnd(bounds, |lines|);
    LastIsCut(lines, g, bounds);
    forall i | 0 <= i < |sections| ensures Section(lines, more[i], more[i + 1], sections[i]) {
      if i < m {
        SectionIsCut(lines, g, bounds, i);
      }
    }
  }

  // ---- text that is not blank

  predicate HasInk(s: string) {
    exists i :: 0 <= i < |s| && !IsWhite(s[i])
  }

  lemma {:induction false} TrimEndInk(s: string)
    ensures HasInk(s) <==> HasInk(TrimEnd(s))
    ensures TrimEnd(s) != "" ==> HasInk(s)
  {
    if s != "" && IsWhite(s[|s| - 1]) {
      var front := s[..|s| - 1];
      TrimEndInk(front);
      if i :| 0 <= i < |front| && !IsWhite(front[i]) {
        assert !IsWhite(s[i]);
      }
      if i :| 0 <= i < |s| && !IsWhite(s[i]) {
        assert !IsWhite(front[i]);
      }
    }
  }

  lemma {:induction false} TrimStartInk(s: string)
    ensures TrimStart(s) != "" <==> HasInk(s)
  {
    if s != "" && IsWhite(s[0]) {
      TrimStartInk(s[1..]);
      if i :| 0 <= i < |s[1..]| && !IsWhite(s[1..][i]) {
        assert !IsWhite(s[i + 1]);
      }
      if i :| 0 <= i < |s| && !IsWhite(s[i]) {
        assert !IsWhite(s[1..][i - 1]);
      }
    }
  }

  lemma TrimInk(s: string)
    ensures Trim(s) != "" <==> HasInk(s)
  {
    TrimEndInk(s);
    TrimStartInk(TrimEnd(s));
  }

  lemma InkStays(a: string, s: string, b: string)
    requires HasInk(s)
    ensures HasInk(a + s + b)
  {
    var i :| 0 <= i < |s| && !IsWhite(s[i]);
    assert (a + s + b)[|a| + i] == s[i];
  }

  lemma {:induction false} LineHasText(lines: seq<string>, a: nat, k: nat, b: nat)
    requires a <= k < b <= |lines| && HasInk(lines[k])
    ensures HasInk(JoinLines(lines, a, b))
    decreases b
  {
    if k == b - 1 {
      InkStays(JoinLines(lines, a, b - 1), lines[k], "\n");
    } else {
      LineHasText(lines, a, k, b - 1);
      var front, rest := JoinLines(lines, a, b - 1), lines[b - 1] + "\n";
      InkStays("", front, rest);
      assert "" + front + rest == front + lines[b - 1] + "\n";
    }
  }

  lemma HeadingIsText(lines: seq<string>, k: nat, b: nat)
    requires k < |lines| && IsHeading(lines[k]) && k <= b <= |lines|
    ensures k < b ==> Trim(JoinLines(lines, k, b)) != ""
  {
    TrimStartInk(lines[k]);
    if k < b {
      LineHasText(lines, k, k, b);
      TrimInk(JoinLines(lines, k, b));
    }
  }

  lemma WholeHasText(lines: seq<string>, k: nat)
    requires k < |lines| && IsHeading(lines[k])
    ensures Trim(JoinLines(lines, 0, |lines|)) != ""
  {
    TrimStartInk(lines[k]);
    LineHasText(lines, 0, k, |lines|);
    TrimInk(JoinLines(lines, 0, |lines|));
  }

  // ---- blocks

  /** A line that is part of a paragraph. */
  predicate IsProse(line: string) {
    TrimStart(line) != "" && !IsBullet(TrimStart(line))
  }

  datatype Stretch = Stretch(from: nat, to: nat)

  /** A stretch of prose with none before or behind it. */
  ghost predicate Paragraph(lines: seq<string>, s: Stretch) {
    && s.from < s.to <= |lines| && (forall k :: s.from <= k < s.to ==> IsProse(lines[k]))
    && (s.from > 0 ==> !IsProse(lines[s.from - 1])) && (s.to < |lines| ==> !IsProse(lines[s.to]))
  }

  /** A block is one bullet line without its indent, or a whole paragraph trimmed. */
  ghost predicate BlockAt(lines: seq<string>, s: Stretch, block: string) {
    || (s.from + 1 == s.to <= |lines| && IsBullet(TrimStart(lines[s.from])) && block == TrimStart(lines[s.from]))
    || (Paragraph(lines, s) && block == Trim(JoinLines(lines, s.from, s.to)))
  }

  predicate Ascending(spans: seq<Stretch>, n: nat) {
    && (forall i :: 0 <= i < |spans| - 1 ==> spans[i].to <= spans[i + 1].from)
    && forall i :: 0 <= i < |spans| ==> spans[i].to <= n
  }

  predicate InOne(spans: seq<Stretch>, k: nat) {
    exists i :: 0 <= i < |spans| && spans[i].from <= k < spans[i].to
  }

  /** Of the first n lines only the blank ones are in no stretch. */
  ghost predicate Covered(lines: seq<string>, spans: seq<Stretch>, n: nat)
    requires n <= |lines|
  {
    forall k :: 0 <= k < n && TrimStart(lines[k]) != "" ==> InOne(spans, k)
  }

  ghost predicate Laid(lines: seq<string>, blocks: seq<string>, spans: seq<Stretch>, n: nat)
    requires n <= |lines|
  {
    && |spans| == |blocks| && Ascending(spans, n) && Covered(lines, spans, n)
    && forall i :: 0 <= i < |blocks| ==> BlockAt(lines, spans[i], blocks[i])
  }

  lemma LaidNext(lines: seq<string>, blocks: seq<string>, spans: seq<Stretch>, block: string, s: Stretch)
    requires s.from < s.to <= |lines| && Laid(lines, blocks, spans, s.from) && BlockAt(lines, s, block)
    ensures Laid(lines, blocks + [block], spans + [s], s.to)
  {
    var more := spans + [s];
    forall k | 0 <= k < s.to && TrimStart(lines[k]) != "" ensures InOne(more, k) {
      if k < s.from {
        assert InOne(spans, k);
        var i :| 0 <= i < |spans| && spans[i].from <= k < spans[i].to;
        assert more[i] == spans[i];
      } else {
        assert more[|spans|] == s;
      }
    }
  }

  lemma LaidBlank(lines: seq<string>, blocks: seq<string>, spans: seq<Stretch>, n: nat)
    requires n < |lines| && Laid(lines, blocks, spans, n) && TrimStart(lines[n]) == ""
    ensures Laid(lines, blocks, spans, n + 1)
  {
  }

  /** The prose from p to n, none before it. */
  ghost predicate Running(lines: seq<string>, paragraph: string, p: nat, n: nat) {
    && p <= n <= |lines| && paragraph == JoinLines(lines, p, n) && (forall k :: p <= k < n ==> IsProse(lines[k]))
    && (p > 0 ==> !IsProse(lines[p - 1]))
  }

  lemma FlushedLaid(lines: seq<string>, b: Blocks, spans: seq<Stretch>, p: nat, n: nat) returns (more: seq<Stretch>)
    requires Running(lines, b.paragraph, p, n) && Laid(lines, b.done, spans, p)
    requires n < |lines| ==> !IsProse(lines[n])
    ensures Laid(lines, Flushed(b.done, b.paragraph), more, n)
  {
    more := spans;
    if p < n {
      TrimStartInk(lines[p]);
      LineHasText(lines, p, p, n);
      TrimInk(b.paragraph);
      LaidNext(lines, b.done, spans, Trim(b.paragraph), Stretch(p, n));
      more := spans + [Stretch(p, n)];
    } else {
      assert Trim("") == "";
    }
  }

  /** The first n lines as they have been blocked. */
  ghost predicate Blocking(lines: seq<string>, n: nat, b: Blocks, spans: seq<Stretch>, p: nat) {
    p <= n <= |lines| && Laid(lines, b.done, spans, p) && Running(lines, b.paragraph, p, n)
  }

  lemma BlockingEnds(lines: seq<string>, n: nat, b: Blocks, spans: seq<Stretch>, p: nat) returns (more: seq<Stretch>)
    requires n < |lines| && Blocking(lines, n, b, spans, p) && !IsProse(lines[n])
    ensures var done := Flushed(b.done, b.paragraph);
            var t := TrimStart(lines[n]);
            Blocking(lines, n + 1, Blocks(if IsBullet(t) then done + [t] else done, ""), more, n + 1)
  {
    var t, done := TrimStart(lines[n]), Flushed(b.done, b.paragraph);
    more := FlushedLaid(lines, b, spans, p, n);
    if IsBullet(t) {
      LaidNext(lines, done, more, t, Stretch(n, n + 1));
      more := more + [Stretch(n, n + 1)];
    } else {
      LaidBlank(lines, done, more, n);
    }
  }

  lemma BlockingRuns(lines: seq<string>, n: nat, b: Blocks, spans: seq<Stretch>, p: nat)
    requires n < |lines| && Blocking(lines, n, b, spans, p) && IsProse(lines[n])
    ensures Blocking(lines, n + 1, Blocks(b.done, b.paragraph + lines[n] + "\n"), spans, p)
  {
  }

  lemma BlockedNext(lines: seq<string>, n: nat)
    requires n < |lines|
    ensures var b, t := Blocked(lines, n), TrimStart(lines[n]);
            var done := Flushed(b.done, b.paragraph);
            Blocked(lines, n + 1) == if IsProse(lines[n]) then Blocks(b.done, b.paragraph + lines[n] + "\n")
                                     else Blocks(if IsBullet(t) then done + [t] else done, "")
  {
  }

  lemma {:induction false} BlockedLaid(lines: seq<string>, n: nat) returns (spans: seq<Stretch>, p: nat)
    requires n <= |lines|
    ensures Blocking(lines, n, Blocked(lines, n), spans, p)
  {
    if n == 0 {
      spans, p := [], 0;
    } else {
      spans, p := BlockedLaid(lines, n - 1);
      BlockedNext(lines, n - 1);
      if IsProse(lines[n - 1]) {
        BlockingRuns(lines, n - 1, Blocked(lines, n - 1), spans, p);
      } else {
        spans := BlockingEnds(lines, n - 1, Blocked(lines, n - 1), spans, p);
        p := n;
      }
    }
  }

  /** The blocks of a body lie on ascending stretches of its lines: each is one bullet or one whole paragraph, and only
      blank lines lie in none. */
  lemma BlocksShape(lines: seq<string>) returns (spans: seq<Stretch>)
    ensures Laid(lines, BlocksOf(lines), spans, |lines|)
  {
    var p: nat;
    spans, p := BlockedLaid(lines, |lines|);
    spans := FlushedLaid(lines, Blocked(lines, |lines|), spans, p, |lines|);
  }

  // ---- chunks

  /** A text without blank margins. */
  predicate Tight(text: string) {
    text != "" && !IsWhite(text[0]) && !IsWhite(text[|text| - 1])
  }

  lemma {:induction false} TrimStartKeepsEnd(s: string)
    requires s != "" ==> !IsWhite(s[|s| - 1])
    ensures TrimStart(s) == "" || Tight(TrimStart(s))
  {
    if s != "" && IsWhite(s[0]) {
      TrimStartKeepsEnd(s[1..]);
    }
  }

  lemma {:induction false} TrimEndEnds(s: string)
    ensures TrimEnd(s) != "" ==> !IsWhite(TrimEnd(s)[|TrimEnd(s)| - 1])
  {
    if s != "" && IsWhite(s[|s| - 1]) {
      TrimEndEnds(s[..|s| - 1]);
    }
  }

  lemma TrimIsTight(s: string)
    ensures Trim(s) == "" || Tight(Trim(s))
  {
    TrimEndEnds(s);
    TrimStartKeepsEnd(TrimEnd(s));
  }

  lemma {:induction false} FlatFrom(parts: seq<seq<string>>, n: nat, i: nat) returns (k: nat, j: nat)
    requires n <= |parts| && i < |Flat(parts, n)|
    ensures k < n && j < |parts[k]| && Flat(parts, n)[i] == parts[k][j]
  {
    var front := Flat(parts, n - 1);
    if i < |front| {
      k, j := FlatFrom(parts, n - 1, i);
    } else {
      k, j := n - 1, i - |front|;
    }
  }

  lemma PieceTextIs(chunk: string, i: nat) returns (k: nat)
    requires i < |PieceTexts(chunk)|
    ensures k < |FixedPieces(chunk)| && PieceTexts(chunk)[i] == Trim(FixedPieces(chunk)[k]) != ""
  {
    var pieces := FixedPieces(chunk);
    var parts := seq(|pieces|, i requires 0 <= i < |pieces| => OneTrimmed(pieces[i]));
    var j: nat;
    k, j := FlatFrom(parts, |pieces|, i);
    assert parts[k] == OneTrimmed(pieces[k]);
  }

  lemma ChunkTextIs(chunks: seq<string>, i: nat) returns (b: nat, k: nat)
    requires i < |ChunkTexts(chunks)|
    ensures b < |chunks| && k < |FixedPieces(chunks[b])|
    ensures ChunkTexts(chunks)[i] == Trim(FixedPieces(chunks[b])[k]) != ""
  {
    var parts := seq(|chunks|, i requires 0 <= i < |chunks| => PieceTexts(chunks[i]));
    var j: nat;
    b, j := FlatFrom(parts, |chunks|, i);
    k := PieceTextIs(chunks[b], j);
  }

  /** Every chunk of a document is a piece of a chunk of one of its sections, trimmed and not blank. */
  lemma ChunkIsAPiece(content: string, i: nat) returns (a: nat, b: nat, k: nat)
    requires i < |Chunks(content)|
    ensures a < |SectionsOf(content)|
    ensures b < |SectionChunks(SectionsOf(content)[a])|
    ensures k < |FixedPieces(SectionChunks(SectionsOf(content)[a])[b])|
    ensures Chunks(content)[i] == Trim(FixedPieces(SectionChunks(SectionsOf(content)[a])[b])[k])
    ensures Tight(Chunks(content)[i])
  {
    var sections := SectionsOf(content);
    var parts := seq(|sections|, i requires 0 <= i < |sections| => ChunkTexts(SectionChunks(sections[i])));
    var j: nat;
    a, j := FlatFrom(parts, |sections|, i);
    b, k := ChunkTextIs(SectionChunks(sections[a]), j);
    TrimIsTight(FixedPieces(SectionChunks(sections[a])[b])[k]);
  }

  // ---- fixed-size pieces

  /** No break at or behind the 1500th character, but at the end. */
  predicate Unbroken(p: string) {
    forall k :: MAX_CHUNK_CHARS - 1 <= k < |p| - 1 ==> !IsBreak(p[k])
  }

  lemma {:induction false} CutsAreUnbroken(s: string, n: nat)
    requires n <= |s|
    ensures forall k :: 0 <= k < |CutBy(s, n).out| ==> Unbroken(CutBy(s, n).out[k])
    ensures forall k :: CutBy(s, n).start + MAX_CHUNK_CHARS - 1 <= k < n ==> !IsBreak(s[k])
  {
    if n > 0 {
      CutsAreUnbroken(s, n - 1);
      var c, d := CutBy(s, n - 1), CutBy(s, n);
      if d != c {
        assert Unbroken(s[c.start..n]);
      }
    }
  }

  lemma {:induction false} ConcatSnoc(texts: seq<string>, text: string)
    ensures Concat(texts + [text]) == Concat(texts) + text
  {
    if texts == [] {
      assert [] + [text] == [text] && [text][1..] == [];
      NothingAdded(text);
    } else {
      ConcatSnoc(texts[1..], text);
      assert (texts + [text])[1..] == texts[1..] + [text];
      Assoc(texts[0], Concat(texts[1..]), text);
    }
  }

  lemma {:induction false} CutsJoin(s: string, n: nat)
    requires n <= |s|
    ensures Concat(CutBy(s, n).out) == s[..CutBy(s, n).start]
  {
    if n > 0 {
      CutsJoin(s, n - 1);
      var c, d := CutBy(s, n - 1), CutBy(s, n);
      if d != c {
        ConcatSnoc(c.out, s[c.start..n]);
        assert s[..n] == s[..c.start] + s[c.start..n];
      }
    }
  }

  ghost predicate AllUnbroken(pieces: seq<string>) {
    forall k :: 0 <= k < |pieces| ==> Unbroken(pieces[k])
  }

  lemma CutUp(chunk: string, out: seq<string>, start: nat) returns (pieces: seq<string>, rest: string)
    requires start <= |chunk| && Concat(out) == chunk[..start] && AllUnbroken(out) && Unbroken(chunk[start..])
    ensures pieces == (if Trim(chunk[start..]) != "" then out + [chunk[start..]] else out)
    ensures chunk == Concat(pieces) + rest && Trim(rest) == "" && AllUnbroken(pieces)
  {
    var tail := chunk[start..];
    assert chunk == chunk[..start] + tail;
    if Trim(tail) == "" {
      pieces, rest := out, tail;
    } else {
      ConcatSnoc(out, tail);
      pieces, rest := out + [tail], "";
      assert Trim("") == "";
      NothingAdded(chunk);
    }
  }

  /** The pieces are the text cut up, but for a blank rest, and every one of them ends at its first break at or behind
      its 1500th character if it has one. */
  lemma PiecesAreTheText(chunk: string) returns (rest: string)
    ensures chunk == Concat(FixedPieces(chunk)) + rest && Trim(rest) == "" && AllUnbroken(FixedPieces(chunk))
  {
    var pieces;
    if |chunk| <= MAX_CHUNK_CHARS {
      rest := "";
      ConcatSnoc([], chunk);
      assert [] + [chunk] == [chunk] && Trim("") == "";
      NothingAdded(chunk);
    } else {
      var c := CutBy(chunk, |chunk|);
      CutsAreUnbroken(chunk, |chunk|);
      CutsJoin(chunk, |chunk|);
      pieces, rest := CutUp(chunk, c.out, c.start);
    }
  }

  // ---- headings

  /** A number sign stands at i behind nothing but white space. */
  predicate LeadsAt(line: string, i: nat) {
    i < |line| && line[i] == '#' && forall j :: 0 <= j < i ==> IsWhite(line[j])
  }

  /** A heading is a line whose first character that is not white space is a number sign. */
  lemma {:induction false} HeadingIff(line: string)
    ensures IsHeading(line) <==> exists i: nat :: LeadsAt(line, i)
  {
    if line != "" && IsWhite(line[0]) {
      HeadingIff(line[1..]);
      if i: nat :| LeadsAt(line[1..], i) {
        assert forall j :: 0 < j < i + 1 ==> line[j] == line[1..][j - 1];
        assert LeadsAt(line, i + 1);
      }
      if i: nat :| LeadsAt(line, i) {
        assert line[0] != '#';
        assert LeadsAt(line[1..], i - 1);
      }
    } else if line != "" && line[0] == '#' {
      assert LeadsAt(line, 0);
    }
  }

  lemma HeadingHasNoEnd(section: string)
    ensures '\n' !in HeadingOf(LinesOf(section))
  {
    if section != "" {
      ChompedIsOneLine(section);
      TrimIsInside(LinesOf(section)[0]);
    }
  }

  lemma {:induction false} TrimEndIsInside(s: string)
    ensures forall c :: c in TrimEnd(s) ==> c in s
  {
    if s != "" && IsWhite(s[|s| - 1]) {
      TrimEndIsInside(s[..|s| - 1]);
    }
  }

  lemma {:induction false} TrimStartIsInside(s: string)
    ensures forall c :: c in TrimStart(s) ==> c in s
  {
    if s != "" && IsWhite(s[0]) {
      TrimStartIsInside(s[1..]);
    }
  }

  lemma TrimIsInside(s: string)
    ensures forall c :: c in Trim(s) ==> c in s
  {
    TrimEndIsInside(s);
    TrimStartIsInside(TrimEnd(s));
  }

  /** The chunks of a section have its heading as their first line and a block behind it; a section without blocks has
      one chunk, its heading, and a section without either has none. */
  lemma HeadedChunks(section: string)
    ensures var heading, blocks := HeadingOf(LinesOf(section)), BlocksOf(BodyOf(LinesOf(section)));
            if blocks == [] then (heading == "" && SectionChunks(section) == [])
                                 || (heading != "" && SectionChunks(section) == [heading])
            else |SectionChunks(section)| == |blocks| && forall b :: 0 <= b < |blocks| ==>
                   Leads(heading, blocks[b], SectionChunks(section)[b])
  {
    var heading, blocks := HeadingOf(LinesOf(section)), BlocksOf(BodyOf(LinesOf(section)));
    HeadingHasNoEnd(section);
    forall b | 0 <= b < |blocks| ensures Leads(heading, blocks[b], Headed(heading, blocks[b])) {
      HeadedLeads(heading, blocks[b]);
    }
  }

  /** The chunk is the heading's line, if there is one, and the block. */
  predicate Leads(heading: string, block: string, chunk: string) {
    if heading == "" then chunk == block
    else SplitLines(chunk) == [heading + "\n"] + SplitLines(block)
  }

  lemma HeadedLeads(heading: string, block: string)
    requires '\n' !in heading
    ensures Leads(heading, block, Headed(heading, block))
  {
    var line := heading + "\n";
    FirstLineWhole(line);
    SplitJoin(line, block);
    assert line[..|line|] == line && line[|line|..] == "";
    assert SplitLines("") == [];
  }
}
