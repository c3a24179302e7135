/** The owned section of the Codex configuration file (`src/cli.rs`): rendering it, finding it, replacing it and
    removing it. Offsets count characters. */
module CodexSection {
  import opened Basics
  import opened TextLines
  import Toml

  const HEADER := "[mcp_servers.codex_memoryd]"

  // ---- rendering

  datatype Resolved = Resolved(
    command: string, args: seq<string>, enabledTools: seq<string>, approvalMode: string,
    startupTimeoutSec: nat, toolTimeoutSec: nat)

  function Decimal(n: nat): (s: string)
    ensures s != "" && forall i :: 0 <= i < |s| ==> '0' <= s[i] <= '9'
  {
    (if n < 10 then "" else Decimal(n / 10)) + [(0x30 + n % 10) as char]
  }

  function SnippetLines(r: Resolved): seq<string> {
    [HEADER + "\n",
     KeyLine("command", Toml.Quoted(r.command)),
     KeyLine("args", Toml.QuotedList(r.args)),
     KeyLine("enabled_tools", Toml.QuotedList(r.enabledTools)),
     KeyLine("default_tools_approval_mode", Toml.Quoted(r.approvalMode)),
     KeyLine("startup_timeout_sec", Decimal(r.startupTimeoutSec)),
     KeyLine("tool_timeout_sec", Decimal(r.toolTimeoutSec))]
  }

  function Snippet(r: Resolved): string {
    Concat(SnippetLines(r))
  }

  function KeyLine(key: string, value: string): string {
    key + " = " + value + "\n"
  }

  predicate NulFree(r: Resolved) {
    && '\0' !in r.command && '\0' !in r.approvalMode
    && (forall i :: 0 <= i < |r.args| ==> '\0' !in r.args[i])
    && (forall i :: 0 <= i < |r.enabledTools| ==> '\0' !in r.enabledTools[i])
  }

  /** The encodings of a list, joined by a comma and a space. */
  method JoinEncoded(items: seq<string>) returns (r: Option<string>)
    ensures r.Some? <==> forall i :: 0 <= i < |items| ==> '\0' !in items[i]
    ensures r.Some? ==> r.value == Toml.Joined(items)
  {
    var encoded: seq<string> := [];
    var i := 0;
    while i < |items|
      invariant 0 <= i <= |items| && |encoded| == i
      invariant forall k :: 0 <= k < i ==> '\0' !in items[k] && encoded[k] == Toml.Quoted(items[k])
    {
      var one := Toml.TomlBasicString(items[i]);
      if one.None? {
        return None;
      }
      encoded := encoded + [one.value];
      i := i + 1;
    }
    var joined := "";
    while i > 0
      invariant 0 <= i <= |items| && joined == Toml.Joined(items[i..])
    {
      assert items[i - 1..][1..] == items[i..];
      joined := if i == |items| then encoded[i - 1] else encoded[i - 1] + ", " + joined;
      i := i - 1;
    }
    assert items[0..] == items;
    r := Some(joined);
  }

  method RenderSnippet(r: Resolved) returns (text: Option<string>)
    ensures text == if NulFree(r) then Some(Snippet(r)) else None
  {
    var command := Toml.TomlBasicString(r.command);
    if command.None? {
      return None;
    }
    var args := JoinEncoded(r.args);
    if args.None? {
      return None;
    }
    var enabledTools := JoinEncoded(r.enabledTools);
    if enabledTools.None? {
      return None;
    }
    var approvalMode := Toml.TomlBasicString(r.approvalMode);
    if approvalMode.None? {
      return None;
    }
    text := Some(Concat(
      [HEADER + "\n",
       KeyLine("command", command.value),
       KeyLine("args", "[" + args.value + "]"),
       KeyLine("enabled_tools", "[" + enabledTools.value + "]"),
       KeyLine("default_tools_approval_mode", approvalMode.value),
       KeyLine("startup_timeout_sec", Decimal(r.startupTimeoutSec)),
       KeyLine("tool_timeout_sec", Decimal(r.toolTimeoutSec))]));
  }

  // ---- finding

  datatype Mark = Header | Table | Plain

  /** Where the section is, if there is one. */
  datatype Span = Absent | Span(from: nat, to: nat)

  predicate Bracketed(t: string) {
    t != "" && t[0] == '[' && t[|t| - 1] == ']'
  }

  /** What a line is to the search: the section's header, another table's header, or neither. */
  function MarkOf(line: string): Mark {
    var t := Trim(line);
    if t == HEADER then Header else if Bracketed(t) then Table else Plain
  }

  function Marks(lines: seq<string>): (m: seq<Mark>)
    ensures |m| == |lines|
  {
    seq(|lines|, i requires 0 <= i < |lines| => MarkOf(lines[i]))
  }

  /** The first section header from k on, or the number of lines. */
  function HeaderFrom(marks: seq<Mark>, k: nat): (i: nat)
    requires k <= |marks|
    ensures k <= i <= |marks|
    decreases |marks| - k
  {
    if k == |marks| || marks[k] == Header then k else HeaderFrom(marks, k + 1)
  }

  /** The first table header of any kind from k on, or the number of lines. */
  function TableFrom(marks: seq<Mark>, k: nat): (i: nat)
    requires k <= |marks|
    ensures k <= i <= |marks|
    decreases |marks| - k
  {
    if k == |marks| || marks[k] != Plain then k else TableFrom(marks, k + 1)
  }

  /** The section: its header line and the lines up to the next table, as line indices. */
  function SectionLines(marks: seq<Mark>): (r: Span)
    ensures r.Span? ==> r.from < r.to <= |marks|
  {
    var i := HeaderFrom(marks, 0);
    if i == |marks| then Absent else Span(i, TableFrom(marks, i + 1))
  }

  function Offsets(lines: seq<string>, s: Span): Span
    requires s.Span? ==> s.from <= s.to <= |lines|
  {
    if s.Span? then Span(Offset(lines, s.from), Offset(lines, s.to)) else Absent
  }

  function Section(raw: string): Span {
    var lines := SplitLines(raw);
    Offsets(lines, SectionLines(Marks(lines)))
  }

  /** The next line of the search, its mark and the lines behind it. */
  lemma LineStep(lines: seq<string>, at: nat, rest: string)
    requires rest != "" && at <= |lines| && lines[at..] == SplitLines(rest)
    ensures at < |lines| && lines[at] == rest[..FirstLine(rest)]
            && lines[at + 1..] == SplitLines(rest[FirstLine(rest)..])
    ensures Marks(lines)[at] == Header <==> Trim(rest[..FirstLine(rest)]) == HEADER
    ensures Marks(lines)[at] != Plain <==> Bracketed(Trim(rest[..FirstLine(rest)]))
  {
    HeadLine(rest);
    assert lines[at..][0] == lines[at] && lines[at..][1..] == lines[at + 1..];
  }

  method FindSection(raw: string) returns (r: Span)
    ensures r == Section(raw)
  {
    var offset := 0;
    var start: Option<nat> := None;
    ghost var lines, at := SplitLines(raw), 0;
    ghost var marks := Marks(lines);
    ghost var i := HeaderFrom(marks, 0);
    var rest := raw;
    while rest != ""
      invariant 0 <= at <= |lines| && lines[at..] == SplitLines(rest) && offset == Offset(lines, at)
      invariant start.None? ==> i == HeaderFrom(marks, at)
      invariant start.Some? ==>
                          i < at && start.value == Offset(lines, i) && TableFrom(marks, i + 1) == TableFrom(marks, at)
      decreases |rest|
    {
      LineStep(lines, at, rest);
      var n := FirstLine(rest);
      var line := rest[..n];
      var trimmed := Trim(line);
      if start.Some? {
        if Bracketed(trimmed) {
          return Span(start.value, offset);
        }
      } else if trimmed == HEADER {
        start := Some(offset);
      }
      offset := offset + |line|;
      rest := rest[n..];
      at := at + 1;
    }
    WholeText(raw);
    if start.Some? {
      return Span(start.value, |raw|);
    }
    return Absent;
  }

  // ---- editing

  function Separated(raw: string): string {
    if raw == "" then "" else raw + (if EndsLine(raw) then "" else "\n") + "\n"
  }

  function Upserted(raw: string, desired: string): string {
    match Section(raw)
    case Span(a, b) => SectionInRange(raw); raw[..a] + desired + raw[b..]
    case Absent => Separated(raw) + desired
  }

  function Removed(raw: string): Option<string> {
    match Section(raw)
    case Span(a, b) => SectionInRange(raw); Some(raw[..a] + raw[b..])
    case Absent => None
  }

  lemma SectionInRange(raw: string)
    ensures Section(raw).Span? ==> Section(raw).from <= Section(raw).to <= |raw|
  {
    var lines := SplitLines(raw);
    var s := SectionLines(Marks(lines));
    if s.Span? {
      OffsetGrows(lines, s.from, s.to);
      OffsetGrows(lines, s.to, |lines|);
      WholeText(raw);
    }
  }

  method UpsertSection(raw: string, desired: string) returns (out: string)
    ensures out == Upserted(raw, desired)
  {
    var found := FindSection(raw);
    SectionInRange(raw);
    if found.Span? {
      var start, end := found.from, found.to;
      out := "";
      out := out + raw[..start];
      out := out + desired;
      out := out + raw[end..];
      assert "" + raw[..start] == raw[..start];
      return;
    }
    out := raw;
    if out != "" && out[|out| - 1] != '\n' {
      out := out + "\n";
    }
    if out != "" {
      out := out + "\n";
    }
    out := out + desired;
  }

  method RemoveSection(raw: string) returns (out: Option<string>)
    ensures out == Removed(raw)
  {
    var found := FindSection(raw);
    if found.Absent? {
      return None;
    }
    SectionInRange(raw);
    var start, end := found.from, found.to;
    out := Some(raw[..start] + raw[end..]);
  }
}
