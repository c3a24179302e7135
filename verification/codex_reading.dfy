/** Reading the rendered snippet back: the settings a TOML reader finds in it under their keys are those it was
    rendered from. */
module CodexReading {
  import opened Basics
  import opened TextLines
  import opened CodexSection
  import opened CodexTheorems
  import Toml

  // ---- decimal numbers

  function DigitValue(c: char): (v: Option<nat>)
    ensures v.Some? ==> v.value < 10
  {
    if '0' <= c <= '9' then Some(c as int - 0x30) else None
  }

  /** The number a TOML integer stands for: digits only, without a leading zero. */
  function ReadDecimal(s: string): Option<nat> {
    if s == "" || (|s| > 1 && s[0] == '0') then None else DigitsValue(s)
  }

  function DigitsValue(s: string): Option<nat> {
    if s == "" then Some(0)
    else
      var front, last := DigitsValue(s[..|s| - 1]), DigitValue(s[|s| - 1]);
      if front.Some? && last.Some? then Some(front.value * 10 + last.value) else None
  }

  lemma DigitReads(low: nat)
    requires low < 10
    ensures DigitValue((0x30 + low) as char) == Some(low)
  {
  }

  lemma DigitAppended(front: string, high: nat, c: char, low: nat)
    requires DigitsValue(front) == Some(high) && DigitValue(c) == Some(low)
    ensures DigitsValue(front + [c]) == Some(high * 10 + low)
  {
    var s := front + [c];
    assert s[..|s| - 1] == front;
  }

  lemma DecimalSplits(n: nat)
    ensures Decimal(n) == (if n < 10 then "" else Decimal(n / 10)) + [(0x30 + n % 10) as char]
  {
  }

  lemma {:induction false} DecimalDigits(n: nat)
    ensures DigitsValue(Decimal(n)) == Some(n)
  {
    var front, low := if n < 10 then "" else Decimal(n / 10), n % 10;
    if n >= 10 {
      DecimalDigits(n / 10);
    }
    DecimalSplits(n);
    DigitReads(low);
    DigitAppended(front, n / 10, (0x30 + low) as char, low);
  }

  lemma {:induction false} DecimalLeads(n: nat)
    requires n > 0
    ensures Decimal(n)[0] != '0'
  {
    DecimalSplits(n);
    if n >= 10 {
      DecimalLeads(n / 10);
      assert Decimal(n)[0] == Decimal(n / 10)[0];
    }
  }

  /** A rendered number reads back as itself. */
  lemma DecimalReadsBack(n: nat)
    ensures ReadDecimal(Decimal(n)) == Some(n)
  {
    DecimalDigits(n);
    if n > 0 {
      DecimalLeads(n);
    }
  }

  // ---- settings

  /** A line `key = value`. */
  datatype Setting = Setting(key: string, value: string)

  function KeyEnd(line: string): (n: nat)
    ensures n <= |line|
  {
    if line == "" || line[0] == ' ' then 0 else 1 + KeyEnd(line[1..])
  }

  function SettingOf(line: string): Option<Setting> {
    var n := KeyEnd(line);
    if n + 4 <= |line| && line[n..n + 3] == " = " && line[|line| - 1] == '\n'
    then Some(Setting(line[..n], line[n + 3..|line| - 1]))
    else None
  }

  /** The text of the value under a key: that of the first line that sets it. */
  function ValueFor(lines: seq<string>, key: string): Option<string> {
    if lines == [] then None
    else
      var s := SettingOf(lines[0]);
      if s.Some? && s.value.key == key then Some(s.value.value) else ValueFor(lines[1..], key)
  }

  lemma {:induction false} KeyEnds(key: string, rest: string)
    requires ' ' !in key
    ensures KeyEnd(key + " " + rest) == |key|
  {
    var line := key + " " + rest;
    if key != "" {
      assert line[1..] == key[1..] + " " + rest;
      KeyEnds(key[1..], rest);
    }
  }

  lemma KeyLineReads(key: string, value: string)
    requires ' ' !in key
    ensures SettingOf(KeyLine(key, value)) == Some(Setting(key, value))
  {
    var line := KeyLine(key, value);
    assert line == key + " " + ("= " + value + "\n");
    KeyEnds(key, "= " + value + "\n");
    var n := |key|;
    assert line[..n] == key && line[n..n + 3] == " = " && line[n + 3..|line| - 1] == value;
  }

  lemma {:induction false} ValueAt(lines: seq<string>, keys: seq<string>, values: seq<string>, k: nat)
    requires k < |keys| && |keys| == |values| == |lines|
    requires forall i :: 0 <= i < |keys| ==> ' ' !in keys[i] && lines[i] == KeyLine(keys[i], values[i])
    requires forall i :: 0 <= i < k ==> |keys[i]| != |keys[k]|
    ensures ValueFor(lines, keys[k]) == Some(values[k])
  {
    KeyLineReads(keys[0], values[0]);
    if k > 0 {
      assert keys[0] != keys[k];
      ValueAt(lines[1..], keys[1..], values[1..], k - 1);
    }
  }

  lemma {:induction false} NoKey(line: string)
    requires ' ' !in line
    ensures KeyEnd(line) == |line|
  {
    if line != "" {
      NoKey(line[1..]);
    }
  }

  lemma HeaderSetsNothing(lines: seq<string>, key: string)
    requires lines != [] && lines[0] == HEADER + "\n"
    ensures ValueFor(lines, key) == ValueFor(lines[1..], key)
  {
    NoKey(HEADER + "\n");
  }

  // ---- the snippet

  const KEYS :=
    ["command", "args", "enabled_tools", "default_tools_approval_mode", "startup_timeout_sec", "tool_timeout_sec"]

  function Values(r: Resolved): seq<string> {
    [Toml.Quoted(r.command), Toml.QuotedList(r.args), Toml.QuotedList(r.enabledTools), Toml.Quoted(r.approvalMode),
     Decimal(r.startupTimeoutSec), Decimal(r.toolTimeoutSec)]
  }

  lemma KeysAreSpaceless()
    ensures forall i :: 0 <= i < 6 ==> ' ' !in KEYS[i]
  {
    assert ' ' !in "command" && ' ' !in "args" && ' ' !in "enabled_tools";
    assert ' ' !in "default_tools_approval_mode" && ' ' !in "startup_timeout_sec" && ' ' !in "tool_timeout_sec";
  }

  lemma KeysDiffer(i: nat, k: nat)
    requires i < k < 6
    ensures |KEYS[i]| != |KEYS[k]|
  {
  }

  lemma SnippetValue(r: Resolved, k: nat)
    requires k < 6
    ensures ValueFor(SnippetLines(r), KEYS[k]) == Some(Values(r)[k])
  {
    var lines := SnippetLines(r);
    HeaderSetsNothing(lines, KEYS[k]);
    KeysAreSpaceless();
    forall i | 0 <= i < k ensures |KEYS[i]| != |KEYS[k]| {
      KeysDiffer(i, k);
    }
    ValueAt(lines[1..], KEYS, Values(r), k);
  }

  lemma QuotedValue(s: string)
    requires '\0' !in s
    ensures Toml.ReadBasic(Toml.Quoted(s)) == Some((s, ""))
  {
    Toml.QuotedReadsBack(s, "");
    assert Toml.Quoted(s) + "" == Toml.Quoted(s);
  }

  lemma ListValue(items: seq<string>)
    requires forall i :: 0 <= i < |items| ==> '\0' !in items[i]
    ensures Toml.ReadList(Toml.QuotedList(items)) == Some((items, ""))
  {
    Toml.ListReadsBack(items, "");
    assert Toml.QuotedList(items) + "" == Toml.QuotedList(items);
  }

  /** What a reader finds under a key of a text. */
  function StringUnder(text: string, key: string): Option<string> {
    var value := ValueFor(SplitLines(text), key);
    if value.None? then None
    else
      match Toml.ReadBasic(value.value)
      case Some((s, "")) => Some(s)
      case _ => None
  }

  function ListUnder(text: string, key: string): Option<seq<string>> {
    var value := ValueFor(SplitLines(text), key);
    if value.None? then None
    else
      match Toml.ReadList(value.value)
      case Some((items, "")) => Some(items)
      case _ => None
  }

  function NumberUnder(text: string, key: string): Option<nat> {
    var value := ValueFor(SplitLines(text), key);
    if value.None? then None else ReadDecimal(value.value)
  }

  lemma StringsReadBack(r: Resolved)
    requires NulFree(r)
    ensures StringUnder(Snippet(r), "command") == Some(r.command)
    ensures StringUnder(Snippet(r), "default_tools_approval_mode") == Some(r.approvalMode)
  {
    SnippetIsOwned(r);
    SnippetValue(r, 0);
    SnippetValue(r, 3);
    QuotedValue(r.command);
    QuotedValue(r.approvalMode);
  }

  lemma ListsReadBack(r: Resolved)
    requires NulFree(r)
    ensures ListUnder(Snippet(r), "args") == Some(r.args)
    ensures ListUnder(Snippet(r), "enabled_tools") == Some(r.enabledTools)
  {
    SnippetIsOwned(r);
    SnippetValue(r, 1);
    SnippetValue(r, 2);
    ListValue(r.args);
    ListValue(r.enabledTools);
  }

  lemma NumbersReadBack(r: Resolved)
    requires NulFree(r)
    ensures NumberUnder(Snippet(r), "startup_timeout_sec") == Some(r.startupTimeoutSec)
    ensures NumberUnder(Snippet(r), "tool_timeout_sec") == Some(r.toolTimeoutSec)
  {
    SnippetIsOwned(r);
    SnippetValue(r, 4);
    SnippetValue(r, 5);
    DecimalReadsBack(r.startupTimeoutSec);
    DecimalReadsBack(r.toolTimeoutSec);
  }

  /** Read key by key, the snippet gives back every setting it was rendered from. */
  lemma SnippetReadsBack(r: Resolved)
    requires NulFree(r)
    ensures StringUnder(Snippet(r), "command") == Some(r.command)
    ensures ListUnder(Snippet(r), "args") == Some(r.args)
    ensures ListUnder(Snippet(r), "enabled_tools") == Some(r.enabledTools)
    ensures StringUnder(Snippet(r), "default_tools_approval_mode") == Some(r.approvalMode)
    ensures NumberUnder(Snippet(r), "startup_timeout_sec") == Some(r.startupTimeoutSec)
    ensures NumberUnder(Snippet(r), "tool_timeout_sec") == Some(r.toolTimeoutSec)
  {
    StringsReadBack(r);
    ListsReadBack(r);
    NumbersReadBack(r);
  }
}
