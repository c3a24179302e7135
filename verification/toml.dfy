/** TOML basic strings: the encoder of `src/cli.rs` (`toml_basic_string`) against a reader of basic strings as TOML
    v1.0.0, section "String", defines them. */
module Toml {
  import opened Basics

  /** Unicode general category Cc; all of it lies below U+FFFF, so four hexadecimal digits always do. */
  predicate IsControl(c: char) {
    c as int < 0x20 || 0x7F <= c as int < 0xA0
  }

  function HexDigit(n: nat): char
    requires n < 16
  {
    if n < 10 then (0x30 + n) as char else (0x41 + n - 10) as char
  }

  /** Upper-case hexadecimal, `width` digits. */
  function Hex(n: nat, width: nat): (s: string)
    ensures |s| == width
  {
    if width == 0 then "" else Hex(n / 16, width - 1) + [HexDigit(n % 16)]
  }

  /** The letter of a character with a short escape. */
  function ShortLetter(c: char): Option<char> {
    match c
    case '"' => Some('"')
    case '\\' => Some('\\')
    case '\U{8}' => Some('b')
    case '\t' => Some('t')
    case '\n' => Some('n')
    case '\U{C}' => Some('f')
    case '\r' => Some('r')
    case _ => None
  }

  /** The encoding of one character other than NUL. */
  function Escaped(c: char): string {
    if ShortLetter(c).Some? then ['\\', ShortLetter(c).value]
    else if !IsControl(c) then [c]
    else ['\\', 'u'] + Hex(c as int, 4)
  }

  function EscapedAll(s: string): string {
    if s == "" then "" else EscapedAll(s[..|s| - 1]) + Escaped(s[|s| - 1])
  }

  function Quoted(s: string): string {
    "\"" + EscapedAll(s) + "\""
  }

  lemma PrefixGrows(value: string, i: nat)
    requires i < |value|
    ensures EscapedAll(value[..i + 1]) == EscapedAll(value[..i]) + Escaped(value[i])
    ensures '\0' in value[..i + 1] <==> '\0' in value[..i] || value[i] == '\0'
  {
    assert value[..i + 1] == value[..i] + [value[i]];
    assert (value[..i] + [value[i]])[..i] == value[..i];
  }

  /** None stands for the refusal of a NUL. */
  method TomlBasicString(value: string) returns (r: Option<string>)
    ensures r == if '\0' in value then None else Some(Quoted(value))
  {
    var escaped := "";
    var i := 0;
    while i < |value|
      invariant 0 <= i <= |value| && '\0' !in value[..i] && escaped == EscapedAll(value[..i])
    {
      var c := value[i];
      PrefixGrows(value, i);
      if c == '\0' {
        return None;
      }
      if c == '"' {
        escaped := escaped + "\\\"";
      } else if c == '\\' {
        escaped := escaped + "\\\\";
      } else if c == '\U{8}' {
        escaped := escaped + "\\b";
      } else if c == '\t' {
        escaped := escaped + "\\t";
      } else if c == '\n' {
        escaped := escaped + "\\n";
      } else if c == '\U{C}' {
        escaped := escaped + "\\f";
      } else if c == '\r' {
        escaped := escaped + "\\r";
      } else if IsControl(c) {
        escaped := escaped + "\\u" + Hex(c as int, 4);
      } else {
        escaped := escaped + [c];
      }
      i := i + 1;
    }
    assert value[..i] == value;
    r := Some("\"" + escaped + "\"");
  }

  /** A printable character: no control character, quotation mark or backslash. */
  predicate Printable(c: char) {
    (0x20 <= c as int < 0x7F || 0xA0 <= c as int) && c != '"' && c != '\\'
  }

  lemma EscapedIs(c: char)
    ensures Escaped(c) != "" && (Escaped(c) == [c] <==> Printable(c)) && (|Escaped(c)| == 1 ==> Printable(c))
  {
  }

  lemma SnocSame(a: string, b: string, x: string, c: char)
    requires |a| >= |b| && x != ""
    ensures a + x == b + [c] <==> a == b && x == [c]
  {
    if a + x == b + [c] {
      assert (a + x)[..|b|] == (b + [c])[..|b|];
      assert (a + x)[|a|..] == x && (b + [c])[|b|..] == [c];
    }
  }

  predicate AllPrintable(s: string) {
    forall i :: 0 <= i < |s| ==> Printable(s[i])
  }

  lemma AllPrintableSnoc(front: string, c: char)
    ensures AllPrintable(front + [c]) <==> AllPrintable(front) && Printable(c)
  {
    var s := front + [c];
    assert s[|front|] == c && forall i :: 0 <= i < |front| ==> s[i] == front[i];
  }

  lemma EscapedSnoc(front: string, c: char)
    ensures EscapedAll(front + [c]) == EscapedAll(front) + Escaped(c)
  {
    assert (front + [c])[..|front|] == front;
  }

  lemma PrintableNext(front: string, c: char)
    requires |EscapedAll(front)| >= |front| && (EscapedAll(front) == front <==> AllPrintable(front))
    ensures var s := front + [c];
            |EscapedAll(s)| >= |s| && (EscapedAll(s) == s <==> AllPrintable(s))
  {
    EscapedIs(c);
    EscapedSnoc(front, c);
    AllPrintableSnoc(front, c);
    SnocSame(EscapedAll(front), front, Escaped(c), c);
  }

  /** Printable characters stand for themselves, and only they do. */
  lemma {:induction false} PrintableStays(s: string)
    ensures |EscapedAll(s)| >= |s| && (EscapedAll(s) == s <==> AllPrintable(s))
  {
    if s != "" {
      var n := |s| - 1;
      PrintableStays(s[..n]);
      PrintableNext(s[..n], s[n]);
      assert s == s[..n] + [s[n]];
    }
  }

  // ---- reading basic strings

  /** The characters that may stand for themselves: tab and everything but the other controls below U+0080, the
      quotation mark and the backslash. */
  predicate Literal(c: char) {
    c == '\t' || (c as int >= 0x20 && c != '"' && c != '\\' && c as int != 0x7F)
  }

  function HexValue(c: char): (v: Option<nat>)
    ensures v.Some? ==> v.value < 16
  {
    if '0' <= c <= '9' then Some(c as int - 0x30)
    else if 'A' <= c <= 'F' then Some(c as int - 0x41 + 10)
    else if 'a' <= c <= 'f' then Some(c as int - 0x61 + 10)
    else None
  }

  function HexNumber(s: string): Option<nat> {
    if s == "" then Some(0)
    else
      var front, last := HexNumber(s[..|s| - 1]), HexValue(s[|s| - 1]);
      if front.Some? && last.Some? then Some(front.value * 16 + last.value) else None
  }

  function Scalar(n: Option<nat>): Option<char> {
    if n.Some? && (n.value < 0xD800 || 0xE000 <= n.value < 0x11_0000) then Some(n.value as char) else None
  }

  function LetterMeaning(letter: char): Option<char> {
    match letter
    case 'b' => Some('\U{8}')
    case 't' => Some('\t')
    case 'n' => Some('\n')
    case 'f' => Some('\U{C}')
    case 'r' => Some('\r')
    case '"' => Some('"')
    case '\\' => Some('\\')
    case _ => None
  }

  /** The escape at the head of a text, and its length. */
  function ReadEscape(s: string): (e: Option<(char, nat)>)
    requires s != "" && s[0] == '\\'
    ensures e.Some? ==> 0 < e.value.1 <= |s|
  {
    if |s| < 2 then None
    else if LetterMeaning(s[1]).Some? then Some((LetterMeaning(s[1]).value, 2))
    else
      var digits := if s[1] == 'u' then 4 else if s[1] == 'U' then 8 else 0;
      if digits == 0 || |s| < 2 + digits then None
      else
        var c := Scalar(HexNumber(s[2..2 + digits]));
        if c.Some? then Some((c.value, 2 + digits)) else None
  }

  /** The characters up to the closing quotation mark, and the text behind it. */
  function ReadRest(s: string): Option<(string, string)>
    decreases |s|
  {
    if s == "" then None
    else if s[0] == '"' then Some(("", s[1..]))
    else if s[0] == '\\' then
      var e := ReadEscape(s);
      if e.None? then None
      else Before(e.value.0, ReadRest(s[e.value.1..]))
    else if Literal(s[0]) then Before(s[0], ReadRest(s[1..]))
    else None
  }

  function Before(c: char, r: Option<(string, string)>): Option<(string, string)> {
    if r.Some? then Some(([c] + r.value.0, r.value.1)) else None
  }

  /** A basic string at the head of a text. */
  function ReadBasic(s: string): Option<(string, string)> {
    if s != "" && s[0] == '"' then ReadRest(s[1..]) else None
  }

  // ---- the round trip

  predicate FitsHex(n: nat, width: nat) {
    if width == 0 then n == 0 else FitsHex(n / 16, width - 1)
  }

  lemma {:induction false} HexReads(n: nat, width: nat)
    requires FitsHex(n, width)
    ensures HexNumber(Hex(n, width)) == Some(n)
  {
    if width > 0 {
      HexReads(n / 16, width - 1);
      var high, low := n / 16, n % 16;
      DigitReads(Hex(high, width - 1), high, low);
      assert Hex(n, width) == Hex(high, width - 1) + [HexDigit(low)];
    }
  }

  lemma DigitReads(front: string, high: nat, low: nat)
    requires HexNumber(front) == Some(high) && low < 16
    ensures HexNumber(front + [HexDigit(low)]) == Some(16 * high + low)
  {
    var s := front + [HexDigit(low)];
    assert s[..|s| - 1] == front;
  }

  lemma ShortReads(c: char, rest: string)
    requires ShortLetter(c).Some?
    ensures ReadRest(Escaped(c) + rest) == Before(c, ReadRest(rest))
  {
    var s := Escaped(c) + rest;
    assert s[2..] == rest;
    assert LetterMeaning(ShortLetter(c).value) == Some(c);
    assert ReadEscape(s) == Some((c, 2));
  }

  lemma ControlReads(c: char, rest: string)
    requires ShortLetter(c).None? && IsControl(c)
    ensures ReadRest(Escaped(c) + rest) == Before(c, ReadRest(rest))
  {
    var s := Escaped(c) + rest;
    assert s[6..] == rest;
    assert FitsHex(c as int, 4) by { assert c as int / 16 / 16 == 0; assert FitsHex(0, 2); }
    HexReads(c as int, 4);
    assert s[2..6] == Hex(c as int, 4);
    assert ReadEscape(s) == Some((c, 6));
  }

  /** One encoded character reads back, whatever follows. */
  lemma EscapedReads(c: char, rest: string)
    requires c != '\0'
    ensures ReadRest(Escaped(c) + rest) == Before(c, ReadRest(rest))
  {
    if ShortLetter(c).Some? {
      ShortReads(c, rest);
    } else if IsControl(c) {
      ControlReads(c, rest);
    } else {
      assert ([c] + rest)[1..] == rest;
    }
  }

  lemma {:induction false} EscapedAllReads(s: string, rest: string)
    requires '\0' !in s
    ensures ReadRest(EscapedAll(s) + rest) == Read(s, ReadRest(rest))
  {
    if s == "" {
      assert EscapedAll(s) + rest == rest;
      ReadNothing(ReadRest(rest));
    } else {
      var n := |s| - 1;
      var tail := Escaped(s[n]) + rest;
      assert EscapedAll(s) + rest == EscapedAll(s[..n]) + tail;
      EscapedAllReads(s[..n], tail);
      EscapedReads(s[n], rest);
      ReadBefore(s[..n], s[n], ReadRest(rest));
      assert s[..n] + [s[n]] == s;
    }
  }

  lemma ReadNothing(r: Option<(string, string)>)
    ensures Read("", r) == r
  {
    assert r.Some? ==> "" + r.value.0 == r.value.0;
  }

  lemma ReadBefore(front: string, c: char, r: Option<(string, string)>)
    ensures Read(front, Before(c, r)) == Read(front + [c], r)
  {
    if r.Some? {
      assert front + ([c] + r.value.0) == front + [c] + r.value.0;
    }
  }

  function Read(s: string, r: Option<(string, string)>): Option<(string, string)> {
    if r.Some? then Some((s + r.value.0, r.value.1)) else None
  }

  /** Every NUL-free string, once encoded, reads back as itself, whatever text follows. */
  lemma QuotedReadsBack(s: string, rest: string)
    requires '\0' !in s
    ensures ReadBasic(Quoted(s) + rest) == Some((s, rest))
  {
    var tail := "\"" + rest;
    assert (Quoted(s) + rest)[1..] == EscapedAll(s) + tail;
    EscapedAllReads(s, tail);
    assert tail[1..] == rest;
    assert s + "" == s;
  }

  /** The encoding holds no control character, so no raw newline. */
  lemma {:induction false} EscapedIsOneLine(s: string)
    requires '\0' !in s
    ensures forall i :: 0 <= i < |EscapedAll(s)| ==> !IsControl(EscapedAll(s)[i])
  {
    if s != "" {
      var n := |s| - 1;
      EscapedIsOneLine(s[..n]);
      EscapedCharIsOneLine(s[n]);
    }
  }

  lemma {:induction false} HexIsOneLine(n: nat, width: nat)
    ensures forall i :: 0 <= i < |Hex(n, width)| ==> !IsControl(Hex(n, width)[i])
  {
    if width > 0 {
      HexIsOneLine(n / 16, width - 1);
      assert !IsControl(HexDigit(n % 16));
    }
  }

  lemma EscapedCharIsOneLine(c: char)
    ensures forall i :: 0 <= i < |Escaped(c)| ==> !IsControl(Escaped(c)[i])
  {
    if |Escaped(c)| == 6 {
      HexIsOneLine(c as int, 4);
    }
  }

  // ---- arrays of strings

  function Joined(items: seq<string>): string {
    if items == [] then ""
    else if |items| == 1 then Quoted(items[0])
    else Quoted(items[0]) + ", " + Joined(items[1..])
  }

  /** `[item, item, …]`. */
  function QuotedList(items: seq<string>): string {
    "[" + Joined(items) + "]"
  }

  /** Strings separated by a comma and a space, up to the closing bracket. */
  function ReadItems(s: string): Option<(seq<string>, string)>
    decreases |s|
  {
    var first := ReadBasic(s);
    if first.None? || |first.value.1| >= |s| then None
    else
      var (item, rest) := first.value;
      if rest != "" && rest[0] == ']' then Some(([item], rest[1..]))
      else if |rest| >= 2 && rest[0] == ',' && rest[1] == ' ' then
        More(item, ReadItems(rest[2..]))
      else None
  }

  function More(item: string, r: Option<(seq<string>, string)>): Option<(seq<string>, string)> {
    if r.Some? then Some(([item] + r.value.0, r.value.1)) else None
  }

  function ReadList(s: string): Option<(seq<string>, string)> {
    if |s| >= 2 && s[0] == '[' then
      (if s[1] == ']' then Some(([], s[2..])) else ReadItems(s[1..]))
    else None
  }

  lemma ItemThen(item: string, after: string)
    requires '\0' !in item && after != ""
    ensures after[0] == ']' ==> ReadItems(Quoted(item) + after) == Some(([item], after[1..]))
    ensures |after| >= 2 && after[0] == ',' && after[1] == ' ' ==>
              ReadItems(Quoted(item) + after) == More(item, ReadItems(after[2..]))
  {
    QuotedReadsBack(item, after);
  }

  lemma Regrouped(a: string, b: string, c: string, d: string)
    ensures (a + b + c) + d == a + (b + (c + d))
  {
  }

  /** The first of several items reads back, and reading goes on behind the separator. */
  lemma FirstReadsBack(item: string, others: string, end: string)
    requires '\0' !in item
    ensures ReadItems((Quoted(item) + ", " + others) + end) == More(item, ReadItems(others + end))
  {
    var next := others + end;
    var after := ", " + next;
    Regrouped(Quoted(item), ", ", others, end);
    assert after[2..] == next;
    ItemThen(item, after);
  }

  lemma LastReadsBack(item: string, rest: string)
    requires '\0' !in item
    ensures ReadItems(Quoted(item) + ("]" + rest)) == Some(([item], rest))
  {
    var end := "]" + rest;
    assert end[1..] == rest;
    ItemThen(item, end);
  }

  lemma {:induction false} ItemsReadBack(items: seq<string>, rest: string)
    requires items != [] && forall i :: 0 <= i < |items| ==> '\0' !in items[i]
    ensures ReadItems(Joined(items) + ("]" + rest)) == Some((items, rest))
  {
    if |items| == 1 {
      LastReadsBack(items[0], rest);
      assert [items[0]] == items;
    } else {
      FirstReadsBack(items[0], Joined(items[1..]), "]" + rest);
      ItemsReadBack(items[1..], rest);
      assert [items[0]] + items[1..] == items;
    }
  }

  /** A rendered array reads back as the strings it was made from. */
  lemma ListReadsBack(items: seq<string>, rest: string)
    requires forall i :: 0 <= i < |items| ==> '\0' !in items[i]
    ensures ReadList(QuotedList(items) + rest) == Some((items, rest))
  {
    var s := QuotedList(items) + rest;
    if items == [] {
      assert s == "[" + "]" + rest;
      assert s[2..] == rest;
    } else {
      assert s[1..] == Joined(items) + ("]" + rest);
      assert Joined(items)[0] == '"';
      ItemsReadBack(items, rest);
    }
  }
}
