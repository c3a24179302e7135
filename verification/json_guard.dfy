/** The streaming byte guard of the ChatGPT importer (`src/chatgpt_export_import.rs`,
    `BoundedJsonReader`) against the JSON grammar of RFC 8259, sections 4, 5 and 7. */
module JsonGuard {
  import opened Basics
  import opened Framing

  const QUOTE: Byte := 0x22
  const BACKSLASH: Byte := 0x5C

  predicate Opens(b: Byte) {
    b == 0x7B || b == 0x5B
  }

  predicate Closes(b: Byte) {
    b == 0x7D || b == 0x5D
  }

  datatype Limits = Limits(valueBytes: nat, nesting: nat)

  datatype Guard = Guard(nesting: nat, inString: bool, escaped: bool, stringBytes: nat)

  const START := Guard(0, false, false, 0)

  /** One byte: the new state, and whether the limits still hold. */
  function Step(l: Limits, g: Guard, b: Byte): (r: (Guard, bool)) {
    if g.inString then
      if b == QUOTE && !g.escaped then (g.(inString := false, stringBytes := 0), true)
      else
        var g1 := g.(stringBytes := g.stringBytes + 1);
        if g1.stringBytes > l.valueBytes then (g1, false)
        else (g1.(escaped := b == BACKSLASH && !g.escaped), true)
    else if b == QUOTE then (Guard(g.nesting, true, false, 0), true)
    else if Opens(b) then (g.(nesting := g.nesting + 1), g.nesting + 1 <= l.nesting)
    else if Closes(b) then (g.(nesting := if g.nesting == 0 then 0 else g.nesting - 1), true)
    else (g, true)
  }

  function Scan(l: Limits, g: Guard, bytes: seq<Byte>): (r: (Guard, bool))
    decreases |bytes|
  {
    if bytes == [] then (g, true)
    else
      var (g1, ok) := Step(l, g, bytes[0]);
      if ok then Scan(l, g1, bytes[1..]) else (g1, false)
  }

  /** The reader's fields, changed byte by byte. */
  class BoundedJsonReader {
    const limits: Limits
    var nesting: nat
    var inString: bool
    var escaped: bool
    var stringBytes: nat

    function State(): Guard
      reads this
    {
      Guard(nesting, inString, escaped, stringBytes)
    }

    constructor (limits: Limits)
      ensures this.limits == limits && State() == START
    {
      this.limits := limits;
      nesting, inString, escaped, stringBytes := 0, false, false, 0;
    }

    method Inspect(bytes: seq<Byte>) returns (ok: bool)
      modifies this
      ensures (State(), ok) == Scan(limits, old(State()), bytes)
    {
      ghost var start := State();
      var i := 0;
      while i < |bytes|
        invariant 0 <= i <= |bytes|
        invariant Scan(limits, start, bytes) == Scan(limits, State(), bytes[i..])
      {
        var byte := bytes[i];
        assert bytes[i..][1..] == bytes[i + 1..];
        i := i + 1;
        if inString {
          if byte == QUOTE && !escaped {
            inString := false;
            stringBytes := 0;
            continue;
          }
          stringBytes := stringBytes + 1;
          if stringBytes > limits.valueBytes {
            return false;
          }
          escaped := byte == BACKSLASH && !escaped;
          if byte != BACKSLASH {
            escaped := false;
          }
          continue;
        }
        if byte == QUOTE {
          inString := true;
          escaped := false;
          stringBytes := 0;
        } else if Opens(byte) {
          nesting := nesting + 1;
          if nesting > limits.nesting {
            return false;
          }
        } else if Closes(byte) {
          nesting := if nesting == 0 then 0 else nesting - 1;
        }
      }
      return true;
    }

    /** Successive reads, whatever their sizes, decide what one read of all bytes decides. */
    method ReadAll(chunks: seq<seq<Byte>>) returns (ok: bool)
      modifies this
      ensures (State(), ok) == Scan(limits, old(State()), Joined(chunks))
    {
      ghost var start := State();
      assert chunks[0..] == chunks;
      var i := 0;
      while i < |chunks|
        invariant 0 <= i <= |chunks|
        invariant Scan(limits, start, Joined(chunks)) == Scan(limits, State(), Joined(chunks[i..]))
      {
        assert chunks[i..][1..] == chunks[i + 1..];
        ScanJoin(limits, State(), chunks[i], Joined(chunks[i + 1..]));
        var good := Inspect(chunks[i]);
        if !good {
          return false;
        }
        i := i + 1;
      }
      return true;
    }
  }

  /** Scanning a ++ b is scanning a and then b. */
  lemma {:induction false} ScanJoin(l: Limits, g: Guard, a: seq<Byte>, b: seq<Byte>)
    ensures Scan(l, g, a + b) == if Scan(l, g, a).1 then Scan(l, Scan(l, g, a).0, b) else Scan(l, g, a)
    decreases |a|
  {
    if a == [] {
      assert a + b == b;
    } else {
      var (g1, ok) := Step(l, g, a[0]);
      assert (a + b)[0] == a[0] && (a + b)[1..] == a[1..] + b;
      if ok {
        ScanJoin(l, g1, a[1..], b);
      }
    }
  }

  // ---- the grammar

  predicate IsSpace(b: Byte) {
    b == 0x20 || b == 0x09 || b == 0x0A || b == 0x0D
  }

  predicate IsDigit(b: Byte) {
    0x30 <= b <= 0x39
  }

  predicate IsHex(b: Byte) {
    IsDigit(b) || 0x41 <= b <= 0x46 || 0x61 <= b <= 0x66
  }

  /** The escape letters of section 7 other than u. */
  predicate IsShortEscape(b: Byte) {
    b == QUOTE || b == BACKSLASH || b == 0x2F || b == 0x62 || b == 0x66 || b == 0x6E || b == 0x72 || b == 0x74
  }

  /** The bytes between the quotes of a string, as UTF-8. */
  predicate ValidRaw(raw: seq<Byte>) {
    raw == []
    || (raw[0] >= 0x20 && raw[0] != QUOTE && raw[0] != BACKSLASH && ValidRaw(raw[1..]))
    || (|raw| >= 2 && raw[0] == BACKSLASH && IsShortEscape(raw[1]) && ValidRaw(raw[2..]))
    || (|raw| >= 6 && raw[0] == BACKSLASH && raw[1] == 0x75
        && IsHex(raw[2]) && IsHex(raw[3]) && IsHex(raw[4]) && IsHex(raw[5])
        && ValidRaw(raw[6..]))
  }

  datatype Number = Number(minus: bool, whole: seq<Byte>, frac: Option<seq<Byte>>, exp: Option<(seq<Byte>, seq<Byte>)>)

  predicate Digits(s: seq<Byte>) {
    s != [] && forall i :: 0 <= i < |s| ==> IsDigit(s[i])
  }

  predicate ValidNumber(n: Number) {
    && Digits(n.whole) && (n.whole[0] == 0x30 ==> |n.whole| == 1)
    && (n.frac.Some? ==> Digits(n.frac.value))
    && (n.exp.Some? ==>
          && n.exp.value.0 in [[0x65], [0x45], [0x65, 0x2B], [0x65, 0x2D], [0x45, 0x2B], [0x45, 0x2D]]
          && Digits(n.exp.value.1))
  }

  function NumberBytes(n: Number): seq<Byte> {
    (if n.minus then [0x2D] else []) + n.whole
    + (if n.frac.Some? then [0x2E] + n.frac.value else [])
    + (if n.exp.Some? then n.exp.value.0 + n.exp.value.1 else [])
  }

  datatype Item = Item(before: seq<Byte>, value: Text, after: seq<Byte>)

  datatype Field = Field(
    before: seq<Byte>, key: seq<Byte>, colonBefore: seq<Byte>, colonAfter: seq<Byte>, value: Text, after: seq<Byte>)

  /** A JSON value as written, with its insignificant whitespace. */
  datatype Text =
    | True
    | False
    | Null
    | Num(n: Number)
    | Str(raw: seq<Byte>)
    | Arr(items: seq<Item>, gap: seq<Byte>)
    | Obj(fields: seq<Field>, gap: seq<Byte>)

  predicate Spaces(s: seq<Byte>) {
    forall i :: 0 <= i < |s| ==> IsSpace(s[i])
  }

  predicate Grammatical(t: Text) {
    match t
    case Num(n) => ValidNumber(n)
    case Str(raw) => ValidRaw(raw)
    case Arr(items, gap) =>
      Spaces(gap)
      && forall i :: 0 <= i < |items| ==>
           Spaces(items[i].before) && Grammatical(items[i].value) && Spaces(items[i].after)
    case Obj(fields, gap) =>
      Spaces(gap) && forall i :: 0 <= i < |fields| ==>
        && Spaces(fields[i].before) && ValidRaw(fields[i].key)
        && Spaces(fields[i].colonBefore) && Spaces(fields[i].colonAfter)
        && Grammatical(fields[i].value) && Spaces(fields[i].after)
    case _ => true
  }

  function StringBytes(raw: seq<Byte>): seq<Byte> {
    [QUOTE] + raw + [QUOTE]
  }

  function Written(t: Text): seq<Byte>
    decreases t, 0
  {
    match t
    case True => [0x74, 0x72, 0x75, 0x65]
    case False => [0x66, 0x61, 0x6C, 0x73, 0x65]
    case Null => [0x6E, 0x75, 0x6C, 0x6C]
    case Num(n) => NumberBytes(n)
    case Str(raw) => StringBytes(raw)
    case Arr(items, gap) => [0x5B] + (gap + WrittenItems(t, |items|) + [0x5D])
    case Obj(fields, gap) => [0x7B] + (gap + WrittenFields(t, |fields|) + [0x7D])
  }

  /** The first n items with the commas between them. */
  function WrittenItems(t: Text, n: nat): seq<Byte>
    requires t.Arr? && n <= |t.items|
    decreases t, 0, n
  {
    if n == 0 then []
    else
      var item := t.items[n - 1];
      WrittenItems(t, n - 1) + (if n > 1 then [0x2C] else []) + (item.before + Written(item.value) + item.after)
  }

  function WrittenFields(t: Text, n: nat): seq<Byte>
    requires t.Obj? && n <= |t.fields|
    decreases t, 0, n
  {
    if n == 0 then []
    else
      var f := t.fields[n - 1];
      WrittenFields(t, n - 1) + (if n > 1 then [0x2C] else []) + FieldBytes(f)
  }

  function FieldBytes(f: Field): seq<Byte>
    decreases f
  {
    f.before + StringBytes(f.key) + (f.colonBefore + [0x3A] + f.colonAfter) + Written(f.value) + f.after
  }

  /** No bracket of the value nests deeper than `room`. */
  predicate DepthWithin(t: Text, room: int) {
    match t
    case Arr(items, _) => room >= 1 && forall i :: 0 <= i < |items| ==> DepthWithin(items[i].value, room - 1)
    case Obj(fields, _) => room >= 1 && forall i :: 0 <= i < |fields| ==> DepthWithin(fields[i].value, room - 1)
    case _ => true
  }

  predicate StringsWithin(t: Text, max: nat) {
    match t
    case Str(raw) => |raw| <= max
    case Arr(items, _) => forall i :: 0 <= i < |items| ==> StringsWithin(items[i].value, max)
    case Obj(fields, _) =>
      forall i :: 0 <= i < |fields| ==> |fields[i].key| <= max && StringsWithin(fields[i].value, max)
    case _ => true
  }

  // ---- exactness

  predicate Plain(b: Byte) {
    b != QUOTE && !Opens(b) && !Closes(b)
  }

  lemma {:induction false} ScanPlain(l: Limits, g: Guard, bytes: seq<Byte>)
    requires !g.inString && forall i :: 0 <= i < |bytes| ==> Plain(bytes[i])
    ensures Scan(l, g, bytes) == (g, true)
  {
    if bytes != [] {
      ScanPlain(l, g, bytes[1..]);
    }
  }

  /** Inside a string, after n of its bytes. */
  function Inside(g: Guard, n: nat): Guard {
    Guard(g.nesting, true, false, n)
  }

  lemma {:induction false} ScanRaw(l: Limits, g: Guard, raw: seq<Byte>, n: nat)
    requires ValidRaw(raw) && n <= l.valueBytes
    ensures Scan(l, Inside(g, n), raw).1 <==> n + |raw| <= l.valueBytes
    ensures n + |raw| <= l.valueBytes ==> Scan(l, Inside(g, n), raw).0 == Inside(g, n + |raw|)
  {
    if raw != [] {
      var k := if raw[0] != BACKSLASH then 1 else if raw[1] == 0x75 && !(IsShortEscape(raw[1])) then 6 else 2;
      assert raw == raw[..k] + raw[k..];
      ScanUnit(l, g, raw[..k], n);
      ScanJoin(l, Inside(g, n), raw[..k], raw[k..]);
      if n + k <= l.valueBytes {
        ScanRaw(l, g, raw[k..], n + k);
      }
    }
  }

  /** One character or escape of a string. */
  predicate IsUnit(u: seq<Byte>) {
    || (|u| == 1 && u[0] != QUOTE && u[0] != BACKSLASH)
    || (|u| == 2 && u[0] == BACKSLASH)
    || (|u| == 6 && u[0] == BACKSLASH && forall i :: 1 <= i < 6 ==> u[i] != QUOTE && u[i] != BACKSLASH)
  }

  lemma ScanUnit(l: Limits, g: Guard, u: seq<Byte>, n: nat)
    requires IsUnit(u) && n <= l.valueBytes
    ensures Scan(l, Inside(g, n), u).1 <==> n + |u| <= l.valueBytes
    ensures n + |u| <= l.valueBytes ==> Scan(l, Inside(g, n), u).0 == Inside(g, n + |u|)
  {
    if |u| > 1 {
      var e := Inside(g, n + 1).(escaped := true);
      if n + 1 <= l.valueBytes {
        assert Step(l, Inside(g, n), u[0]) == (e, true);
        if n + 2 <= l.valueBytes {
          assert Step(l, e, u[1]) == (Inside(g, n + 2), true);
          assert Scan(l, Inside(g, n), u) == Scan(l, Inside(g, n + 2), u[1..][1..]);
          assert u[1..][1..] == u[2..];
          ScanOrdinary(l, g, u[2..], n + 2);
        }
      }
    } else {
      assert u[1..] == [];
    }
  }

  lemma {:induction false} ScanOrdinary(l: Limits, g: Guard, s: seq<Byte>, n: nat)
    requires n <= l.valueBytes && forall i :: 0 <= i < |s| ==> s[i] != QUOTE && s[i] != BACKSLASH
    ensures Scan(l, Inside(g, n), s).1 <==> n + |s| <= l.valueBytes
    ensures n + |s| <= l.valueBytes ==> Scan(l, Inside(g, n), s).0 == Inside(g, n + |s|)
  {
    if s != [] && n + 1 <= l.valueBytes {
      assert Step(l, Inside(g, n), s[0]) == (Inside(g, n + 1), true);
      ScanOrdinary(l, g, s[1..], n + 1);
    }
  }

  /** Outside strings, between values. */
  predicate Between(g: Guard) {
    !g.inString && !g.escaped && g.stringBytes == 0
  }

  lemma ScanString(l: Limits, g: Guard, raw: seq<Byte>)
    requires ValidRaw(raw) && Between(g)
    ensures Scan(l, g, StringBytes(raw)).1 <==> |raw| <= l.valueBytes
    ensures |raw| <= l.valueBytes ==> Scan(l, g, StringBytes(raw)).0 == g
  {
    assert StringBytes(raw) == [QUOTE] + (raw + [QUOTE]);
    ScanJoin(l, g, [QUOTE], raw + [QUOTE]);
    assert Scan(l, g, [QUOTE]) == (Inside(g, 0), true) by { assert [QUOTE][1..] == []; }
    ScanJoin(l, Inside(g, 0), raw, [QUOTE]);
    ScanRaw(l, g, raw, 0);
    if |raw| <= l.valueBytes {
      assert Scan(l, Inside(g, |raw|), [QUOTE]) == (g, true) by { assert [QUOTE][1..] == []; }
    }
  }

  /** Bytes that leave an accepting guard where they found it. */
  predicate Returns(l: Limits, g: Guard, bytes: seq<Byte>) {
    Scan(l, g, bytes).1 ==> Scan(l, g, bytes).0 == g
  }

  lemma ScanBoth(l: Limits, g: Guard, a: seq<Byte>, b: seq<Byte>)
    requires Returns(l, g, a) && Returns(l, g, b)
    ensures Returns(l, g, a + b)
    ensures Scan(l, g, a + b).1 <==> Scan(l, g, a).1 && Scan(l, g, b).1
  {
    ScanJoin(l, g, a, b);
  }

  lemma ScanQuiet(l: Limits, g: Guard, bytes: seq<Byte>)
    requires Between(g) && forall i :: 0 <= i < |bytes| ==> Plain(bytes[i])
    ensures Returns(l, g, bytes) && Scan(l, g, bytes).1
  {
    ScanPlain(l, g, bytes);
  }

  /** Quiet bytes around a piece change nothing. */
  lemma ScanPadded(l: Limits, g: Guard, before: seq<Byte>, mid: seq<Byte>, after: seq<Byte>)
    requires Between(g) && Returns(l, g, mid)
    requires forall i :: 0 <= i < |before| ==> Plain(before[i])
    requires forall i :: 0 <= i < |after| ==> Plain(after[i])
    ensures Returns(l, g, before + mid + after)
    ensures Scan(l, g, before + mid + after).1 <==> Scan(l, g, mid).1
  {
    ScanQuiet(l, g, before);
    ScanQuiet(l, g, after);
    ScanBoth(l, g, before, mid);
    ScanBoth(l, g, before + mid, after);
  }

  lemma OneByte(l: Limits, g: Guard, b: Byte)
    ensures Scan(l, g, [b]) == Step(l, g, b)
  {
    assert [b][1..] == [];
  }

  lemma ScanGapped(l: Limits, g: Guard, gap: seq<Byte>, body: seq<Byte>)
    requires Between(g) && Spaces(gap) && Returns(l, g, body)
    ensures Returns(l, g, gap + body) && (Scan(l, g, gap + body).1 <==> Scan(l, g, body).1)
  {
    ScanQuiet(l, g, gap);
    ScanBoth(l, g, gap, body);
  }

  /** A piece between an opening and a closing bracket. */
  lemma ScanBracketed(l: Limits, g: Guard, open: Byte, mid: seq<Byte>, close: Byte)
    requires Between(g) && Opens(open) && Closes(close)
    requires g.nesting + 1 <= l.nesting ==> Returns(l, g.(nesting := g.nesting + 1), mid)
    ensures Returns(l, g, [open] + (mid + [close]))
    ensures Scan(l, g, [open] + (mid + [close])).1 <==>
            g.nesting + 1 <= l.nesting && Scan(l, g.(nesting := g.nesting + 1), mid).1
  {
    var up := g.(nesting := g.nesting + 1);
    OneByte(l, g, open);
    OneByte(l, up, close);
    ScanJoin(l, g, [open], mid + [close]);
    ScanJoin(l, up, mid, [close]);
  }

  lemma NumberIsPlain(n: Number)
    requires ValidNumber(n)
    ensures forall i :: 0 <= i < |NumberBytes(n)| ==> Plain(NumberBytes(n)[i])
  {
    var whole := n.whole;
    var frac := if n.frac.Some? then [0x2E] + n.frac.value else [];
    var exp := if n.exp.Some? then n.exp.value.0 + n.exp.value.1 else [];
    assert forall i :: 0 <= i < |whole| ==> IsDigit(whole[i]);
    assert forall i :: 0 <= i < |frac| ==> Plain(frac[i]);
    assert forall i :: 0 <= i < |exp| ==> Plain(exp[i]);
  }

  /** What the limits allow of a value with `room` brackets to spare. */
  predicate Fits(l: Limits, room: int, t: Text) {
    DepthWithin(t, room) && StringsWithin(t, l.valueBytes)
  }

  /** Between values, the guard accepts the text of a value exactly when its brackets nest no deeper than the
      room left and no string is longer than the limit, and it comes back to where it was. */
  lemma {:induction false} GuardIsExact(l: Limits, g: Guard, t: Text)
    requires Grammatical(t) && Between(g) && g.nesting <= l.nesting
    ensures Returns(l, g, Written(t))
    ensures Scan(l, g, Written(t)).1 <==> Fits(l, l.nesting - g.nesting, t)
    decreases t, 2
  {
    match t
    case Num(n) =>
      NumberIsPlain(n);
      ScanQuiet(l, g, Written(t));
    case Str(raw) =>
      ScanString(l, g, raw);
    case Arr(_, _) =>
      GuardOfArray(l, g, t);
    case Obj(_, _) =>
      GuardOfObject(l, g, t);
    case _ =>
      ScanQuiet(l, g, Written(t));
  }

  lemma {:induction false} GuardOfArray(l: Limits, g: Guard, t: Text)
    requires t.Arr? && Grammatical(t) && Between(g) && g.nesting <= l.nesting
    ensures Returns(l, g, Written(t))
    ensures Scan(l, g, Written(t)).1 <==> Fits(l, l.nesting - g.nesting, t)
    decreases t, 1
  {
    var up := g.(nesting := g.nesting + 1);
    if up.nesting <= l.nesting {
      GuardOfItems(l, up, t, |t.items|);
      ScanGapped(l, up, t.gap, WrittenItems(t, |t.items|));
    }
    ScanBracketed(l, g, 0x5B, t.gap + WrittenItems(t, |t.items|), 0x5D);
  }

  lemma {:induction false} GuardOfObject(l: Limits, g: Guard, t: Text)
    requires t.Obj? && Grammatical(t) && Between(g) && g.nesting <= l.nesting
    ensures Returns(l, g, Written(t))
    ensures Scan(l, g, Written(t)).1 <==> Fits(l, l.nesting - g.nesting, t)
    decreases t, 1
  {
    var up := g.(nesting := g.nesting + 1);
    if up.nesting <= l.nesting {
      GuardOfFields(l, up, t, |t.fields|);
      ScanGapped(l, up, t.gap, WrittenFields(t, |t.fields|));
    }
    ScanBracketed(l, g, 0x7B, t.gap + WrittenFields(t, |t.fields|), 0x7D);
  }

  predicate ItemsFit(l: Limits, room: int, t: Text, n: nat)
    requires t.Arr? && n <= |t.items|
  {
    forall i :: 0 <= i < n ==> Fits(l, room, t.items[i].value)
  }

  predicate FieldsFit(l: Limits, room: int, t: Text, n: nat)
    requires t.Obj? && n <= |t.fields|
  {
    forall i :: 0 <= i < n ==> |t.fields[i].key| <= l.valueBytes && Fits(l, room, t.fields[i].value)
  }

  /** A list grown by a comma and one more piece. */
  lemma ScanListed(l: Limits, g: Guard, front: seq<Byte>, comma: seq<Byte>, piece: seq<Byte>)
    requires Between(g) && (comma == [] || comma == [0x2C]) && Returns(l, g, front) && Returns(l, g, piece)
    ensures Returns(l, g, front + comma + piece)
    ensures Scan(l, g, front + comma + piece).1 <==> Scan(l, g, front).1 && Scan(l, g, piece).1
  {
    ScanQuiet(l, g, comma);
    ScanBoth(l, g, front, comma);
    ScanBoth(l, g, front + comma, piece);
  }

  lemma {:induction false} GuardOfItems(l: Limits, g: Guard, t: Text, n: nat)
    requires t.Arr? && n <= |t.items| && Grammatical(t) && Between(g) && g.nesting <= l.nesting
    ensures Returns(l, g, WrittenItems(t, n))
    ensures Scan(l, g, WrittenItems(t, n)).1 <==> ItemsFit(l, l.nesting - g.nesting, t, n)
    decreases t, 0, n
  {
    if n > 0 {
      var item := t.items[n - 1];
      GuardOfItems(l, g, t, n - 1);
      GuardIsExact(l, g, item.value);
      ScanPadded(l, g, item.before, Written(item.value), item.after);
      ScanListed(l, g, WrittenItems(t, n - 1), if n > 1 then [0x2C] else [],
                 item.before + Written(item.value) + item.after);
    }
  }

  /** The bytes of one field. */
  lemma ScanField(l: Limits, g: Guard, f: Field)
    requires Between(g) && ValidRaw(f.key) && Returns(l, g, Written(f.value))
    requires Spaces(f.before) && Spaces(f.colonBefore) && Spaces(f.colonAfter) && Spaces(f.after)
    ensures Returns(l, g, FieldBytes(f))
    ensures Scan(l, g, FieldBytes(f)).1 <==> |f.key| <= l.valueBytes && Scan(l, g, Written(f.value)).1
  {
    var colon := f.colonBefore + [0x3A] + f.colonAfter;
    var key, value := StringBytes(f.key), Written(f.value);
    ScanString(l, g, f.key);
    ScanPadded(l, g, f.before, key, colon);
    ScanBoth(l, g, f.before + key + colon, value);
    ScanPadded(l, g, [], f.before + key + colon + value, f.after);
    assert FieldBytes(f) == [] + (f.before + key + colon + value) + f.after;
  }

  lemma {:induction false} GuardOfFields(l: Limits, g: Guard, t: Text, n: nat)
    requires t.Obj? && n <= |t.fields| && Grammatical(t) && Between(g) && g.nesting <= l.nesting
    ensures Returns(l, g, WrittenFields(t, n))
    ensures Scan(l, g, WrittenFields(t, n)).1 <==> FieldsFit(l, l.nesting - g.nesting, t, n)
    decreases t, 0, n
  {
    if n > 0 {
      var f := t.fields[n - 1];
      GuardOfFields(l, g, t, n - 1);
      GuardIsExact(l, g, f.value);
      ScanField(l, g, f);
      ScanListed(l, g, WrittenFields(t, n - 1), if n > 1 then [0x2C] else [], FieldBytes(f));
    }
  }

  /** A whole JSON text, section 2, read in any chunks by a fresh reader: accepted exactly when it is within the
      limits, and left outside strings at nesting 0. */
  lemma JsonTextIsExact(l: Limits, before: seq<Byte>, t: Text, after: seq<Byte>, chunks: seq<seq<Byte>>)
    requires Grammatical(t) && Spaces(before) && Spaces(after) && Joined(chunks) == before + Written(t) + after
    ensures Scan(l, START, Joined(chunks)).1 <==> Fits(l, l.nesting, t)
    ensures Fits(l, l.nesting, t) ==> Scan(l, START, Joined(chunks)).0 == START
  {
    GuardIsExact(l, START, t);
    ScanPadded(l, START, before, Written(t), after);
  }
}
