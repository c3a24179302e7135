/** The tree checks of the ChatGPT importer (`src/chatgpt_export_import.rs`, `validate_json_value`) behind the
    streaming guard: whatever the guard lets through, the tree checks let through. */
module JsonTree {
  import opened Basics
  import opened Framing
  import opened JsonGuard

  const MAX_CONVERSATION_VALUE_BYTES: nat := 8 * 1024 * 1024
  const MAX_CONVERSATION_NESTING: nat := 64
  const LIMITS := Limits(MAX_CONVERSATION_VALUE_BYTES, MAX_CONVERSATION_NESTING)

  // ---- decoding, RFC 8259 section 7; a decoded string is its UTF-8 bytes

  function HexValue(b: Byte): (v: nat)
    requires IsHex(b)
    ensures v < 16
  {
    if IsDigit(b) then b as int - 0x30 else if b <= 0x46 then b as int - 0x41 + 10 else b as int - 0x61 + 10
  }

  function CodeUnit(h: seq<Byte>): (c: nat)
    requires |h| == 4 && IsHex(h[0]) && IsHex(h[1]) && IsHex(h[2]) && IsHex(h[3])
    ensures c < 0x1_0000
  {
    HexValue(h[0]) * 0x1000 + HexValue(h[1]) * 0x100 + HexValue(h[2]) * 0x10 + HexValue(h[3])
  }

  predicate HighSurrogate(c: nat) {
    0xD800 <= c < 0xDC00
  }

  predicate LowSurrogate(c: nat) {
    0xDC00 <= c < 0xE000
  }

  function Utf8(c: nat): (s: seq<Byte>)
    requires c < 0x11_0000
    ensures 1 <= |s| <= 4 && (c < 0x1_0000 ==> |s| <= 3)
  {
    if c < 0x80 then [c as Byte]
    else if c < 0x800 then [(0xC0 + c / 0x40) as Byte, (0x80 + c % 0x40) as Byte]
    else if c < 0x1_0000 then [(0xE0 + c / 0x1000) as Byte, (0x80 + c / 0x40 % 0x40) as Byte, (0x80 + c % 0x40) as Byte]
    else [(0xF0 + c / 0x4_0000) as Byte, (0x80 + c / 0x1000 % 0x40) as Byte,
          (0x80 + c / 0x40 % 0x40) as Byte, (0x80 + c % 0x40) as Byte]
  }

  function Unescaped(letter: Byte): Byte
    requires IsShortEscape(letter)
  {
    if letter == 0x62 then 0x08
    else if letter == 0x66 then 0x0C
    else if letter == 0x6E then 0x0A
    else if letter == 0x72 then 0x0D
    else if letter == 0x74 then 0x09
    else letter
  }

  predicate StartsUnicodeEscape(raw: seq<Byte>) {
    |raw| >= 2 && raw[0] == BACKSLASH && raw[1] == 0x75
  }

  /** The string a raw text stands for; a lone surrogate stands for none. */
  function Decoded(raw: seq<Byte>): (r: Option<seq<Byte>>)
    requires ValidRaw(raw)
    decreases |raw|
  {
    if raw == [] then Some([])
    else if raw[0] != BACKSLASH then Prefixed([raw[0]], Decoded(raw[1..]))
    else if !StartsUnicodeEscape(raw) then Prefixed([Unescaped(raw[1])], Decoded(raw[2..]))
    else
      var unit := CodeUnit(raw[2..6]);
      var rest := raw[6..];
      if LowSurrogate(unit) then None
      else if !HighSurrogate(unit) then Prefixed(Utf8(unit), Decoded(rest))
      else if !StartsUnicodeEscape(rest) then None
      else
        var low := CodeUnit(rest[2..6]);
        if !LowSurrogate(low) then None
        else Prefixed(Utf8(0x1_0000 + (unit - 0xD800) * 0x400 + (low - 0xDC00)), Decoded(rest[6..]))
  }

  function Prefixed(head: seq<Byte>, rest: Option<seq<Byte>>): Option<seq<Byte>> {
    if rest.Some? then Some(head + rest.value) else None
  }

  /** A decoded string is never longer than its raw text. */
  lemma {:induction false} DecodedNoLonger(raw: seq<Byte>)
    requires ValidRaw(raw)
    ensures Decoded(raw).Some? ==> |Decoded(raw).value| <= |raw|
    decreases |raw|
  {
    if raw == [] {
    } else if raw[0] != BACKSLASH {
      DecodedNoLonger(raw[1..]);
    } else if !StartsUnicodeEscape(raw) {
      DecodedNoLonger(raw[2..]);
    } else {
      var rest := raw[6..];
      DecodedNoLonger(rest);
      if StartsUnicodeEscape(rest) {
        DecodedNoLonger(rest[6..]);
      }
    }
  }

  // ---- trees

  datatype Entry = Entry(key: seq<Byte>, value: Tree)

  datatype Tree = Nothing | Boolean(b: bool) | Numeral | Chars(bytes: seq<Byte>)
      | List(items: seq<Tree>) | Map(entries: seq<Entry>)

  /** `v` is what the text `t` deserialises to; of fields with one key the last is kept. */
  ghost predicate Decodes(t: Text, v: Tree)
    requires Grammatical(t)
    decreases t, 1
  {
    match t
    case True => v == Boolean(true)
    case False => v == Boolean(false)
    case Null => v == Nothing
    case Num(_) => v == Numeral
    case Str(raw) => v.Chars? && Decoded(raw) == Some(v.bytes)
    case Arr(items, _) =>
      v.List? && |v.items| == |items| && forall i :: 0 <= i < |items| ==> Decodes(items[i].value, v.items[i])
    case Obj(fields, _) =>
      && v.Map?
      && (forall i :: 0 <= i < |v.entries| ==> Kept(t, v.entries[i]))
      && (forall j :: 0 <= j < |fields| ==> exists e :: e in v.entries && Decoded(fields[j].key) == Some(e.key))
  }

  ghost predicate Kept(t: Text, e: Entry)
    requires Grammatical(t) && t.Obj?
    decreases t, 0
  {
    exists j :: 0 <= j < |t.fields| && LastWithKey(t, j, e.key) && Decodes(t.fields[j].value, e.value)
  }

  ghost predicate LastWithKey(t: Text, j: nat, key: seq<Byte>)
    requires Grammatical(t) && t.Obj? && j < |t.fields|
  {
    && Decoded(t.fields[j].key) == Some(key)
    && forall k :: j < k < |t.fields| ==> Decoded(t.fields[k].key) != Some(key)
  }

  datatype Refusal = TooDeep | TooLong

  function ValidateStringValue(s: seq<Byte>): Option<Refusal> {
    if |s| > MAX_CONVERSATION_VALUE_BYTES then Some(TooLong) else None
  }

  function ValidateJsonValue(v: Tree, depth: nat): Option<Refusal>
    decreases v, 1
  {
    if depth > MAX_CONVERSATION_NESTING then Some(TooDeep)
    else
      match v
      case Chars(s) => ValidateStringValue(s)
      case List(items) => ValidateItems(v, 0, depth + 1)
      case Map(entries) => ValidateEntries(v, 0, depth + 1)
      case _ => None
  }

  function ValidateItems(v: Tree, from: nat, depth: nat): Option<Refusal>
    requires v.List? && from <= |v.items|
    decreases v, 0, |v.items| - from
  {
    if from == |v.items| then None
    else
      var first := ValidateJsonValue(v.items[from], depth);
      if first.Some? then first else ValidateItems(v, from + 1, depth)
  }

  function ValidateEntries(v: Tree, from: nat, depth: nat): Option<Refusal>
    requires v.Map? && from <= |v.entries|
    decreases v, 0, |v.entries| - from
  {
    if from == |v.entries| then None
    else
      var e := v.entries[from];
      var key := ValidateStringValue(e.key);
      if key.Some? then key
      else
        var first := ValidateJsonValue(e.value, depth);
        if first.Some? then first else ValidateEntries(v, from + 1, depth)
  }

  /** Every value at most `room` levels down and every string and key within the limit. */
  predicate TreeFits(v: Tree, room: int) {
    && room >= 0
    && match v
       case Chars(s) => |s| <= MAX_CONVERSATION_VALUE_BYTES
       case List(items) => forall i :: 0 <= i < |items| ==> TreeFits(items[i], room - 1)
       case Map(entries) => forall i :: 0 <= i < |entries| ==>
         |entries[i].key| <= MAX_CONVERSATION_VALUE_BYTES && TreeFits(entries[i].value, room - 1)
       case _ => true
  }

  /** The short-circuiting walk accepts exactly the trees within the limits. */
  lemma {:induction false} ValidateIsExact(v: Tree, depth: nat)
    ensures ValidateJsonValue(v, depth).None? <==> TreeFits(v, MAX_CONVERSATION_NESTING - depth)
    decreases v, 1
  {
    if depth <= MAX_CONVERSATION_NESTING {
      match v
      case List(_) => ValidateItemsIsExact(v, 0, depth + 1);
      case Map(_) => ValidateEntriesIsExact(v, 0, depth + 1);
      case _ =>
    }
  }

  lemma {:induction false} ValidateItemsIsExact(v: Tree, from: nat, depth: nat)
    requires v.List? && from <= |v.items|
    ensures ValidateItems(v, from, depth).None? <==>
            forall i :: from <= i < |v.items| ==> TreeFits(v.items[i], MAX_CONVERSATION_NESTING - depth)
    decreases v, 0, |v.items| - from
  {
    if from < |v.items| {
      ValidateIsExact(v.items[from], depth);
      ValidateItemsIsExact(v, from + 1, depth);
    }
  }

  lemma {:induction false} ValidateEntriesIsExact(v: Tree, from: nat, depth: nat)
    requires v.Map? && from <= |v.entries|
    ensures ValidateEntries(v, from, depth).None? <==>
            forall i :: from <= i < |v.entries| ==>
              |v.entries[i].key| <= MAX_CONVERSATION_VALUE_BYTES
              && TreeFits(v.entries[i].value, MAX_CONVERSATION_NESTING - depth)
    decreases v, 0, |v.entries| - from
  {
    if from < |v.entries| {
      ValidateIsExact(v.entries[from].value, depth);
      ValidateEntriesIsExact(v, from + 1, depth);
    }
  }

  // ---- the guard subsumes the tree checks

  /** A text within the limits decodes to a tree within the limits. */
  lemma {:induction false} FitsDecoded(t: Text, room: nat, v: Tree)
    requires Grammatical(t) && Fits(LIMITS, room, t) && Decodes(t, v)
    ensures TreeFits(v, room)
    decreases t, 1
  {
    match t
    case Str(raw) =>
      DecodedNoLonger(raw);
    case Arr(items, _) =>
      forall i | 0 <= i < |items| ensures TreeFits(v.items[i], room - 1) {
        FitsDecoded(items[i].value, room - 1, v.items[i]);
      }
    case Obj(_, _) =>
      forall i | 0 <= i < |v.entries|
        ensures |v.entries[i].key| <= MAX_CONVERSATION_VALUE_BYTES && TreeFits(v.entries[i].value, room - 1)
      {
        EntryFits(t, room, v.entries[i]);
      }
    case _ =>
  }

  lemma {:induction false} EntryFits(t: Text, room: nat, e: Entry)
    requires Grammatical(t) && t.Obj? && Fits(LIMITS, room, t) && Kept(t, e)
    ensures |e.key| <= MAX_CONVERSATION_VALUE_BYTES && TreeFits(e.value, room - 1)
    decreases t, 0
  {
    var j :| 0 <= j < |t.fields| && LastWithKey(t, j, e.key) && Decodes(t.fields[j].value, e.value);
    DecodedNoLonger(t.fields[j].key);
    FitsDecoded(t.fields[j].value, room - 1, e.value);
  }

  datatype Conversation = Conversation(id: seq<Byte>, title: Option<seq<Byte>>, mapping: Tree)

  /** The checks at the head of `parse_conversation`, in order. */
  function ConversationRefusal(c: Conversation): Option<Refusal> {
    var id := ValidateStringValue(c.id);
    if id.Some? then id
    else
      var title := if c.title.Some? then ValidateStringValue(c.title.value) else None;
      if title.Some? then title else ValidateJsonValue(c.mapping, 0)
  }

  ghost predicate HasField(t: Text, v: Tree)
    requires Grammatical(t) && t.Obj?
  {
    exists j :: 0 <= j < |t.fields| && Decodes(t.fields[j].value, v)
  }

  /** The id, the title when there is one, and the mapping all come from fields of the object text. */
  ghost predicate DecodesConversation(t: Text, c: Conversation)
    requires Grammatical(t)
  {
    t.Obj? && HasField(t, Chars(c.id)) && (c.title.Some? ==> HasField(t, Chars(c.title.value)))
    && HasField(t, c.mapping)
  }

  lemma FieldsPass(t: Text, room: nat, v: Tree)
    requires Grammatical(t) && t.Obj? && Fits(LIMITS, room, t) && HasField(t, v)
    ensures TreeFits(v, room - 1)
  {
    var j :| 0 <= j < |t.fields| && Decodes(t.fields[j].value, v);
    FitsDecoded(t.fields[j].value, room - 1, v);
  }

  lemma FitsLess(v: Tree, room: int, more: int)
    requires TreeFits(v, room) && room <= more
    ensures TreeFits(v, more)
  {
  }

  lemma ConversationPasses(t: Text, c: Conversation)
    requires Grammatical(t) && Fits(LIMITS, MAX_CONVERSATION_NESTING - 1, t) && DecodesConversation(t, c)
    ensures ConversationRefusal(c).None?
    ensures ValidateJsonValue(c.mapping, 2).None?
  {
    var room := MAX_CONVERSATION_NESTING - 1;
    FieldsPass(t, room, Chars(c.id));
    if c.title.Some? {
      FieldsPass(t, room, Chars(c.title.value));
    }
    FieldsPass(t, room, c.mapping);
    ValidateIsExact(c.mapping, 2);
    FitsLess(c.mapping, room - 1, MAX_CONVERSATION_NESTING);
    ValidateIsExact(c.mapping, 0);
  }

  /** No conversation of an array whose text passed the reader is refused by the tree checks, and its mapping
      would still pass if the walk began two levels down. */
  lemma GuardSubsumesTreeChecks(before: seq<Byte>, t: Text, after: seq<Byte>, chunks: seq<seq<Byte>>,
        i: nat, c: Conversation)
    requires Grammatical(t) && Spaces(before) && Spaces(after) && Joined(chunks) == before + Written(t) + after
    requires Scan(LIMITS, START, Joined(chunks)).1
    requires t.Arr? && i < |t.items| && DecodesConversation(t.items[i].value, c)
    ensures ConversationRefusal(c).None?
    ensures ValidateJsonValue(c.mapping, 2).None?
  {
    JsonTextIsExact(LIMITS, before, t, after, chunks);
    ConversationPasses(t.items[i].value, c);
  }
}
