/** JSON values as the importers and the MCP server hold them. */
module Json {
  import opened Basics

  datatype Member = Member(key: string, value: Value)

  /** Object members keep an order here; keys are unique in a well-formed value. */
  datatype Value =
    | Null
    | Bool(b: bool)
    | Integer(n: int)
    | Float(repr: string)
    | String(s: string)
    | Array(items: seq<Value>)
    | Object(members: seq<Member>)

  function Get(members: seq<Member>, key: string): Option<Value> {
    if members == [] then None
    else if members[0].key == key then Some(members[0].value)
    else Get(members[1..], key)
  }

  function GetString(members: seq<Member>, key: string): Option<string> {
    match Get(members, key)
    case Some(String(s)) => Some(s)
    case _ => None
  }

  function GetObject(members: seq<Member>, key: string): Option<seq<Member>> {
    match Get(members, key)
    case Some(Object(m)) => Some(m)
    case _ => None
  }

  /** `as_u64`. */
  function GetUnsigned(members: seq<Member>, key: string): Option<nat> {
    match Get(members, key)
    case Some(Integer(n)) => if 0 <= n < 0x1_0000_0000_0000_0000 then Some(n) else None
    case _ => None
  }

  function CharBytes(c: char): nat {
    if c as int < 0x80 then 1 else if c as int < 0x800 then 2 else if c as int < 0x1_0000 then 3 else 4
  }

  /** Length in UTF-8 bytes, what `str::len` returns. */
  function Utf8Len(s: string): nat {
    if s == [] then 0 else CharBytes(s[0]) + Utf8Len(s[1..])
  }

  ghost predicate UniqueKeys(members: seq<Member>) {
    forall i, j :: 0 <= i < j < |members| ==> members[i].key != members[j].key
  }

  ghost predicate WellFormed(v: Value) {
    match v
    case Array(items) => forall i :: 0 <= i < |items| ==> WellFormed(items[i])
    case Object(members) => UniqueKeys(members) && forall i :: 0 <= i < |members| ==> WellFormed(members[i].value)
    case _ => true
  }
}
