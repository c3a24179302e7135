/** Canonical JSON of the PCC idempotency key (`src/pcc_import.rs`, `canonicalize`). */
module PccCanonical {
  import opened Json

  /** Key order: byte order of UTF-8 is code point order. */
  predicate Less(a: string, b: string) {
    b != [] && (a == [] || a[0] < b[0] || (a[0] == b[0] && Less(a[1..], b[1..])))
  }

  function InsertMember(m: Member, s: seq<Member>): seq<Member> {
    if s == [] || Less(m.key, s[0].key) then [m] + s else [s[0]] + InsertMember(m, s[1..])
  }

  function SortMembers(s: seq<Member>): seq<Member> {
    if s == [] then [] else InsertMember(s[0], SortMembers(s[1..]))
  }

  function Canonicalize(v: Value): Value {
    match v
    case Object(members) =>
      Object(SortMembers(seq(|members|, i requires 0 <= i < |members| =>
          Member(members[i].key, Canonicalize(members[i].value)))))
    case Array(items) =>
      Array(seq(|items|, i requires 0 <= i < |items| => Canonicalize(items[i])))
    case _ => v
  }

  /** Equal up to reordering object members, at every level. */
  ghost predicate SameUpToOrder(a: Value, b: Value) {
    match (a, b)
    case (Object(m), Object(n)) =>
      && (forall i :: 0 <= i < |m| ==> HasKey(n, m[i].key))
      && (forall j :: 0 <= j < |n| ==> HasKey(m, n[j].key))
      && (forall i, j :: 0 <= i < |m| && 0 <= j < |n| && m[i].key == n[j].key ==> SameUpToOrder(m[i].value, n[j].value))
    case (Array(x), Array(y)) => |x| == |y| && forall i :: 0 <= i < |x| ==> SameUpToOrder(x[i], y[i])
    case _ => a == b
  }

  ghost predicate HasKey(members: seq<Member>, key: string) {
    exists i :: 0 <= i < |members| && members[i].key == key
  }

  // ---- the key order is a strict total order

  lemma {:induction false} LessAsymmetric(a: string, b: string)
    requires Less(a, b)
    ensures !Less(b, a) && a != b
  {
    if a != [] && a[0] == b[0] {
      LessAsymmetric(a[1..], b[1..]);
    }
  }

  lemma {:induction false} LessTransitive(a: string, b: string, c: string)
    requires Less(a, b) && Less(b, c)
    ensures Less(a, c)
  {
    if a != [] && a[0] == b[0] && b[0] == c[0] {
      LessTransitive(a[1..], b[1..], c[1..]);
    }
  }

  lemma {:induction false} LessTotal(a: string, b: string)
    ensures Less(a, b) || a == b || Less(b, a)
  {
    if a != [] && b != [] && a[0] == b[0] {
      LessTotal(a[1..], b[1..]);
      assert a == [a[0]] + a[1..] && b == [b[0]] + b[1..];
    }
  }

  // ---- sorting

  ghost predicate Sorted(s: seq<Member>) {
    forall i, j :: 0 <= i < j < |s| ==> Less(s[i].key, s[j].key)
  }

  lemma {:induction false} InsertMemberSorts(m: Member, s: seq<Member>)
    requires Sorted(s) && forall e :: e in s ==> e.key != m.key
    ensures Sorted(InsertMember(m, s)) && |InsertMember(m, s)| == |s| + 1
    ensures forall e :: e in InsertMember(m, s) <==> e == m || e in s
  {
    if s != [] {
      assert s == [s[0]] + s[1..];
      LessTotal(m.key, s[0].key);
      if Less(m.key, s[0].key) {
        forall j | 1 <= j < |s| ensures Less(m.key, s[j].key) {
          LessTransitive(m.key, s[0].key, s[j].key);
        }
      } else {
        InsertMemberSorts(m, s[1..]);
        var rest := InsertMember(m, s[1..]);
        forall j | 0 <= j < |rest| ensures Less(s[0].key, rest[j].key) {
          assert rest[j] in rest;
        }
      }
    }
  }

  lemma {:induction false} SortMembersSorts(s: seq<Member>)
    requires UniqueKeys(s)
    ensures Sorted(SortMembers(s)) && |SortMembers(s)| == |s|
    ensures forall e :: e in SortMembers(s) <==> e in s
  {
    if s != [] {
      assert s == [s[0]] + s[1..];
      assert UniqueKeys(s[1..]);
      SortMembersSorts(s[1..]);
      forall e | e in s[1..] ensures e.key != s[0].key {
        var k :| 0 <= k < |s[1..]| && s[1..][k] == e;
        assert s[k + 1] == e;
      }
      InsertMemberSorts(s[0], SortMembers(s[1..]));
    }
  }

  lemma LeastFirst(s: seq<Member>, e: Member)
    requires Sorted(s) && e in s
    ensures e == s[0] || Less(s[0].key, e.key)
  {
    var i :| 0 <= i < |s| && s[i] == e;
  }

  lemma NotBothLess(a: string, b: string)
    ensures !(Less(a, b) && Less(b, a))
  {
    if Less(a, b) {
      LessAsymmetric(a, b);
    }
  }

  lemma {:induction false} SortedUnique(a: seq<Member>, b: seq<Member>)
    requires Sorted(a) && Sorted(b) && |a| == |b| && forall e :: e in a <==> e in b
    ensures a == b
  {
    if a != [] {
      LeastFirst(a, b[0]);
      LeastFirst(b, a[0]);
      NotBothLess(a[0].key, b[0].key);
      assert a == [a[0]] + a[1..] && b == [b[0]] + b[1..];
      forall e ensures e in a[1..] <==> e in b[1..] {
        if e in a[1..] {
          var i :| 1 <= i < |a| && a[i] == e;
          LessAsymmetric(a[0].key, e.key);
          assert e in b;
        }
        if e in b[1..] {
          var i :| 1 <= i < |b| && b[i] == e;
          LessAsymmetric(b[0].key, e.key);
          assert e in a;
        }
      }
      SortedUnique(a[1..], b[1..]);
    }
  }

  // ---- canonical forms

  /** The members of an object with canonical values, before sorting. */
  function CanonicalMembers(members: seq<Member>): (r: seq<Member>)
    ensures |r| == |members|
    ensures forall i :: 0 <= i < |members| ==> r[i] == Member(members[i].key, Canonicalize(members[i].value))
  {
    seq(|members|, i requires 0 <= i < |members| => Member(members[i].key, Canonicalize(members[i].value)))
  }

  lemma CanonicalObject(members: seq<Member>)
    requires UniqueKeys(members)
    ensures Canonicalize(Object(members)) == Object(SortMembers(CanonicalMembers(members)))
    ensures Sorted(SortMembers(CanonicalMembers(members))) && |SortMembers(CanonicalMembers(members))| == |members|
    ensures forall e :: e in SortMembers(CanonicalMembers(members)) <==> e in CanonicalMembers(members)
  {
    assert CanonicalMembers(members)
        == seq(|members|, i requires 0 <= i < |members| => Member(members[i].key, Canonicalize(members[i].value)));
    SortMembersSorts(CanonicalMembers(members));
  }

  lemma {:induction false} SameKeysSameCount(m: seq<Member>, n: seq<Member>)
    requires UniqueKeys(m) && UniqueKeys(n) && forall i :: 0 <= i < |m| ==> HasKey(n, m[i].key)
    ensures |m| <= |n|
  {
    if m != [] {
      assert HasKey(n, m[0].key);
      var k :| 0 <= k < |n| && n[k].key == m[0].key;
      var rest := n[..k] + n[k + 1..];
      forall i | 0 <= i < |m[1..]| ensures HasKey(rest, m[1..][i].key) {
        assert m[1..][i] == m[i + 1] && HasKey(n, m[i + 1].key);
        var j :| 0 <= j < |n| && n[j].key == m[i + 1].key;
        assert j != k;
        assert rest[if j < k then j else j - 1] == n[j];
      }
      SameKeysSameCount(m[1..], rest);
    }
  }

  lemma MembersCarryOver(m: seq<Member>, n: seq<Member>)
    requires forall i :: 0 <= i < |m| ==> HasKey(n, m[i].key)
    requires forall i, j :: 0 <= i < |m| && 0 <= j < |n| && m[i].key == n[j].key ==>
               Canonicalize(m[i].value) == Canonicalize(n[j].value)
    ensures forall e :: e in CanonicalMembers(m) ==> e in CanonicalMembers(n)
  {
    forall e | e in CanonicalMembers(m) ensures e in CanonicalMembers(n) {
      var i :| 0 <= i < |m| && CanonicalMembers(m)[i] == e;
      assert HasKey(n, m[i].key);
      var j :| 0 <= j < |n| && n[j].key == m[i].key;
      assert CanonicalMembers(n)[j] == e;
    }
  }

  /** Values that differ only in member order have one canonical form. */
  lemma {:induction false} OrderForgotten(a: Value, b: Value)
    requires WellFormed(a) && WellFormed(b) && SameUpToOrder(a, b)
    ensures Canonicalize(a) == Canonicalize(b)
  {
    match (a, b) {
      case (Array(x), Array(y)) =>
        forall i | 0 <= i < |x| ensures Canonicalize(x[i]) == Canonicalize(y[i]) {
          OrderForgotten(x[i], y[i]);
        }
      case (Object(m), Object(n)) =>
        CanonicalObject(m);
        CanonicalObject(n);
        SameKeysSameCount(m, n);
        SameKeysSameCount(n, m);
        forall i, j | 0 <= i < |m| && 0 <= j < |n| && m[i].key == n[j].key
          ensures Canonicalize(m[i].value) == Canonicalize(n[j].value)
        {
          OrderForgotten(m[i].value, n[j].value);
        }
        MembersCarryOver(m, n);
        MembersCarryOver(n, m);
        SortedUnique(SortMembers(CanonicalMembers(m)), SortMembers(CanonicalMembers(n)));
      case _ =>
    }
  }

  /** Values with one canonical form differ only in member order. */
  lemma {:induction false} CanonicalSeparates(a: Value, b: Value)
    requires WellFormed(a) && WellFormed(b) && Canonicalize(a) == Canonicalize(b)
    ensures SameUpToOrder(a, b)
  {
    match (a, b) {
      case (Array(x), Array(y)) =>
        assert |x| == |Canonicalize(a).items| == |Canonicalize(b).items| == |y|;
        forall i | 0 <= i < |x| ensures SameUpToOrder(x[i], y[i]) {
          assert Canonicalize(a).items[i] == Canonicalize(b).items[i];
          CanonicalSeparates(x[i], y[i]);
        }
      case (Object(m), Object(n)) =>
        CanonicalObject(m);
        CanonicalObject(n);
        forall i | 0 <= i < |m|
          ensures HasKey(n, m[i].key)
          ensures forall j :: 0 <= j < |n| && m[i].key == n[j].key ==> SameUpToOrder(m[i].value, n[j].value)
        {
          MemberMatches(m, n, i);
          forall j | 0 <= j < |n| && m[i].key == n[j].key ensures SameUpToOrder(m[i].value, n[j].value) {
            CanonicalSeparates(m[i].value, n[j].value);
          }
        }
        forall j | 0 <= j < |n| ensures HasKey(m, n[j].key) {
          MemberMatches(n, m, j);
        }
      case _ =>
    }
  }

  lemma MemberMatches(m: seq<Member>, n: seq<Member>, i: nat)
    requires UniqueKeys(m) && UniqueKeys(n) && i < |m|
    requires forall e :: e in CanonicalMembers(m) ==> e in CanonicalMembers(n)
    ensures HasKey(n, m[i].key)
    ensures forall j :: 0 <= j < |n| && m[i].key == n[j].key ==> Canonicalize(m[i].value) == Canonicalize(n[j].value)
  {
    assert CanonicalMembers(m)[i] in CanonicalMembers(n);
    var k :| 0 <= k < |n| && CanonicalMembers(n)[k] == CanonicalMembers(m)[i];
    forall j | 0 <= j < |n| && m[i].key == n[j].key ensures j == k {
      assert n[k].key == m[i].key;
    }
  }

  /** The canonical form is a complete invariant of JSON values up to member order. */
  lemma CanonicalIsComplete(a: Value, b: Value)
    requires WellFormed(a) && WellFormed(b)
    ensures Canonicalize(a) == Canonicalize(b) <==> SameUpToOrder(a, b)
  {
    if Canonicalize(a) == Canonicalize(b) {
      CanonicalSeparates(a, b);
    }
    if SameUpToOrder(a, b) {
      OrderForgotten(a, b);
    }
  }

  lemma SortedIsReordering(m: seq<Member>, s: seq<Member>)
    requires UniqueKeys(m) && Sorted(s) && forall e :: e in s <==> e in CanonicalMembers(m)
    requires forall k :: 0 <= k < |m| ==>
               WellFormed(Canonicalize(m[k].value)) && SameUpToOrder(Canonicalize(m[k].value), m[k].value)
    ensures WellFormed(Object(s)) && SameUpToOrder(Object(s), Object(m))
  {
    forall i, j | 0 <= i < j < |s| ensures s[i].key != s[j].key {
      LessAsymmetric(s[i].key, s[j].key);
    }
    forall i | 0 <= i < |s|
      ensures WellFormed(s[i].value) && HasKey(m, s[i].key)
      ensures forall j :: 0 <= j < |m| && s[i].key == m[j].key ==> SameUpToOrder(s[i].value, m[j].value)
    {
      assert s[i] in s;
      var k :| 0 <= k < |m| && CanonicalMembers(m)[k] == s[i];
    }
    forall j | 0 <= j < |m| ensures HasKey(s, m[j].key) {
      assert CanonicalMembers(m)[j] in s;
    }
  }

  lemma {:induction false} CanonicalIsReordering(a: Value)
    requires WellFormed(a)
    ensures WellFormed(Canonicalize(a)) && SameUpToOrder(Canonicalize(a), a)
  {
    match a {
      case Array(x) =>
        forall i | 0 <= i < |x| ensures WellFormed(Canonicalize(x[i])) && SameUpToOrder(Canonicalize(x[i]), x[i]) {
          CanonicalIsReordering(x[i]);
        }
      case Object(m) =>
        CanonicalObject(m);
        forall k | 0 <= k < |m|
          ensures WellFormed(Canonicalize(m[k].value)) && SameUpToOrder(Canonicalize(m[k].value), m[k].value)
        {
          CanonicalIsReordering(m[k].value);
        }
        SortedIsReordering(m, SortMembers(CanonicalMembers(m)));
      case _ =>
    }
  }

  lemma CanonicalizeIdempotent(a: Value)
    requires WellFormed(a)
    ensures Canonicalize(Canonicalize(a)) == Canonicalize(a)
  {
    CanonicalIsReordering(a);
    OrderForgotten(Canonicalize(a), a);
  }

  // ---- the order of the members

  /** a and b agree on k characters, and there a ends or has the smaller character. */
  predicate FirstDiffers(a: string, b: string, k: nat) {
    k <= |a| && k < |b| && a[..k] == b[..k] && (k < |a| ==> a[k] < b[k])
  }

  ghost predicate KeyBefore(a: string, b: string) {
    exists k: nat :: FirstDiffers(a, b, k)
  }

  lemma {:induction false} LessDiffers(a: string, b: string) returns (k: nat)
    requires Less(a, b)
    ensures FirstDiffers(a, b, k)
  {
    if a == [] || a[0] < b[0] {
      k := 0;
    } else {
      k := LessDiffers(a[1..], b[1..]);
      k := k + 1;
      assert a[..k] == [a[0]] + a[1..][..k - 1] && b[..k] == [b[0]] + b[1..][..k - 1];
    }
  }

  /** Every object lists its members by key, in the order of their characters. */
  ghost predicate InKeyOrder(v: Value) {
    match v
    case Array(items) => forall i :: 0 <= i < |items| ==> InKeyOrder(items[i])
    case Object(members) =>
      && (forall i, j :: 0 <= i < j < |members| ==> KeyBefore(members[i].key, members[j].key))
      && forall i :: 0 <= i < |members| ==> InKeyOrder(members[i].value)
    case _ => true
  }

  lemma SortedIsInOrder(m: seq<Member>, s: seq<Member>)
    requires Sorted(s) && forall e :: e in s ==> e in CanonicalMembers(m)
    requires forall k :: 0 <= k < |m| ==> InKeyOrder(Canonicalize(m[k].value))
    ensures InKeyOrder(Object(s))
  {
    forall i, j | 0 <= i < j < |s| ensures KeyBefore(s[i].key, s[j].key) {
      var k := LessDiffers(s[i].key, s[j].key);
    }
    forall i | 0 <= i < |s| ensures InKeyOrder(s[i].value) {
      assert s[i] in s;
      var k :| 0 <= k < |m| && CanonicalMembers(m)[k] == s[i];
    }
  }

  /** The canonical form lists members in key order at every level. */
  lemma {:induction false} CanonicalInKeyOrder(a: Value)
    requires WellFormed(a)
    ensures InKeyOrder(Canonicalize(a))
  {
    match a {
      case Array(x) =>
        forall i | 0 <= i < |x| ensures InKeyOrder(Canonicalize(x[i])) {
          CanonicalInKeyOrder(x[i]);
        }
      case Object(m) =>
        CanonicalObject(m);
        forall k | 0 <= k < |m| ensures InKeyOrder(Canonicalize(m[k].value)) {
          CanonicalInKeyOrder(m[k].value);
        }
        SortedIsInOrder(m, SortMembers(CanonicalMembers(m)));
      case _ =>
    }
  }
}
