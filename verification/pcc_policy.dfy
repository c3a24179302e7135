/** The threaded policy budget of the PCC consumer (`src/pcc_import.rs`, `policy_visit`). */
module PccPolicy {
  import opened Json

  const MAX_POLICY_VALUES := 4_096
  const MAX_POLICY_DEPTH := 32

  /** Values in a tree, containers included. */
  function Size(v: Value): nat {
    match v
    case Array(items) => 1 + SizeItems(v, items, |items|)
    case Object(members) => 1 + SizeMembers(v, members, |members|)
    case _ => 1
  }

  function SizeItems(v: Value, items: seq<Value>, n: nat): nat
    requires v == Array(items) && n <= |items|
    decreases v, n
  {
    if n == 0 then 0 else SizeItems(v, items, n - 1) + Size(items[n - 1])
  }

  function SizeMembers(v: Value, members: seq<Member>, n: nat): nat
    requires v == Object(members) && n <= |members|
    decreases v, n
  {
    if n == 0 then 0 else SizeMembers(v, members, n - 1) + Size(members[n - 1].value)
  }

  /** No value of the tree lies deeper than `room` below its root. */
  predicate Fits(v: Value, room: int) {
    room >= 0 &&
    match v
    case Array(items) => forall i :: 0 <= i < |items| ==> Fits(items[i], room - 1)
    case Object(members) => forall i :: 0 <= i < |members| ==> Fits(members[i].value, room - 1)
    case _ => true
  }

  predicate Accepted(accepts: string -> bool, v: Value) {
    match v
    case String(s) => accepts(s)
    case Array(items) => forall i :: 0 <= i < |items| ==> Accepted(accepts, items[i])
    case Object(members) =>
      forall i :: 0 <= i < |members| ==> accepts(members[i].key) && Accepted(accepts, members[i].value)
    case _ => true
  }

  /** The three global conditions on a tree visited at `depth` once `count` values are spent. */
  predicate Passes(accepts: string -> bool, v: Value, depth: nat, count: nat) {
    Accepted(accepts, v) && Fits(v, MAX_POLICY_DEPTH - depth) && count + Size(v) <= MAX_POLICY_VALUES
  }

  /** The walk short-circuits and spends one shared counter, yet decides the global conditions. */
  method PolicyVisit(accepts: string -> bool, v: Value, depth: nat, count: nat) returns (ok: bool, spent: nat)
    ensures ok <==> Passes(accepts, v, depth, count)
    ensures ok ==> spent == count + Size(v)
    decreases v, 1
  {
    spent := count;
    if depth > MAX_POLICY_DEPTH || spent >= MAX_POLICY_VALUES {
      return false, spent;
    }
    spent := spent + 1;
    match v {
      case String(s) =>
        ok := accepts(s);
      case Array(items) =>
        ok, spent := VisitItems(accepts, v, items, depth, spent);
      case Object(members) =>
        ok, spent := VisitMembers(accepts, v, members, depth, spent);
      case _ =>
        ok := true;
    }
  }

  method VisitItems(accepts: string -> bool, v: Value, items: seq<Value>, depth: nat, count: nat)
    returns (ok: bool, spent: nat)
    requires v == Array(items) && depth <= MAX_POLICY_DEPTH && 0 < count <= MAX_POLICY_VALUES
    ensures ok <==> Passes(accepts, v, depth, count - 1)
    ensures ok ==> spent == count - 1 + Size(v)
    decreases v, 0
  {
    ok, spent := true, count;
    var i := 0;
    while ok && i < |items|
      invariant 0 <= i <= |items|
      invariant ok ==> spent == count + SizeItems(v, items, i) && spent <= MAX_POLICY_VALUES
      invariant ok ==> forall k :: 0 <= k < i ==>
                Accepted(accepts, items[k]) && Fits(items[k], MAX_POLICY_DEPTH - depth - 1)
      invariant !ok ==> !Passes(accepts, v, depth, count - 1)
    {
      SizeItemsGrow(v, items, i + 1, |items|);
      ok, spent := PolicyVisit(accepts, items[i], depth + 1, spent);
      i := i + 1;
    }
  }

  method VisitMembers(accepts: string -> bool, v: Value, members: seq<Member>, depth: nat, count: nat)
    returns (ok: bool, spent: nat)
    requires v == Object(members) && depth <= MAX_POLICY_DEPTH && 0 < count <= MAX_POLICY_VALUES
    ensures ok <==> Passes(accepts, v, depth, count - 1)
    ensures ok ==> spent == count - 1 + Size(v)
    decreases v, 0
  {
    ok, spent := true, count;
    var i := 0;
    while ok && i < |members|
      invariant 0 <= i <= |members|
      invariant ok ==> spent == count + SizeMembers(v, members, i) && spent <= MAX_POLICY_VALUES
      invariant ok ==> forall k :: 0 <= k < i ==>
        accepts(members[k].key) && Accepted(accepts, members[k].value)
        && Fits(members[k].value, MAX_POLICY_DEPTH - depth - 1)
      invariant !ok ==> !Passes(accepts, v, depth, count - 1)
    {
      SizeMembersGrow(v, members, i + 1, |members|);
      ok := accepts(members[i].key);
      if ok {
        ok, spent := PolicyVisit(accepts, members[i].value, depth + 1, spent);
      }
      i := i + 1;
    }
  }

  lemma SizeItemsGrow(v: Value, items: seq<Value>, i: nat, n: nat)
    requires v == Array(items) && i <= n <= |items|
    ensures SizeItems(v, items, i) <= SizeItems(v, items, n)
  {
  }

  lemma SizeMembersGrow(v: Value, members: seq<Member>, i: nat, n: nat)
    requires v == Object(members) && i <= n <= |members|
    ensures SizeMembers(v, members, i) <= SizeMembers(v, members, n)
  {
  }

  /** Every top-level member is a root at depth 0; the object itself is not counted. */
  predicate PolicySafe(accepts: string -> bool, members: seq<Member>) {
    && Accepted(accepts, Object(members))
    && (forall i :: 0 <= i < |members| ==> Fits(members[i].value, MAX_POLICY_DEPTH))
    && Size(Object(members)) - 1 <= MAX_POLICY_VALUES
  }

  method PolicySafeObject(accepts: string -> bool, members: seq<Member>) returns (ok: bool)
    ensures ok <==> PolicySafe(accepts, members)
  {
    var v := Object(members);
    var count := 0;
    ok := true;
    var i := 0;
    while ok && i < |members|
      invariant 0 <= i <= |members|
      invariant ok ==> count == SizeMembers(v, members, i) && count <= MAX_POLICY_VALUES
      invariant ok ==> forall k :: 0 <= k < i ==>
        accepts(members[k].key) && Accepted(accepts, members[k].value) && Fits(members[k].value, MAX_POLICY_DEPTH)
      invariant !ok ==> !PolicySafe(accepts, members)
    {
      SizeMembersGrow(v, members, i + 1, |members|);
      ok := accepts(members[i].key);
      if ok {
        ok, count := PolicyVisit(accepts, members[i].value, 0, count);
      }
      i := i + 1;
    }
  }

  // ---- the walk as a list of visits

  datatype Visit = Visit(value: Value, depth: nat)

  /** All values of a tree in the order of the walk, each with its depth. */
  function Visits(v: Value, depth: nat): seq<Visit>
    decreases v
  {
    match v
    case Array(items) => [Visit(v, depth)] + ItemVisits(v, items, |items|, depth + 1)
    case Object(members) => [Visit(v, depth)] + MemberVisits(v, members, |members|, depth + 1)
    case _ => [Visit(v, depth)]
  }

  function ItemVisits(v: Value, items: seq<Value>, n: nat, depth: nat): seq<Visit>
    requires v == Array(items) && n <= |items|
    decreases v, n
  {
    if n == 0 then [] else ItemVisits(v, items, n - 1, depth) + Visits(items[n - 1], depth)
  }

  function MemberVisits(v: Value, members: seq<Member>, n: nat, depth: nat): seq<Visit>
    requires v == Object(members) && n <= |members|
    decreases v, n
  {
    if n == 0 then [] else MemberVisits(v, members, n - 1, depth) + Visits(members[n - 1].value, depth)
  }

  predicate KeysAccepted(accepts: string -> bool, members: seq<Member>, n: nat)
    requires n <= |members|
  {
    forall i :: 0 <= i < n ==> accepts(members[i].key)
  }

  /** A value that may be visited at this depth: what it says itself is accepted. */
  predicate Fine(accepts: string -> bool, x: Visit) {
    x.depth <= 32 &&
    match x.value
    case String(s) => accepts(s)
    case Object(members) => KeysAccepted(accepts, members, |members|)
    case _ => true
  }

  predicate AllFine(accepts: string -> bool, visits: seq<Visit>) {
    forall i :: 0 <= i < |visits| ==> Fine(accepts, visits[i])
  }

  lemma AllFineJoin(accepts: string -> bool, a: seq<Visit>, b: seq<Visit>)
    ensures AllFine(accepts, a + b) <==> AllFine(accepts, a) && AllFine(accepts, b)
  {
    var all := a + b;
    assert forall i :: 0 <= i < |a| ==> all[i] == a[i];
    assert forall i :: 0 <= i < |b| ==> all[|a| + i] == b[i];
  }

  lemma AllFineCons(accepts: string -> bool, x: Visit, rest: seq<Visit>)
    ensures AllFine(accepts, [x] + rest) <==> Fine(accepts, x) && AllFine(accepts, rest)
  {
    AllFineJoin(accepts, [x], rest);
    assert [x][0] == x;
  }

  /** The conditions on the first n items of an array, and on those of an object. */
  predicate ItemsPass(accepts: string -> bool, items: seq<Value>, n: nat, room: int)
    requires n <= |items|
  {
    forall i :: 0 <= i < n ==> Accepted(accepts, items[i]) && Fits(items[i], room)
  }

  predicate MembersPass(accepts: string -> bool, members: seq<Member>, n: nat, room: int)
    requires n <= |members|
  {
    forall i :: 0 <= i < n ==> Accepted(accepts, members[i].value) && Fits(members[i].value, room)
  }

  lemma ChildrenDecide(accepts: string -> bool, v: Value, depth: nat)
    ensures var room := MAX_POLICY_DEPTH - depth;
            Accepted(accepts, v) && Fits(v, room) <==>
              && Fine(accepts, Visit(v, depth))
              && match v
                 case Array(items) => ItemsPass(accepts, items, |items|, room - 1)
                 case Object(members) => MembersPass(accepts, members, |members|, room - 1)
                 case _ => true
  {
  }

  lemma {:induction false} VisitsDecide(accepts: string -> bool, v: Value, depth: nat)
    ensures |Visits(v, depth)| == Size(v)
    ensures AllFine(accepts, Visits(v, depth)) <==> Accepted(accepts, v) && Fits(v, MAX_POLICY_DEPTH - depth)
    decreases v, 1
  {
    ChildrenDecide(accepts, v, depth);
    match v {
      case Array(items) =>
        ItemVisitsDecide(accepts, v, items, |items|, depth + 1);
        AllFineCons(accepts, Visit(v, depth), ItemVisits(v, items, |items|, depth + 1));
      case Object(members) =>
        MemberVisitsDecide(accepts, v, members, |members|, depth + 1);
        AllFineCons(accepts, Visit(v, depth), MemberVisits(v, members, |members|, depth + 1));
      case _ =>
        AllFineCons(accepts, Visit(v, depth), []);
        assert [Visit(v, depth)] + [] == Visits(v, depth);
    }
  }

  lemma {:induction false} ItemVisitsDecide(accepts: string -> bool, v: Value, items: seq<Value>, n: nat, depth: nat)
    requires v == Array(items) && n <= |items|
    ensures |ItemVisits(v, items, n, depth)| == SizeItems(v, items, n)
    ensures AllFine(accepts, ItemVisits(v, items, n, depth)) <==>
              ItemsPass(accepts, items, n, MAX_POLICY_DEPTH - depth)
    decreases v, 0, n
  {
    if n > 0 {
      ItemVisitsDecide(accepts, v, items, n - 1, depth);
      VisitsDecide(accepts, items[n - 1], depth);
      AllFineJoin(accepts, ItemVisits(v, items, n - 1, depth), Visits(items[n - 1], depth));
    }
  }

  lemma {:induction false} MemberVisitsDecide(accepts: string -> bool, v: Value, members: seq<Member>, n: nat,
        depth: nat)
    requires v == Object(members) && n <= |members|
    ensures |MemberVisits(v, members, n, depth)| == SizeMembers(v, members, n)
    ensures AllFine(accepts, MemberVisits(v, members, n, depth)) <==>
              MembersPass(accepts, members, n, MAX_POLICY_DEPTH - depth)
    decreases v, 0, n
  {
    if n > 0 {
      MemberVisitsDecide(accepts, v, members, n - 1, depth);
      VisitsDecide(accepts, members[n - 1].value, depth);
      AllFineJoin(accepts, MemberVisits(v, members, n - 1, depth), Visits(members[n - 1].value, depth));
    }
  }

  /** An object is safe exactly when its keys are accepted and a full walk of its members, from depth 0, meets at most
      4096 values, none deeper than 32, each saying only what is accepted. */
  lemma PolicySafeIff(accepts: string -> bool, members: seq<Member>)
    ensures var visits := MemberVisits(Object(members), members, |members|, 0);
            PolicySafe(accepts, members) <==>
              KeysAccepted(accepts, members, |members|) && AllFine(accepts, visits) && |visits| <= 4096
  {
    MemberVisitsDecide(accepts, Object(members), members, |members|, 0);
  }
}
