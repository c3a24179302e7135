/** How one scheduled run selects its evidence window (`src/dream.rs`, `run` and
    `build_evidence_window`). */
module DreamWindow {
  import opened Basics
  import opened DreamRows
  import opened DreamCursor

  /** The store as each transaction of one run sees it, in the order the run opens them. */
  datatype Snapshots = Snapshots(
    pin: Store, records: Store, imported: Store, turns: Store, conclusions: Store, checkpoints: Store,
    sources: Store, lookup: Store, after: Store)

  /** Cursor normalisation at the top of `run`. */
  function Normalised(c: SavedCursor): SavedCursor {
    var c1 := if HasPosition(c.positions) && c.upperBound.None? && !c.upperUnbounded
              then c.(positions := NO_POSITIONS) else c;
    if HasLegacyPosition(c1.positions) then
      c1.(positions := NO_POSITIONS, lowerExclusive := false,
          lowerRowids := if c1.lowerBound.Some? then Some(ZERO_FRONTIER) else None)
    else c1
  }

  function QueryFor(c: SavedCursor, s: Stream, end: Option<Stamp>): Query {
    Query(c.lowerBound, c.lowerExclusive, c.lowerStrict, c.postFrontier,
          if c.lowerRowids.Some? then Some(c.lowerRowids.value.rowids.At(s)) else None,
          end,
          if c.upperRowids.Some? then Some(c.upperRowids.value.rowids.At(s)) else None,
          c.positions.At(s),
          if s == Records && c.mutationUpper.Some?
          then Some((if c.mutationLower.Some? then c.mutationLower.value else 0, c.mutationUpper.value)) else None)
  }

  function Page(store: Store, c: SavedCursor, s: Stream, end: Option<Stamp>, limit: nat): seq<Row> {
    SelectRows(store.At(s).rows, QueryFor(c, s, end), limit)
  }

  /** The first `limit` imported turns of a page. */
  function TakeImported(turns: seq<Row>, limit: nat): seq<Row> {
    if turns == [] || limit == 0 then []
    else if turns[0].imported then [turns[0]] + TakeImported(turns[1..], limit - 1)
    else TakeImported(turns[1..], limit)
  }

  function AsActive(rows: seq<Row>, fromTurn: bool): (active: seq<Active>)
    ensures |active| == |rows|
    ensures forall i :: 0 <= i < |rows| ==> active[i] == Active(rows[i], fromTurn)
  {
    seq(|rows|, i requires 0 <= i < |rows| => Active(rows[i], fromTurn))
  }

  /** `records.sort_by`: timestamp descending, then identifier. */
  predicate SortsBefore(a: Active, b: Active) {
    a.row.stamp.text > b.row.stamp.text || (a.row.stamp.text == b.row.stamp.text && a.row.id <= b.row.id)
  }

  function InsertActive(a: Active, s: seq<Active>): seq<Active> {
    if s == [] || SortsBefore(a, s[0]) then [a] + s else [s[0]] + InsertActive(a, s[1..])
  }

  function SortActive(s: seq<Active>): seq<Active> {
    if s == [] then [] else InsertActive(s[0], SortActive(s[1..]))
  }

  function WindowEnd(c: SavedCursor, now: Stamp, sourceEnd: Option<Stamp>): Stamp {
    if c.upperBound.Some? then c.upperBound.value else if sourceEnd.Some? then sourceEnd.value else now
  }

  function QueryEnd(c: SavedCursor, now: Stamp, sourceEnd: Option<Stamp>): Option<Stamp> {
    if c.upperUnbounded then None else Some(WindowEnd(c, now, sourceEnd))
  }

  function Minus(a: nat, b: nat): nat {
    if a >= b then a - b else 0
  }

  /** The imported turns a run turns into candidate records, in the budget the memory records leave. */
  function DerivedTurns(snaps: Snapshots, c: SavedCursor, end: Option<Stamp>, max: nat): seq<Row> {
    TakeImported(Page(snaps.imported, c, Turns, end, max), Minus(max, |Page(snaps.records, c, Records, end, max)|))
  }

  /** The active stream: memory records and derived records, sorted together. */
  function ActiveOf(snaps: Snapshots, c: SavedCursor, end: Option<Stamp>, max: nat): seq<Active> {
    SortActive(AsActive(Page(snaps.records, c, Records, end, max), false)
               + AsActive(DerivedTurns(snaps, c, end, max), true))
  }

  function WindowOf(snaps: Snapshots, cursor: SavedCursor, now: Stamp, sourceEnd: Option<Stamp>, max: nat)
    : Window
  {
    var c := Normalised(cursor);
    var end := QueryEnd(c, now, sourceEnd);
    var active := ActiveOf(snaps, c, end, max);
    var r0 := Minus(max, |active|);
    var turns := Page(snaps.turns, c, Turns, end, r0);
    var r1 := Minus(r0, |turns|);
    var conclusions := Page(snaps.conclusions, c, Conclusions, end, r1);
    var r2 := Minus(r1, |conclusions|);
    var checkpoints := Page(snaps.checkpoints, c, Checkpoints, end, r2);
    var r3 := Minus(r2, |checkpoints|);
    Window(WindowEnd(c, now, sourceEnd), turns, conclusions, checkpoints,
           Page(snaps.sources, c, Sources, end, r3), active)
  }

  method ImportedCandidates(turns: seq<Row>, limit: nat) returns (records: seq<Row>)
    ensures records == TakeImported(turns, limit)
  {
    records := [];
    var i := 0;
    while i < |turns| && |records| < limit
      invariant 0 <= i <= |turns| && |records| <= limit
      invariant records + TakeImported(turns[i..], limit - |records|) == TakeImported(turns, limit)
    {
      assert turns[i..][1..] == turns[i + 1..];
      if turns[i].imported {
        records := records + [turns[i]];
      }
      i := i + 1;
    }
  }

  /** The pages of the five streams under one shrinking budget. */
  method BuildEvidenceWindow(snaps: Snapshots, c: SavedCursor, windowEnd: Stamp, end: Option<Stamp>,
        active: seq<Active>, max: nat)
    returns (w: Window)
    ensures var r0 := Minus(max, |active|);
            var turns := Page(snaps.turns, c, Turns, end, r0);
            var r1 := Minus(r0, |turns|);
            var conclusions := Page(snaps.conclusions, c, Conclusions, end, r1);
            var r2 := Minus(r1, |conclusions|);
            var checkpoints := Page(snaps.checkpoints, c, Checkpoints, end, r2);
            w == Window(windowEnd, turns, conclusions, checkpoints,
                        Page(snaps.sources, c, Sources, end, Minus(r2, |checkpoints|)), active)
  {
    var remaining := Minus(max, |active|);
    var turns: seq<Row> := [];
    if remaining != 0 {
      turns := Page(snaps.turns, c, Turns, end, remaining);
      remaining := Minus(remaining, |turns|);
    }
    var conclusions: seq<Row> := [];
    if remaining != 0 {
      conclusions := Page(snaps.conclusions, c, Conclusions, end, remaining);
      remaining := Minus(remaining, |conclusions|);
    }
    var checkpoints: seq<Row> := [];
    if remaining != 0 {
      checkpoints := Page(snaps.checkpoints, c, Checkpoints, end, remaining);
      remaining := Minus(remaining, |checkpoints|);
    }
    var sources: seq<Row> := [];
    if remaining != 0 {
      sources := Page(snaps.sources, c, Sources, end, remaining);
    }
    w := Window(windowEnd, turns, conclusions, checkpoints, sources, active);
  }

  method Run(snaps: Snapshots, cursor: SavedCursor, now: Stamp, sourceEnd: Option<Stamp>, max: nat)
    returns (w: Window)
    ensures w == WindowOf(snaps, cursor, now, sourceEnd, max)
  {
    var c := Normalised(cursor);
    var windowEnd := WindowEnd(c, now, sourceEnd);
    var end := QueryEnd(c, now, sourceEnd);
    var records := Page(snaps.records, c, Records, end, max);
    var importedLimit := Minus(max, |records|);
    var derived: seq<Row> := [];
    if importedLimit > 0 {
      derived := ImportedCandidates(Page(snaps.imported, c, Turns, end, max), importedLimit);
    }
    var active := SortActive(AsActive(records, false) + AsActive(derived, true));
    w := BuildEvidenceWindow(snaps, c, windowEnd, end, active, max);
  }

  // ---- facts about windows

  lemma {:induction false} SortActiveKeeps(s: seq<Active>)
    ensures multiset(SortActive(s)) == multiset(s) && |SortActive(s)| == |s|
  {
    if s != [] {
      SortActiveKeeps(s[1..]);
      InsertActiveKeeps(s[0], SortActive(s[1..]));
      assert s == [s[0]] + s[1..];
    }
  }

  lemma {:induction false} InsertActiveKeeps(a: Active, s: seq<Active>)
    ensures multiset(InsertActive(a, s)) == multiset(s) + multiset{a} && |InsertActive(a, s)| == |s| + 1
  {
    if s != [] && !SortsBefore(a, s[0]) {
      InsertActiveKeeps(a, s[1..]);
      assert s == [s[0]] + s[1..];
    }
  }

  lemma {:induction false} TakeImportedBounded(turns: seq<Row>, limit: nat)
    ensures |TakeImported(turns, limit)| <= limit && |TakeImported(turns, limit)| <= |turns|
    ensures forall r :: r in TakeImported(turns, limit) ==> r in turns && r.imported
  {
    if turns != [] && limit > 0 {
      TakeImportedBounded(turns[1..], if turns[0].imported then limit - 1 else limit);
    }
  }

  lemma {:induction false} ActiveRowsMembers(active: seq<Active>, fromTurn: bool)
    ensures forall r :: r in ActiveRows(active, fromTurn) <==> Active(r, fromTurn) in active
  {
    if active != [] {
      assert active == [active[0]] + active[1..];
      ActiveRowsMembers(active[1..], fromTurn);
    }
  }

  lemma {:induction false} ActiveRowsCounts(active: seq<Active>)
    ensures |ActiveRows(active, true)| + |ActiveRows(active, false)| == |active|
  {
    if active != [] {
      ActiveRowsCounts(active[1..]);
    }
  }

  lemma {:induction false} InsertActiveRows(a: Active, s: seq<Active>, fromTurn: bool)
    ensures |ActiveRows(InsertActive(a, s), fromTurn)|
         == |ActiveRows(s, fromTurn)| + if a.fromTurn == fromTurn then 1 else 0
  {
    if s != [] && !SortsBefore(a, s[0]) {
      InsertActiveRows(a, s[1..], fromTurn);
    }
  }

  lemma {:induction false} SortActiveRows(s: seq<Active>, fromTurn: bool)
    ensures |ActiveRows(SortActive(s), fromTurn)| == |ActiveRows(s, fromTurn)|
  {
    if s != [] {
      SortActiveRows(s[1..], fromTurn);
      InsertActiveRows(s[0], SortActive(s[1..]), fromTurn);
    }
  }

  lemma {:induction false} DerivedRows(derived: seq<Row>, fromTurn: bool)
    ensures |ActiveRows(AsActive(derived, true), fromTurn)| == if fromTurn then |derived| else 0
  {
    if derived != [] {
      DerivedRows(derived[1..], fromTurn);
      assert AsActive(derived, true)[1..] == AsActive(derived[1..], true);
    }
  }

  lemma {:induction false} UnsortedRows(records: seq<Row>, derived: seq<Row>, fromTurn: bool)
    ensures |ActiveRows(AsActive(records, false) + AsActive(derived, true), fromTurn)|
         == if fromTurn then |derived| else |records|
  {
    if records == [] {
      DerivedRows(derived, fromTurn);
      assert AsActive(records, false) + AsActive(derived, true) == AsActive(derived, true);
    } else {
      var all := AsActive(records, false) + AsActive(derived, true);
      UnsortedRows(records[1..], derived, fromTurn);
      assert all[1..] == AsActive(records[1..], false) + AsActive(derived, true);
    }
  }

  lemma UnsortedMembers(records: seq<Row>, derived: seq<Row>, a: Active)
    ensures a in AsActive(records, false) + AsActive(derived, true)
       <==> if a.fromTurn then a.row in derived else a.row in records
  {
    var unsorted := AsActive(records, false) + AsActive(derived, true);
    if a.fromTurn && a.row in derived {
      var k :| 0 <= k < |derived| && derived[k] == a.row;
      assert unsorted[|records| + k] == a;
    }
    if !a.fromTurn && a.row in records {
      var k :| 0 <= k < |records| && records[k] == a.row;
      assert unsorted[k] == a;
    }
  }

  lemma SortedMembers(records: seq<Row>, derived: seq<Row>, fromTurn: bool)
    ensures var active := SortActive(AsActive(records, false) + AsActive(derived, true));
            SameMembers(ActiveRows(active, fromTurn), if fromTurn then derived else records)
  {
    var unsorted := AsActive(records, false) + AsActive(derived, true);
    var active := SortActive(unsorted);
    SortActiveKeeps(unsorted);
    ActiveRowsMembers(active, fromTurn);
    forall r ensures r in ActiveRows(active, fromTurn) <==> r in if fromTurn then derived else records {
      var a := Active(r, fromTurn);
      assert a in active <==> a in multiset(active);
      assert a in unsorted <==> a in multiset(unsorted);
      UnsortedMembers(records, derived, a);
    }
  }

  /** Sorted together, memory records and derived records are each what their queries yielded. */
  lemma ActiveSplits(snaps: Snapshots, c: SavedCursor, end: Option<Stamp>, max: nat, fromTurn: bool)
    ensures var rows := ActiveRows(ActiveOf(snaps, c, end, max), fromTurn);
            var source := if fromTurn then DerivedTurns(snaps, c, end, max)
                          else Page(snaps.records, c, Records, end, max);
            SameMembers(rows, source) && |rows| == |source|
  {
    var records, derived := Page(snaps.records, c, Records, end, max), DerivedTurns(snaps, c, end, max);
    SortedMembers(records, derived, fromTurn);
    SortActiveRows(AsActive(records, false) + AsActive(derived, true), fromTurn);
    UnsortedRows(records, derived, fromTurn);
  }

  /** A window never exceeds the record limit, and a short one left room for every stream. */
  lemma WindowWithinLimit(snaps: Snapshots, cursor: SavedCursor, now: Stamp, sourceEnd: Option<Stamp>, max: nat)
    ensures var w := WindowOf(snaps, cursor, now, sourceEnd, max);
            var c := Normalised(cursor);
            var end := QueryEnd(c, now, sourceEnd);
            && Count(w) <= max
            && (Count(w) < max ==>
                  && |Page(snaps.records, c, Records, end, max)| < max
                  && w.turns == Matching(snaps.turns.turns.rows, QueryFor(c, Turns, end))
                  && w.conclusions == Matching(snaps.conclusions.conclusions.rows, QueryFor(c, Conclusions, end))
                  && w.checkpoints == Matching(snaps.checkpoints.checkpoints.rows, QueryFor(c, Checkpoints, end))
                  && w.sources == Matching(snaps.sources.sources.rows, QueryFor(c, Sources, end)))
  {
    var c := Normalised(cursor);
    var end := QueryEnd(c, now, sourceEnd);
    var records := Page(snaps.records, c, Records, end, max);
    var derived := TakeImported(Page(snaps.imported, c, Turns, end, max), Minus(max, |records|));
    TakeImportedBounded(Page(snaps.imported, c, Turns, end, max), Minus(max, |records|));
    SortActiveKeeps(AsActive(records, false) + AsActive(derived, true));
  }

  // ---- who comes first

  /** The query had more rows than it could return. */
  predicate LeftOut(rows: seq<Row>, q: Query, page: seq<Row>) {
    |page| < |Matching(rows, q)|
  }

  lemma {:induction false} TakeImportedStops(turns: seq<Row>, limit: nat, r: Row)
    requires r in turns && r.imported && r !in TakeImported(turns, limit)
    ensures |TakeImported(turns, limit)| == limit
  {
    if limit > 0 {
      var rest := TakeImported(turns[1..], if turns[0].imported then limit - 1 else limit);
      assert turns == [turns[0]] + turns[1..];
      if turns[0].imported {
        assert TakeImported(turns, limit) == [turns[0]] + rest;
      }
      TakeImportedStops(turns[1..], if turns[0].imported then limit - 1 else limit, r);
    }
  }

  /** The streams are served in order of priority: records, imported turns, turns, conclusions, checkpoints, sources.
      One that leaves rows out for want of room leaves no room to those behind it. */
  lemma EarlierFirst(snaps: Snapshots, cursor: SavedCursor, now: Stamp, sourceEnd: Option<Stamp>, max: nat)
    ensures var w := WindowOf(snaps, cursor, now, sourceEnd, max);
            var c := Normalised(cursor);
            var end := QueryEnd(c, now, sourceEnd);
            var records := Page(snaps.records, c, Records, end, max);
            && (LeftOut(snaps.records.records.rows, QueryFor(c, Records, end), records) ==>
                  DerivedTurns(snaps, c, end, max) == [] && w.turns == [])
            && ((exists r :: r in Page(snaps.imported, c, Turns, end, max) && r.imported
                             && r !in DerivedTurns(snaps, c, end, max)) ==> w.turns == [])
            && (LeftOut(snaps.turns.turns.rows, QueryFor(c, Turns, end), w.turns) ==> w.conclusions == [])
            && (LeftOut(snaps.conclusions.conclusions.rows, QueryFor(c, Conclusions, end), w.conclusions) ==>
                  w.checkpoints == [])
            && (LeftOut(snaps.checkpoints.checkpoints.rows, QueryFor(c, Checkpoints, end), w.checkpoints) ==>
                  w.sources == [])
  {
    var c := Normalised(cursor);
    var end := QueryEnd(c, now, sourceEnd);
    var records := Page(snaps.records, c, Records, end, max);
    var derived := DerivedTurns(snaps, c, end, max);
    ActiveLength(snaps, c, end, max);
    if r :| r in Page(snaps.imported, c, Turns, end, max) && r.imported && r !in derived {
      TakeImportedStops(Page(snaps.imported, c, Turns, end, max), Minus(max, |records|), r);
    }
    if Minus(max, |records|) == 0 {
      TakeImportedBounded(Page(snaps.imported, c, Turns, end, max), 0);
    }
  }

  lemma ActiveLength(snaps: Snapshots, c: SavedCursor, end: Option<Stamp>, max: nat)
    ensures |ActiveOf(snaps, c, end, max)|
         == |Page(snaps.records, c, Records, end, max)| + |DerivedTurns(snaps, c, end, max)|
  {
    SortActiveKeeps(AsActive(Page(snaps.records, c, Records, end, max), false)
                    + AsActive(DerivedTurns(snaps, c, end, max), true));
  }

  ghost predicate ActiveSorted(s: seq<Active>) {
    forall i, j :: 0 <= i < j < |s| ==> SortsBefore(s[i], s[j])
  }

  lemma {:induction false} InsertActiveSorts(a: Active, s: seq<Active>)
    requires ActiveSorted(s)
    ensures ActiveSorted(InsertActive(a, s))
  {
    InsertActiveKeeps(a, s);
    if s != [] && !SortsBefore(a, s[0]) {
      InsertActiveSorts(a, s[1..]);
      InsertActiveKeeps(a, s[1..]);
      var rest := InsertActive(a, s[1..]);
      forall j | 0 <= j < |rest| ensures SortsBefore(s[0], rest[j]) {
        assert rest[j] in multiset(rest);
        assert rest[j] == a || rest[j] in s[1..];
      }
    }
  }

  /** The active stream is listed by timestamp, newest first, and then by identifier. */
  lemma {:induction false} SortActiveSorts(s: seq<Active>)
    ensures ActiveSorted(SortActive(s))
  {
    if s != [] {
      SortActiveSorts(s[1..]);
      InsertActiveSorts(s[0], SortActive(s[1..]));
    }
  }

  // ---- starting over

  /** A query with the position left aside. */
  function Anywhere(q: Query): Query {
    q.(position := None)
  }

  /** Dropping the exclusion and the rowid bound at the start of a query loses nothing. */
  lemma StartWidens(q: Query, r: Row)
    requires 0 < r.rowid && Matches(q, r) && q.position.None?
    ensures Matches(q.(startExclusive := false), r)
    ensures Matches(q.(startExclusive := false, lowerRowid := if q.start.Some? then Some(0) else None), r)
  {
  }

  /** Nor does a new frontier, for the rows within it. */
  lemma FrontierMoves(q: Query, upper: nat, lowSeq: nat, sequence: nat, r: Row)
    requires Matches(q, r) && r.rowid <= upper && r.sequence <= sequence
    requires q.mutation.Some? ==> q.mutation.value.0 == lowSeq
    ensures Matches(q.(upperRowid := Some(upper)), r)
    ensures Matches(q.(upperRowid := Some(upper), mutation := Some((lowSeq, sequence))), r)
  {
    assert EndFilter(q, r) ==> EndFilter(q.(upperRowid := Some(upper)), r);
    assert PostFrontier(q, r) ==> PostFrontier(q.(upperRowid := Some(upper)), r);
  }

  lemma RewoundQuery(c: SavedCursor, f: Frontier, s: Stream, end: Option<Stamp>)
    requires c.mutationLower.Some? || c.mutationUpper.None?
    ensures var q := Anywhere(QueryFor(c, s, end));
            var q1 := if c.lowerBound.None? then q
                      else if c.lowerStrict then q.(startExclusive := false)
                      else q.(startExclusive := false, lowerRowid := Some(0));
            var q2 := q1.(upperRowid := Some(f.rowids.At(s)));
            var low := if c.mutationLower.Some? then c.mutationLower.value else 0;
            QueryFor(Rewound(c, f), s, end) == if s == Records then q2.(mutation := Some((low, f.sequence))) else q2
  {
  }

  /** A cursor that starts its band over from a new frontier misses none of the rows within it that the old cursor asked
      for, wherever that one stood, provided its mutation scan had a lower end or had not begun. */
  lemma RewindLosesNothing(c: SavedCursor, f: Frontier, s: Stream, end: Option<Stamp>, r: Row)
    requires c.mutationLower.Some? || c.mutationUpper.None?
    requires 0 < r.rowid <= f.rowids.At(s) && r.sequence <= f.sequence && Matches(Anywhere(QueryFor(c, s, end)), r)
    ensures Matches(QueryFor(Rewound(c, f), s, end), r)
  {
    var q := Anywhere(QueryFor(c, s, end));
    var low := if c.mutationLower.Some? then c.mutationLower.value else 0;
    RewoundQuery(c, f, s, end);
    StartWidens(q, r);
    var q1 := if c.lowerBound.None? then q
              else if c.lowerStrict then q.(startExclusive := false)
              else q.(startExclusive := false, lowerRowid := Some(0));
    FrontierMoves(q1, f.rowids.At(s), low, f.sequence, r);
  }

  lemma NormalisedIs(c: SavedCursor)
    requires HasLegacyPosition(c.positions)
    ensures Normalised(c) ==
              if c.upperBound.None? && !c.upperUnbounded then c.(positions := NO_POSITIONS)
              else c.(positions := NO_POSITIONS, lowerExclusive := false,
                      lowerRowids := if c.lowerBound.Some? then Some(ZERO_FRONTIER) else None)
  {
    assert HasPosition(c.positions);
  }

  lemma NothingAt(s: Stream)
    ensures NO_POSITIONS.At(s) == None && ZERO_FRONTIER.rowids.At(s) == 0
  {
  }

  lemma NormalisedQuery(c: SavedCursor, s: Stream, end: Option<Stamp>)
    requires HasLegacyPosition(c.positions)
    ensures var q := Anywhere(QueryFor(c, s, end));
            var wide := q.(startExclusive := false, lowerRowid := if c.lowerBound.Some? then Some(0) else None);
            QueryFor(Normalised(c), s, end) == if c.upperBound.None? && !c.upperUnbounded then q else wide
  {
    NormalisedIs(c);
    NothingAt(s);
  }

  /** Nor does a cursor whose positions lack rowids, once normalised. */
  lemma NormalisingLosesNothing(c: SavedCursor, s: Stream, end: Option<Stamp>, r: Row)
    requires HasLegacyPosition(c.positions) && 0 < r.rowid && Matches(Anywhere(QueryFor(c, s, end)), r)
    ensures Matches(QueryFor(Normalised(c), s, end), r)
  {
    NormalisedQuery(c, s, end);
    StartWidens(Anywhere(QueryFor(c, s, end)), r);
  }
}
