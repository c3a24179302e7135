/** Imported `chatgpt-export` turns and the turn position: `update_scheduler_cursor` moves the
    visible-turn position to turns that were only delivered as derived records. */
module DreamImported {
  import opened Basics
  import opened DreamRows
  import opened DreamBand
  import opened DreamCursor
  import opened DreamWindow
  import opened DreamProtocol

  /** Derived records are the first imported turns: taking one takes every imported turn before it. */
  lemma {:induction false} TakenFromFront(turns: seq<Row>, limit: nat, i: nat, j: nat)
    requires i < j < |turns| && turns[i].imported && Ordered(turns)
    requires turns[j] in TakeImported(turns, limit)
    ensures turns[i] in TakeImported(turns, limit)
  {
    TakeImportedBounded(turns, limit);
    if limit > 0 {
      var rest := if turns[0].imported then limit - 1 else limit;
      TakeImportedBounded(turns[1..], rest);
      if i > 0 {
        assert turns[j] == turns[1..][j - 1] && turns[i] == turns[1..][i - 1];
        IndexOrder(turns, 0, j);
        TakenFromFront(turns[1..], rest, i - 1, j - 1);
      }
    }
  }

  /** `due` are the undelivered turns in order.  A page delivers the first `budget` of them and those it
      derives records from, which are imported and taken from the front.  A turn is passed over exactly
      when it is an ordinary one outside the budget standing before a derived one. */
  lemma SkippedIff(slot: Option<Position>, due: seq<Row>, delivered: seq<Row>, derived: seq<Row>, budget: nat, i: nat)
    requires Ordered(due) && Ordered(delivered) && i < |due| && forall r :: r in due ==> Past(slot, r)
    requires forall r :: r in delivered <==> r in FirstOf(due, budget) || r in derived
    requires forall r :: r in derived ==> r in due && r.imported
    requires forall m, n :: 0 <= m < n < |due| && due[m].imported && due[n] in derived ==> due[m] in derived
    ensures (due[i] !in delivered && !Past(Furthest(slot, delivered), due[i])) <==>
              (i >= budget && !due[i].imported && exists j :: i < j < |due| && due[j] in derived)
  {
    FirstOfAt(due, budget, i);
    if delivered == [] {
      assert forall r :: r in derived ==> r in delivered;
    } else {
      var last := delivered[|delivered| - 1];
      assert last in delivered && last in due;
      var m :| 0 <= m < |due| && due[m] == last;
      IndexOrder(due, i, m);
      IndexOrder(due, m, i);
      FirstOfAt(due, budget, m);
      forall j | i < j < |due| && due[j] in derived ensures j <= m {
        DeliveredUpTo(due, delivered, m, j);
      }
    }
  }

  /** Nothing delivered lies behind the last delivered row. */
  lemma DeliveredUpTo(due: seq<Row>, delivered: seq<Row>, m: nat, j: nat)
    requires Ordered(due) && Ordered(delivered) && delivered != [] && m < |due| && j < |due|
    requires due[m] == delivered[|delivered| - 1] && due[j] in delivered
    ensures j <= m
  {
    var k :| 0 <= k < |delivered| && delivered[k] == due[j];
    IndexOrder(delivered, |delivered| - 1, k);
    IndexOrder(due, m, j);
  }

  function FirstOf(due: seq<Row>, budget: nat): seq<Row> {
    if |due| <= budget then due else due[..budget]
  }

  lemma FirstOfAt(due: seq<Row>, budget: nat, i: nat)
    requires Ordered(due) && i < |due|
    ensures due[i] in FirstOf(due, budget) <==> i < budget
  {
    if i < budget {
      assert FirstOf(due, budget)[i] == due[i];
    } else {
      forall k | 0 <= k < |FirstOf(due, budget)| ensures FirstOf(due, budget)[k] != due[i] {
        IndexOrder(due, k, i);
      }
    }
  }

  // ---- the windows of an execution

  /** The turns of the band a run has yet to deliver, as its turn query would list them all. */
  function DueTurns(run: RunInput, o: Outcome): seq<Row> {
    Matching(run.snaps.turns.turns.rows, QueryFor(o.cursor, Turns, EndOf(run, o)))
  }

  function EndOf(run: RunInput, o: Outcome): Option<Stamp> {
    QueryEnd(o.cursor, run.now, run.sourceEnd)
  }

  function Derived(run: RunInput, o: Outcome): seq<Row> {
    DerivedTurns(run.snaps, o.cursor, EndOf(run, o), run.max)
  }

  /** The turns a run derives records from are still in the table when it reads turns from it. */
  ghost predicate DerivedRemain(run: RunInput, o: Outcome) {
    forall r :: r in Derived(run, o) ==> r in run.snaps.turns.turns.rows
  }

  /** The part of the batch left for turns once records and derived records are taken. */
  function TurnBudget(run: RunInput, o: Outcome): nat {
    Minus(run.max, |Page(run.snaps.records, o.cursor, Records, EndOf(run, o), run.max)| + |Derived(run, o)|)
  }

  /** The condition, in terms of what the run's queries see: an ordinary turn due outside the turn
      budget stands before one a record is derived from. */
  ghost predicate PassesOver(run: RunInput, o: Outcome, i: nat)
    requires i < |DueTurns(run, o)|
  {
    var due := DueTurns(run, o);
    i >= TurnBudget(run, o) && !due[i].imported && exists j :: i < j < |due| && due[j] in Derived(run, o)
  }

  ghost predicate NonePassedOver(run: RunInput, o: Outcome) {
    forall i :: 0 <= i < |DueTurns(run, o)| ==> !PassesOver(run, o, i)
  }

  lemma DueAre(run: RunInput, o: Outcome)
    requires Draining(o.cursor) && ValidStore(run.snaps.turns)
    ensures var due := DueTurns(run, o);
            && Ordered(due)
            && forall r :: r in due <==> r in run.snaps.turns.turns.rows
                                         && Wanted(BandOf(o.cursor, Turns), r) && Past(o.cursor.positions.turns, r)
  {
    var c, rows := o.cursor, run.snaps.turns.turns.rows;
    assert ValidTable(run.snaps.turns.At(Turns));
    MatchingIsExact(rows, QueryFor(c, Turns, EndOf(run, o)));
    forall r | r in rows
      ensures Matches(QueryFor(c, Turns, EndOf(run, o)), r)
            <==> Wanted(BandOf(c, Turns), r) && Past(c.positions.turns, r)
    {
      MatchesIsBand(c, run.now, run.sourceEnd, Turns, r);
    }
  }

  /** The turns of a window are the first due ones, up to the turn budget. */
  lemma WindowTurns(run: RunInput, o: Outcome)
    requires Normalised(o.cursor) == o.cursor
    requires o.window == WindowOf(run.snaps, o.cursor, run.now, run.sourceEnd, run.max)
    ensures o.window.turns == FirstOf(DueTurns(run, o), TurnBudget(run, o))
    ensures SameMembers(ActiveRows(o.window.active, true), Derived(run, o))
  {
    ActiveSplits(run.snaps, o.cursor, EndOf(run, o), run.max, true);
    ActiveSplits(run.snaps, o.cursor, EndOf(run, o), run.max, false);
    ActiveRowsCounts(o.window.active);
  }

  /** An imported turn due before a derived one is derived itself. */
  lemma DerivedFromFront(run: RunInput, o: Outcome, store: Store, a: Row, b: Row)
    requires Draining(o.cursor) && ValidRun(store, run)
    requires Reached(run.snaps.imported.At(Turns), BandOf(o.cursor, Turns))
    requires a in DueTurns(run, o) && b in Derived(run, o) && a.imported && Before(a, b)
    ensures a in Derived(run, o)
  {
    var q, rows := QueryFor(o.cursor, Turns, EndOf(run, o)), run.snaps.imported.turns.rows;
    DueWasListed(run, o, a);
    var limit := Minus(run.max, |Page(run.snaps.records, o.cursor, Records, EndOf(run, o), run.max)|);
    TakenFromPage(rows, q, run.max, limit, a, b);
  }

  lemma DueWasListed(run: RunInput, o: Outcome, a: Row)
    requires Draining(o.cursor) && StoreEvolves(run.snaps.imported, run.snaps.turns)
    requires Reached(run.snaps.imported.At(Turns), BandOf(o.cursor, Turns)) && a in DueTurns(run, o)
    ensures var rows := run.snaps.imported.turns.rows;
            Distinct(rows) && a in rows && Matches(QueryFor(o.cursor, Turns, EndOf(run, o)), a)
  {
    DueAre(run, o);
    assert Evolves(run.snaps.imported.At(Turns), run.snaps.turns.At(Turns));
    Frozen(run.snaps.imported.At(Turns), run.snaps.turns.At(Turns), BandOf(o.cursor, Turns), a);
    MatchesIsBand(o.cursor, run.now, run.sourceEnd, Turns, a);
  }

  lemma TakenFromPage(rows: seq<Row>, q: Query, max: nat, limit: nat, a: Row, b: Row)
    requires Distinct(rows) && a in rows && Matches(q, a) && a.imported && Before(a, b)
    requires b in TakeImported(SelectRows(rows, q, max), limit)
    ensures a in TakeImported(SelectRows(rows, q, max), limit)
  {
    var all, page := Matching(rows, q), SelectRows(rows, q, max);
    MatchingIsExact(rows, q);
    TakeImportedBounded(page, limit);
    BehindPage(all, max, a);
    TakenInOrder(page, limit, a, b);
  }

  lemma TakenInOrder(page: seq<Row>, limit: nat, a: Row, b: Row)
    requires Ordered(page) && b in TakeImported(page, limit) && a.imported && Before(a, b)
    requires a !in page ==> page != [] && Before(page[|page| - 1], a)
    ensures a in TakeImported(page, limit)
  {
    TakeImportedBounded(page, limit);
    var n :| 0 <= n < |page| && page[n] == b;
    IndexOrder(page, |page| - 1, n);
    var m :| 0 <= m < |page| && page[m] == a;
    IndexOrder(page, m, n);
    TakenFromFront(page, limit, m, n);
  }

  /** The exact condition: a run leaves a due turn out of its window and moves the position past it if
      and only if it is an ordinary turn beyond the turn budget and due before one a record is derived from. */
  lemma WindowLosesTurnIff(a: System, run: RunInput, o: Outcome, i: nat)
    requires Inv(a) && ValidRun(a.store, run) && Computes(a, run, o) && AllFound(run, o.window)
    requires DerivedRemain(run, o)
    requires i < |DueTurns(run, o)|
    ensures (DueTurns(run, o)[i] !in SourcesOf(o.window, Turns)
             && !Past(FoldedAll(o.cursor.positions, run.snaps.lookup, o.window).turns, DueTurns(run, o)[i]))
       <==> PassesOver(run, o, i)
  {
    PinningKeeps(a, run, Turns, o.cursor);
    PositionsKeyed(o.cursor, run, a.store, o.window);
    ReachedByImported(run, a.store, o.cursor);
    PassedOverIff(run, o, a.store, i);
  }

  lemma ReachedByImported(run: RunInput, store: Store, c: SavedCursor)
    requires ValidRun(store, run) && Reached(run.snaps.pin.At(Turns), BandOf(c, Turns))
    ensures Reached(run.snaps.imported.At(Turns), BandOf(c, Turns))
  {
    StoreEvolvesTransitive(run.snaps.pin, run.snaps.records, run.snaps.imported);
    assert Evolves(run.snaps.pin.At(Turns), run.snaps.imported.At(Turns));
  }

  lemma PassedOverIff(run: RunInput, o: Outcome, store: Store, i: nat)
    requires Draining(o.cursor) && Normalised(o.cursor) == o.cursor && ValidRun(store, run)
    requires Reached(run.snaps.imported.At(Turns), BandOf(o.cursor, Turns)) && AllFollow(o.cursor, run, o.window)
    requires o.window == WindowOf(run.snaps, o.cursor, run.now, run.sourceEnd, run.max)
    requires DerivedRemain(run, o)
    requires i < |DueTurns(run, o)|
    ensures (DueTurns(run, o)[i] !in SourcesOf(o.window, Turns)
             && !Past(FoldedAll(o.cursor.positions, run.snaps.lookup, o.window).turns, DueTurns(run, o)[i]))
       <==> PassesOver(run, o, i)
  {
    var c, due, derived := o.cursor, DueTurns(run, o), Derived(run, o);
    var delivered := Delivered(o.window, run, c, Turns);
    WindowTurns(run, o);
    DueAre(run, o);
    DeliveredMembers(c, run, Turns, o.window);
    TurnsSelected(c, run, store, o.window);
    forall r | r in derived ensures r in due && r.imported {
      DerivedSelected(c, run, o.window, r);
    }
    forall m, n | 0 <= m < n < |due| && due[m].imported && due[n] in derived ensures due[m] in derived {
      DerivedFromFront(run, o, store, due[m], due[n]);
    }
    assert c.positions.At(Turns) == c.positions.turns;
    SkippedIff(c.positions.turns, due, delivered, derived, TurnBudget(run, o), i);
  }

  lemma FullLosesNothingIff(a: System, run: RunInput, o: Outcome)
    requires Inv(a) && ValidRun(a.store, run) && Computes(a, run, o) && AllFound(run, o.window)
    requires Draining(o.cursor) && DerivedRemain(run, o)
    ensures AllAhead(o.cursor, run, o.window) <==> NonePassedOver(run, o)
  {
    DueAre(run, o);
    forall i | 0 <= i < |DueTurns(run, o)|
      ensures PassesOver(run, o, i) <==> !StillAhead(o.cursor, run, o.window, DueTurns(run, o)[i])
    {
      WindowLosesTurnIff(a, run, o, i);
      assert DueTurns(run, o)[i] in DueTurns(run, o);
    }
    AheadIff(run, o);
  }

  lemma DerivedRemainIff(run: RunInput, o: Outcome)
    requires Normalised(o.cursor) == o.cursor
    requires o.window == WindowOf(run.snaps, o.cursor, run.now, run.sourceEnd, run.max)
    ensures DerivedRemain(run, o) <==> DerivedStay(run, o.window)
  {
    WindowTurns(run, o);
  }

  /** So the history of turns stays exact over the runs whose derived turns are still in the table and
      in which no due turn meets the condition. */
  lemma NoTurnLostIff(a: System, run: RunInput, o: Outcome)
    requires Inv(a) && ValidRun(a.store, run) && Computes(a, run, o) && SourcesRemain(run, o)
    ensures NoTurnLost(o.cursor, run, o.window, o.full)
       <==> DerivedRemain(run, o) && (o.full ==> NonePassedOver(run, o))
  {
    PinningKeeps(a, run, Turns, o.cursor);
    DerivedRemainIff(run, o);
    if o.full && DerivedRemain(run, o) {
      FullLosesNothingIff(a, run, o);
    }
  }

  lemma AheadIff(run: RunInput, o: Outcome)
    requires Draining(o.cursor) && ValidStore(run.snaps.turns)
    ensures AllAhead(o.cursor, run, o.window)
       <==> (forall i :: 0 <= i < |DueTurns(run, o)| ==> StillAhead(o.cursor, run, o.window, DueTurns(run, o)[i]))
  {
    DueAre(run, o);
    forall i | 0 <= i < |DueTurns(run, o)| ensures DueTurns(run, o)[i] in run.snaps.turns.turns.rows {
      assert DueTurns(run, o)[i] in DueTurns(run, o);
    }
    forall r | r in run.snaps.turns.turns.rows && !StillAhead(o.cursor, run, o.window, r)
      ensures exists i :: 0 <= i < |DueTurns(run, o)| && DueTurns(run, o)[i] == r
    {
      assert r in DueTurns(run, o);
    }
  }

  ghost predicate NoImported(store: Store) {
    forall r :: r in store.turns.rows ==> !r.imported
  }

  /** In particular it stays exact while no imported turn exists. */
  lemma NothingImportedNothingLost(a: System, run: RunInput, o: Outcome)
    requires Inv(a) && ValidRun(a.store, run) && Computes(a, run, o) && SourcesRemain(run, o)
    requires NoImported(run.snaps.imported)
    ensures NoTurnLost(o.cursor, run, o.window, o.full)
  {
    PinningKeeps(a, run, Turns, o.cursor);
    WindowTurns(run, o);
    forall r | r in Derived(run, o) ensures false {
      DerivedSelected(o.cursor, run, o.window, r);
    }
    NoTurnLostIff(a, run, o);
  }

  // ---- a run that loses a turn

  const T1 := Row(1, 11, Stamp(30, Some(30)), 0, true, true)
  const T2 := Row(2, 12, Stamp(20, Some(20)), 0, true, false)
  const T3 := Row(3, 13, Stamp(10, Some(10)), 0, true, true)
  const EMPTY := Table([], 0, 0)
  const SAMPLE: Store := PerStream(Table([T1, T2, T3], 3, 0), EMPTY, EMPTY, EMPTY, EMPTY)
  const NOW := Stamp(100, Some(100))

  lemma MatchingThree(q: Query)
    requires Matches(q, T1) && Matches(q, T2) && Matches(q, T3)
    ensures Matching([T1, T2, T3], q) == [T1, T2, T3]
  {
    assert [T1, T2, T3][1..] == [T2, T3] && [T2, T3][1..] == [T3] && [T3][1..] == [];
    assert Matching([T3], q) == InsertRow(T3, []) == [T3];
    assert Matching([T2, T3], q) == InsertRow(T2, [T3]) == [T2, T3];
  }

  lemma MatchingNone(q: Query)
    requires !Matches(q, T1) && !Matches(q, T2) && !Matches(q, T3)
    ensures Matching([T1, T2, T3], q) == []
  {
    assert [T1, T2, T3][1..] == [T2, T3] && [T2, T3][1..] == [T3] && [T3][1..] == [];
    assert Matching([T3], q) == [];
    assert Matching([T2, T3][1..], q) == [];
    assert Matching([T2, T3], q) == [];
  }

  const FIRST_CURSOR :=
    DEFAULT_CURSOR.(upperBound := Some(NOW), mutationLower := Some(0), mutationUpper := Some(0),
                    upperRowids := Some(Frontier(PerStream(3, 0, 0, 0, 0), 0)))
  const SECOND_CURSOR := FIRST_CURSOR.(positions := NO_POSITIONS.(turns := Some(Position(T3.stamp, 13, Some(3)))))

  lemma SampleFrontier()
    ensures FrontierOf(SAMPLE) == Frontier(PerStream(3, 0, 0, 0, 0), 0)
  {
    assert T3 in [T1, T2, T3];
  }

  const FIRST_WINDOW := Window(NOW, [T1], [], [], [], [Active(T1, true), Active(T3, true)])
  const SECOND_WINDOW := Window(NOW, [], [], [], [], [])

  lemma CursorsPinned()
    ensures Pinned(SAMPLE, None, NOW, false) == FIRST_CURSOR
    ensures Pinned(SAMPLE, Some(Encoded(SECOND_CURSOR)), NOW, false) == SECOND_CURSOR
  {
    SampleFrontier();
  }

  lemma WindowsBuilt()
    ensures WindowOf(Still(SAMPLE), FIRST_CURSOR, NOW, Some(NOW), 3) == FIRST_WINDOW
    ensures WindowOf(Still(SAMPLE), SECOND_CURSOR, NOW, Some(NOW), 3) == SECOND_WINDOW
  {
    MatchingThree(QueryFor(FIRST_CURSOR, Turns, Some(NOW)));
    FirstWindow(FIRST_CURSOR, WindowOf(Still(SAMPLE), FIRST_CURSOR, NOW, Some(NOW), 3));
    MatchingNone(QueryFor(SECOND_CURSOR, Turns, Some(NOW)));
    SecondWindow(SECOND_CURSOR, WindowOf(Still(SAMPLE), SECOND_CURSOR, NOW, Some(NOW), 3));
  }

  lemma WatermarksWritten()
    ensures WatermarkAfter(SAMPLE, SAMPLE, Some(Encoded(FIRST_CURSOR)), FIRST_WINDOW, NOW, true)
         == Encoded(SECOND_CURSOR)
    ensures WatermarkAfter(SAMPLE, SAMPLE, Some(Encoded(SECOND_CURSOR)), SECOND_WINDOW, NOW, false)
         == Encoded(Rested(SECOND_CURSOR, NOW, true))
  {
    FirstPosition();
  }

  /** Two runs of a batch of three complete the first band over two imported turns and an ordinary
      one between them, with a frontier past all three, and the ordinary turn is in neither window. */
  lemma ImportedTurnsLoseATurn()
    ensures Pinned(SAMPLE, None, NOW, false) == FIRST_CURSOR
    ensures WindowOf(Still(SAMPLE), FIRST_CURSOR, NOW, Some(NOW), 3) == FIRST_WINDOW && Count(FIRST_WINDOW) >= 3
    ensures WatermarkAfter(SAMPLE, SAMPLE, Some(Encoded(FIRST_CURSOR)), FIRST_WINDOW, NOW, true)
         == Encoded(SECOND_CURSOR)
    ensures Pinned(SAMPLE, Some(Encoded(SECOND_CURSOR)), NOW, false) == SECOND_CURSOR
    ensures WindowOf(Still(SAMPLE), SECOND_CURSOR, NOW, Some(NOW), 3) == SECOND_WINDOW && Count(SECOND_WINDOW) < 3
    ensures WatermarkAfter(SAMPLE, SAMPLE, Some(Encoded(SECOND_CURSOR)), SECOND_WINDOW, NOW, false)
         == Encoded(Rested(SECOND_CURSOR, NOW, true))
    ensures Rested(SECOND_CURSOR, NOW, true).lowerRowids.value.rowids.turns == 3
    ensures T2 in SAMPLE.turns.rows && T2.rowid <= 3
    ensures T2 !in FIRST_WINDOW.turns && Active(T2, true) !in FIRST_WINDOW.active
    ensures T2 !in SECOND_WINDOW.turns && Active(T2, true) !in SECOND_WINDOW.active
  {
    CursorsPinned();
    WindowsBuilt();
    WatermarksWritten();
    OrdinaryTurnAbsent();
  }

  lemma OrdinaryTurnAbsent()
    ensures Count(FIRST_WINDOW) >= 3 && Count(SECOND_WINDOW) < 3
    ensures Rested(SECOND_CURSOR, NOW, true).lowerRowids.value.rowids.turns == 3
    ensures T2 in SAMPLE.turns.rows && T2.rowid <= 3
    ensures T2 !in FIRST_WINDOW.turns && Active(T2, true) !in FIRST_WINDOW.active
    ensures T2 !in SECOND_WINDOW.turns && Active(T2, true) !in SECOND_WINDOW.active
  {
    assert T2 in [T1, T2, T3];
  }

  lemma FirstWindow(c: SavedCursor, w: Window)
    requires Normalised(c) == c && QueryEnd(c, NOW, Some(NOW)) == Some(NOW)
    requires w == WindowOf(Still(SAMPLE), c, NOW, Some(NOW), 3)
    requires Matching([T1, T2, T3], QueryFor(c, Turns, Some(NOW))) == [T1, T2, T3]
    ensures w.turns == [T1] && w.active == [Active(T1, true), Active(T3, true)]
    ensures w.conclusions == [] && w.checkpoints == [] && w.sources == []
  {
    var end := Some(NOW);
    assert Page(SAMPLE, c, Records, end, 3) == [];
    var all := [T1, T2, T3];
    assert all[1..] == [T2, T3] && [T2, T3][1..] == [T3] && [T3][1..] == [];
    assert TakeImported([T3], 2) == [T3] by { assert TakeImported([], 1) == []; }
    assert TakeImported([T2, T3], 2) == TakeImported([T3], 2);
    assert TakeImported(all, 3) == [T1] + TakeImported([T2, T3], 2) == [T1, T3];
    var active := AsActive([], false) + AsActive([T1, T3], true);
    assert active == [Active(T1, true), Active(T3, true)] && active[1..] == [Active(T3, true)]
             && active[1..][1..] == [];
    assert SortActive(active[1..]) == [Active(T3, true)];
    assert SortActive(active) == active;
    assert ActiveOf(Still(SAMPLE), c, end, 3) == active;
    assert all[..1] == [T1];
  }

  lemma FirstPosition()
    ensures FoldedAll(NO_POSITIONS, SAMPLE, Window(NOW, [T1], [], [], [], [Active(T1, true), Active(T3, true)]))
         == NO_POSITIONS.(turns := Some(Position(T3.stamp, 13, Some(3))))
  {
    var active := [Active(T1, true), Active(T3, true)];
    assert active[1..] == [Active(T3, true)] && active[1..][1..] == [];
    assert ActiveRows(active[1..], true) == [T3] && ActiveRows(active, true) == [T1, T3];
    assert ActiveRows(active[1..][1..], false) == [];
    assert ActiveRows(active[1..], false) == [];
    assert ActiveRows(active, false) == [];
    var known := [T1, T2, T3];
    assert known[1..] == [T2, T3] && known[1..][1..] == [T3];
    assert RowidOf(known, 11) == Some(1);
    assert RowidOf([T3], 13) == Some(3) && RowidOf([T2, T3], 13) == Some(3) && RowidOf(known, 13) == Some(3);
    var p1 := Some(Position(T1.stamp, 11, Some(1)));
    assert [T1][..0] == [];
    assert Folded(None, [T1], known) == p1;
    assert [T1, T3][..1] == [T1];
    assert Folded(p1, [T1], known) == p1;
    assert Folded(p1, [T1, T3], known) == Some(Position(T3.stamp, 13, Some(3)));
  }

  lemma SecondWindow(c: SavedCursor, w: Window)
    requires Normalised(c) == c && QueryEnd(c, NOW, Some(NOW)) == Some(NOW)
    requires w == WindowOf(Still(SAMPLE), c, NOW, Some(NOW), 3)
    requires Matching([T1, T2, T3], QueryFor(c, Turns, Some(NOW))) == []
    ensures Count(w) == 0
  {
    assert AsActive([], false) + AsActive([], true) == [];
  }
}
