/** Two executions whose completed frontier passes a turn that no run has served: one dated after the
    end of its band, and one that stands between imported turns. */
module DreamInstances {
  import opened Basics
  import opened DreamRows
  import opened DreamBand
  import opened DreamCursor
  import opened DreamWindow
  import opened DreamProtocol
  import opened DreamTheorems
  import opened DreamImported

  lemma TwoStates(a: System, b: System)
    requires Initial(a) && Next(a, b)
    ensures Execution([a, b])
  {
  }

  lemma Longer(trace: seq<System>, a: System, b: System) returns (longer: seq<System>)
    requires Execution(trace) && trace[|trace| - 1] == a && Next(a, b)
    ensures Execution(longer) && |longer| == |trace| + 1 && longer[|trace|] == b
  {
    longer := trace + [b];
    forall i | 0 <= i < |longer| - 1 ensures Next(longer[i], longer[i + 1]) {
      if i < |trace| - 1 {
        assert Next(trace[i], trace[i + 1]);
      }
    }
  }

  // ---- a turn dated after the end of its band

  const LATE := Row(1, 21, Stamp(200, Some(200)), 0, true, false)
  const STORE: Store := PerStream(Table([LATE], 1, 0), EMPTY, EMPTY, EMPTY, EMPTY)
  const UNUSED := Scan([], None, None, [])
  const START := System(STORE, None, PerStream(UNUSED, UNUSED, UNUSED, UNUSED, UNUSED), true)
  const RUN := RunInput(Still(STORE), NOW, None, false, 3, false)
  const CURSOR :=
    DEFAULT_CURSOR.(upperBound := Some(NOW), mutationLower := Some(0), mutationUpper := Some(0),
                    upperRowids := Some(Frontier(PerStream(1, 0, 0, 0, 0), 0)))

  lemma StartIsInitial()
    ensures Initial(START)
  {
    assert forall r :: r in [LATE] ==> r == LATE;
  }

  lemma StartIsPinned()
    ensures Pinned(STORE, None, NOW, false) == CURSOR && Normalised(CURSOR) == CURSOR
  {
    assert LATE in [LATE];
  }

  lemma NothingMatches(q: Query)
    requires !Matches(q, LATE)
    ensures Matching([LATE], q) == []
  {
    assert [LATE][1..] == [];
  }

  lemma NothingSelected(w: Window)
    requires w == WindowOf(Still(STORE), CURSOR, NOW, None, 3)
    ensures Count(w) == 0 && w.turns == [] && w.active == []
  {
    StartIsPinned();
    NothingMatches(QueryFor(CURSOR, Turns, Some(NOW)));
    assert AsActive([], false) + AsActive([], true) == [];
  }

  lemma RunEnds(o: Outcome, b: System)
    requires Computes(START, RUN, o) && RunStep(START, RUN, o, b)
    ensures !o.full && LATE !in b.scans.turns.log && CoveredRow(b.scans.turns) == 1 && b.store == STORE && b.clean
  {
    StartIsPinned();
    NothingSelected(o.window);
    assert b.scans.At(Turns) == ScanAfter(UNUSED, CURSOR, Turns, [], false, o.next);
    assert o.next == Encoded(Rested(CURSOR, NOW, true));
  }

  lemma RunIsStep() returns (b: System)
    ensures Next(START, b) && b.store == STORE && b.clean
    ensures CoveredRow(b.scans.turns) == 1 && LATE !in b.scans.turns.log
  {
    StartIsInitial();
    InitialInv(START);
    var o, next := EveryRunSteps(START, RUN);
    b := next;
    StillRunSteps(START, RUN, o, b);
    RunEnds(o, b);
  }

  /** One run whose clock stands before the row's timestamp completes a band that reaches the row, so the
      row is behind the frontier and was not served; by NowOrNever it never is. */
  lemma FutureDatedRowIsSkipped() returns (trace: seq<System>)
    ensures Execution(trace) && |trace| == 2 && trace[0] == START && Tracked(trace[1], Turns)
    ensures LATE in trace[1].store.turns.rows && LATE.visible
    ensures LATE.rowid <= CoveredRow(trace[1].scans.turns) && LATE !in trace[1].scans.turns.log
  {
    StartIsInitial();
    var b := RunIsStep();
    TwoStates(START, b);
    trace := [START, b];
    assert LATE in [LATE];
  }

  // ---- an ordinary turn between imported ones

  const IMPORTED_START := System(SAMPLE, None, PerStream(UNUSED, UNUSED, UNUSED, UNUSED, UNUSED), true)
  const IMPORTED_RUN := RunInput(Still(SAMPLE), NOW, Some(NOW), false, 3, false)

  lemma ImportedStartIsInitial()
    ensures Initial(IMPORTED_START)
  {
    assert forall r :: r in [T1, T2, T3] ==> r in {T1, T2, T3};
  }

  lemma FirstOutcome(o: Outcome)
    requires Computes(IMPORTED_START, IMPORTED_RUN, o)
    ensures o == Outcome(FIRST_CURSOR, FIRST_WINDOW, true, Encoded(SECOND_CURSOR))
  {
    ImportedTurnsLoseATurn();
  }

  lemma SecondOutcome(a: System, o: Outcome)
    requires a.watermark == Some(Encoded(SECOND_CURSOR)) && Computes(a, IMPORTED_RUN, o)
    ensures o == Outcome(SECOND_CURSOR, SECOND_WINDOW, false, Encoded(Rested(SECOND_CURSOR, NOW, true)))
  {
    ImportedTurnsLoseATurn();
  }

  lemma FirstPage()
    ensures T2 !in Delivered(FIRST_WINDOW, IMPORTED_RUN, FIRST_CURSOR, Turns)
  {
    ImportedTurnsLoseATurn();
    NotInWindows();
    DeliveredMembers(FIRST_CURSOR, IMPORTED_RUN, Turns, FIRST_WINDOW);
  }

  lemma SecondPage()
    ensures T2 !in Delivered(SECOND_WINDOW, IMPORTED_RUN, SECOND_CURSOR, Turns)
  {
    ImportedTurnsLoseATurn();
    NotInWindows();
    DeliveredMembers(SECOND_CURSOR, IMPORTED_RUN, Turns, SECOND_WINDOW);
  }

  lemma FirstRun(o: Outcome, b: System)
    requires Computes(IMPORTED_START, IMPORTED_RUN, o) && RunStep(IMPORTED_START, IMPORTED_RUN, o, b)
    ensures b.store == SAMPLE && b.watermark == Some(Encoded(SECOND_CURSOR))
    ensures T2 !in b.scans.turns.log && b.scans.turns.done == []
    ensures b.scans.turns.current == Some(BandOf(FIRST_CURSOR, Turns))
  {
    FirstOutcome(o);
    FirstPage();
    assert b.scans.At(Turns) == ScanAfter(UNUSED, FIRST_CURSOR, Turns, PageOf(IMPORTED_RUN, o, Turns), true, o.next);
  }

  lemma NotInWindows()
    ensures Normalised(FIRST_CURSOR) == FIRST_CURSOR && Normalised(SECOND_CURSOR) == SECOND_CURSOR
    ensures T2 !in SourcesOf(FIRST_WINDOW, Turns) && T2 !in SourcesOf(SECOND_WINDOW, Turns)
  {
    ActiveRowsMembers(FIRST_WINDOW.active, true);
    ActiveRowsMembers(SECOND_WINDOW.active, true);
    assert Active(T2, true) !in FIRST_WINDOW.active;
  }

  lemma SecondRun(a: System, o: Outcome, b: System)
    requires a.store == SAMPLE && a.watermark == Some(Encoded(SECOND_CURSOR))
    requires T2 !in a.scans.turns.log && a.scans.turns.done == []
    requires a.scans.turns.current == Some(BandOf(FIRST_CURSOR, Turns))
    requires Computes(a, IMPORTED_RUN, o) && RunStep(a, IMPORTED_RUN, o, b)
    ensures b.store == SAMPLE && T2 !in b.scans.turns.log && b.scans.turns.done == [BandOf(FIRST_CURSOR, Turns)]
  {
    SecondOutcome(a, o);
    SecondPage();
    assert b.scans.At(Turns)
        == ScanAfter(a.scans.turns, SECOND_CURSOR, Turns, PageOf(IMPORTED_RUN, o, Turns), false, o.next);
  }

  lemma FirstStep() returns (b: System)
    ensures Inv(b) && Next(IMPORTED_START, b) && b.store == SAMPLE && b.watermark == Some(Encoded(SECOND_CURSOR))
    ensures T2 !in b.scans.turns.log && b.scans.turns.done == []
    ensures b.scans.turns.current == Some(BandOf(FIRST_CURSOR, Turns))
  {
    ImportedStartIsInitial();
    InitialInv(IMPORTED_START);
    var o, next := EveryRunSteps(IMPORTED_START, IMPORTED_RUN);
    b := next;
    StillRunSteps(IMPORTED_START, IMPORTED_RUN, o, b);
    FirstRun(o, b);
    RunKeepsInv(IMPORTED_START, IMPORTED_RUN, o, b);
  }

  lemma SecondStep(a: System) returns (b: System)
    requires Inv(a) && a.store == SAMPLE && a.watermark == Some(Encoded(SECOND_CURSOR))
    requires T2 !in a.scans.turns.log && a.scans.turns.done == []
    requires a.scans.turns.current == Some(BandOf(FIRST_CURSOR, Turns))
    ensures Next(a, b) && b.store == SAMPLE
    ensures T2 !in b.scans.turns.log && b.scans.turns.done == [BandOf(FIRST_CURSOR, Turns)]
  {
    var o, next := EveryRunSteps(a, IMPORTED_RUN);
    b := next;
    StillRunSteps(a, IMPORTED_RUN, o, b);
    SecondRun(a, o, b);
  }

  /** A turn that is behind the frontier, not future-dated and not served was passed over. */
  lemma NotServedNotClean(trace: seq<System>, i: nat, r: Row)
    requires Execution(trace) && i < |trace| && r in trace[i].store.turns.rows && r.visible
    requires r.rowid <= CoveredRow(trace[i].scans.turns) && r !in trace[i].scans.turns.log
    requires forall k :: 0 <= k < |trace[i].scans.turns.done| ==> UntilEnd(trace[i].scans.turns.done[k].end, r)
    ensures !trace[i].clean
  {
    if trace[i].clean {
      var band := ExactlyOnce(trace, i, Turns, r);
    }
  }

  lemma LostInOneBand(trace: seq<System>, i: nat, c: System, band: Band, r: Row)
    requires Execution(trace) && i < |trace| && trace[i] == c
    requires r in c.store.turns.rows && r.visible && r !in c.scans.turns.log
    requires c.scans.turns.done == [band] && r.rowid <= band.highRow && UntilEnd(band.end, r)
    ensures r.rowid <= CoveredRow(c.scans.turns) && !c.clean
  {
    NotServedNotClean(trace, i, r);
  }

  lemma FirstExecution() returns (trace: seq<System>, b: System)
    ensures Execution(trace) && |trace| == 2 && trace[1] == b
    ensures Inv(b) && b.store == SAMPLE && b.watermark == Some(Encoded(SECOND_CURSOR))
    ensures T2 !in b.scans.turns.log && b.scans.turns.done == []
    ensures b.scans.turns.current == Some(BandOf(FIRST_CURSOR, Turns))
  {
    ImportedStartIsInitial();
    b := FirstStep();
    TwoStates(IMPORTED_START, b);
    trace := [IMPORTED_START, b];
  }

  lemma ImportedExecution() returns (trace: seq<System>, c: System)
    ensures Execution(trace) && |trace| == 3 && trace[2] == c && c.store == SAMPLE
    ensures T2 !in c.scans.turns.log && c.scans.turns.done == [BandOf(FIRST_CURSOR, Turns)]
  {
    var first, b := FirstExecution();
    c := SecondStep(b);
    trace := Longer(first, b, c);
  }

  lemma LostTurnIsVisible()
    ensures T2 in SAMPLE.turns.rows && T2.visible
    ensures T2.rowid <= BandOf(FIRST_CURSOR, Turns).highRow && UntilEnd(BandOf(FIRST_CURSOR, Turns).end, T2)
  {
    assert T2 in [T1, T2, T3];
  }

  /** A full run and a short one complete a band over two imported turns and an ordinary one between them;
      the ordinary turn is behind the frontier, not future-dated, and was not served. */
  lemma ImportedTurnsLoseATurnForGood() returns (trace: seq<System>, last: System)
    ensures Execution(trace) && |trace| == 3 && trace[2] == last && last.store == SAMPLE && !last.clean
    ensures T2 in last.store.turns.rows && T2.visible && T2 !in last.scans.turns.log
    ensures T2.rowid <= CoveredRow(last.scans.turns) && last.scans.turns.done == [BandOf(FIRST_CURSOR, Turns)]
    ensures UntilEnd(BandOf(FIRST_CURSOR, Turns).end, T2)
  {
    LostTurnIsVisible();
    trace, last := ImportedExecution();
    LostInOneBand(trace, 2, last, BandOf(FIRST_CURSOR, Turns), T2);
  }
}
