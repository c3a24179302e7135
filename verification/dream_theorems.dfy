/** What every execution of the Dreamer scheduler guarantees. */
module DreamTheorems {
  import opened Basics
  import opened DreamRows
  import opened DreamBand
  import opened DreamCursor
  import opened DreamWindow
  import opened DreamProtocol

  /** The delivery history of a stream grows by the rows a run delivers from it, and only by those. */
  lemma HistoryGrowsByPage(a: System, run: RunInput, o: Outcome, b: System, s: Stream)
    requires RunStep(a, run, o, b)
    ensures b.scans.At(s).log == a.scans.At(s).log + PageOf(run, o, s)
  {
  }

  /** The rows delivered are exactly those the window of the run holds; a turn that stands in it as
      itself and as a derived record is delivered once. */
  lemma PagesAreWindow(a: System, run: RunInput, o: Outcome, s: Stream)
    requires Inv(a) && ValidRun(a.store, run) && Computes(a, run, o)
    ensures SameMembers(PageOf(run, o, s), SourcesOf(o.window, s)) && Ordered(PageOf(run, o, s))
  {
    PinningKeeps(a, run, s, o.cursor);
    DeliveredMembers(o.cursor, run, s, o.window);
    DeliveredSelected(o.cursor, run, a.store, s, o.window);
  }

  /** Exactly once, with the exact condition: no row of an append-only stream is served twice, none
      is served before its rowid is inside a captured frontier, and a row behind the completed
      frontier was served if and only if the band that answers for it did not end before its timestamp.
      Of turns this holds as long as no run has passed one over. */
  lemma ExactlyOnce(trace: seq<System>, i: nat, s: Stream, r: Row) returns (band: nat)
    requires Execution(trace) && i < |trace| && s != Records && Tracked(trace[i], s)
    requires r in trace[i].store.At(s).rows && r.visible
    ensures var scan := trace[i].scans.At(s);
            && ServedOnce(scan.log)
            && (r.rowid <= CoveredRow(scan) ==>
                  band < |scan.done| && Answers(scan.done[band], r)
                  && (r in scan.log <==> UntilEnd(scan.done[band].end, r)))
            && (r.rowid > CoveredRow(scan) && (scan.current.Some? ==> r.rowid > scan.current.value.highRow) ==>
                  r !in scan.log)
  {
    InvAlways(trace, i);
    var scan := trace[i].scans.At(s);
    var t := trace[i].store.At(s);
    assert StreamInv(trace[i], s);
    assert ScanInv(t, scan) && ValidTable(t) && t.lastSequence == 0 && RowHolds(scan, r);
    band := 0;
    if r.rowid <= CoveredRow(scan) {
      assert |scan.done| > 0;
      band := CoveredIsAnswered(scan.done, r);
      assert DoneHolds(scan, band, r);
    }
    CurrentSequenceZero(trace[i], s);
  }

  lemma CurrentSequenceZero(sys: System, s: Stream)
    requires Inv(sys) && s != Records
    ensures sys.scans.At(s).current.Some? ==> sys.scans.At(s).current.value.highSeq == 0
  {
    assert StreamInv(sys, s) && sys.store.At(s).lastSequence == 0;
  }

  lemma OnlyOnce(log: seq<Row>, m: nat, n: nat)
    requires ServedOnce(log) && m < |log| && n < |log| && log[m] == log[n]
    ensures m == n
  {
  }

  /** When no completed band was dated before the row, it has been served, once. */
  lemma ServedWhenNotFutureDated(trace: seq<System>, i: nat, s: Stream, r: Row)
    requires Execution(trace) && i < |trace| && s != Records && Tracked(trace[i], s)
    requires r in trace[i].store.At(s).rows && r.visible && r.rowid <= CoveredRow(trace[i].scans.At(s))
    requires forall k :: 0 <= k < |trace[i].scans.At(s).done| ==> UntilEnd(trace[i].scans.At(s).done[k].end, r)
    ensures exists n :: 0 <= n < |trace[i].scans.At(s).log| && trace[i].scans.At(s).log[n] == r
                && forall m :: 0 <= m < |trace[i].scans.At(s).log| && trace[i].scans.At(s).log[m] == r ==> m == n
  {
    var band := ExactlyOnce(trace, i, s, r);
    var log := trace[i].scans.At(s).log;
    var n :| 0 <= n < |log| && log[n] == r;
    forall m | 0 <= m < |log| && log[m] == r ensures m == n {
      OnlyOnce(log, m, n);
    }
  }

  lemma ScanGrows(scan: Scan, c: SavedCursor, s: Stream, page: seq<Row>, full: bool, next: Watermark)
    ensures scan.done <= ScanAfter(scan, c, s, page, full, next).done
  {
  }

  lemma RunGrows(a: System, run: RunInput, o: Outcome, b: System, s: Stream)
    requires RunStep(a, run, o, b)
    ensures a.scans.At(s).done <= b.scans.At(s).done
  {
    ScanGrows(a.scans.At(s), o.cursor, s, PageOf(run, o, s), o.full, o.next);
  }

  lemma DoneOnlyGrows(a: System, b: System, s: Stream)
    requires Next(a, b)
    ensures a.scans.At(s).done <= b.scans.At(s).done
  {
    if !WritersStep(a, b) {
      var run, o :| RunsTo(a, run, o, b);
      RunGrows(a, run, o, b, s);
    }
  }

  ghost predicate Chain(dones: seq<seq<Band>>) {
    forall k :: 0 <= k < |dones| - 1 ==> dones[k] <= dones[k + 1]
  }

  lemma {:induction false} PrefixOfLater(dones: seq<seq<Band>>, i: nat, j: nat)
    requires Chain(dones) && i <= j < |dones|
    ensures dones[i] <= dones[j]
    decreases j
  {
    if i < j {
      PrefixOfLater(dones, i, j - 1);
      assert dones[j - 1] <= dones[j - 1 + 1];
    }
  }

  lemma DoneIsPrefix(trace: seq<System>, i: nat, j: nat, s: Stream)
    requires Execution(trace) && i <= j < |trace|
    ensures trace[i].scans.At(s).done <= trace[j].scans.At(s).done
  {
    var dones := seq(|trace|, k requires 0 <= k < |trace| => trace[k].scans.At(s).done);
    forall k | 0 <= k < |trace| - 1 ensures dones[k] <= dones[k + 1] {
      DoneOnlyGrows(trace[k], trace[k + 1], s);
    }
    PrefixOfLater(dones, i, j);
  }

  /** Now or never: once the completed frontier has passed a row, no later run serves it. */
  lemma NowOrNever(trace: seq<System>, i: nat, j: nat, s: Stream, r: Row)
    requires Execution(trace) && i <= j < |trace| && s != Records && Tracked(trace[i], s) && Tracked(trace[j], s)
    requires r in trace[i].store.At(s).rows && r in trace[j].store.At(s).rows && r.visible
    requires r.rowid <= CoveredRow(trace[i].scans.At(s))
    ensures r in trace[j].scans.At(s).log <==> r in trace[i].scans.At(s).log
  {
    var band := ExactlyOnce(trace, i, s, r);
    DoneIsPrefix(trace, i, j, s);
    InvAlways(trace, j);
    var scan := trace[j].scans.At(s);
    assert StreamInv(trace[j], s) && trace[j].store.At(s).lastSequence == 0;
    assert ScanInv(trace[j].store.At(s), scan) && RowHolds(scan, r) && DoneHolds(scan, band, r);
    assert trace[i].scans.At(s).done[band] == scan.done[band];
  }

  /** No lost update: a memory record visible now, whose last change has a sequence the completed
      scans reached, has been served in exactly this state, and no version was served twice. */
  lemma NoLostUpdate(trace: seq<System>, i: nat, r: Row)
    requires Execution(trace) && i < |trace|
    requires r in trace[i].store.records.rows && r.visible
    requires 0 < r.sequence <= CoveredSeq(trace[i].scans.records)
    ensures r in trace[i].scans.records.log && ServedOnce(trace[i].scans.records.log)
  {
    InvAlways(trace, i);
    assert StreamInv(trace[i], Records);
    ChangedIsServed(trace[i].store.records, trace[i].scans.records, r, |trace[i].scans.records.done|);
  }

  /** A record inserted without a mutation sequence is covered by its rowid instead. */
  lemma InsertedRecordServed(trace: seq<System>, i: nat, r: Row) returns (band: nat)
    requires Execution(trace) && i < |trace|
    requires r in trace[i].store.records.rows && r.visible && r.sequence == 0
    requires r.rowid <= CoveredRow(trace[i].scans.records)
    ensures var scan := trace[i].scans.records;
            && band < |scan.done| && Answers(scan.done[band], r)
            && (r in scan.log <==> UntilEnd(scan.done[band].end, r))
  {
    InvAlways(trace, i);
    var scan := trace[i].scans.At(Records);
    assert StreamInv(trace[i], Records);
    assert |scan.done| > 0 && ValidTable(trace[i].store.At(Records));
    band := CoveredIsAnswered(scan.done, r);
    assert RowHolds(scan, r) && DoneHolds(scan, band, r);
  }

  // ---- every band ends

  /** Rows of one stream a draining cursor has not delivered yet. */
  function UndeliveredRows(store: Store, c: SavedCursor, s: Stream): seq<Row> {
    Matching(store.At(s).rows, QueryFor(c, s, if c.upperUnbounded then None else c.upperBound))
  }

  function Undelivered(store: Store, c: SavedCursor, s: Stream): nat {
    |UndeliveredRows(store, c, s)|
  }

  function UndeliveredAll(store: Store, c: SavedCursor): nat {
    Undelivered(store, c, Turns) + Undelivered(store, c, Conclusions) + Undelivered(store, c, Checkpoints)
    + Undelivered(store, c, Sources) + Undelivered(store, c, Records)
  }

  lemma UndeliveredAre(store: Store, c: SavedCursor, s: Stream)
    requires Draining(c) && ValidStore(store)
    ensures Ordered(UndeliveredRows(store, c, s))
    ensures forall r :: r in UndeliveredRows(store, c, s)
                   <==> r in store.At(s).rows && Wanted(BandOf(c, s), r) && Past(c.positions.At(s), r)
  {
    var now := Stamp(0, None);
    var q := QueryFor(c, s, QueryEnd(c, now, None));
    assert ValidTable(store.At(s));
    MatchingIsExact(store.At(s).rows, q);
    forall r | r in store.At(s).rows
      ensures Matches(q, r) <==> Wanted(BandOf(c, s), r) && Past(c.positions.At(s), r)
    {
      MatchesIsBand(c, now, None, s, r);
    }
  }

  lemma BandRowWasThere(a: Table, b: Table, band: Band, r: Row)
    requires Evolves(a, b) && Reached(a, band) && r in b.rows && Wanted(band, r)
    ensures r in a.rows
  {
    Frozen(a, b, band, r);
  }

  /** Rows delivered from a band come off the undelivered ones, and writers add none meanwhile. */
  lemma StreamProgress(c: SavedCursor, c': SavedCursor, store: Store, after: Store, s: Stream, page: seq<Row>)
    requires Draining(c) && Draining(c') && StoreEvolves(store, after) && Reached(store.At(s), BandOf(c, s))
    requires c' == c.(positions := c'.positions) && c'.positions.At(s) == Furthest(c.positions.At(s), page)
    requires Selected(c, s, page) && forall r :: r in page ==> r in store.At(s).rows
    ensures Undelivered(after, c', s) + |page| <= Undelivered(store, c, s)
  {
    UndeliveredAre(store, c, s);
    UndeliveredAre(after, c', s);
    assert Evolves(store.At(s), after.At(s)) && BandOf(c', s) == BandOf(c, s) && Keyed(c.positions.At(s));
    forall r | r in UndeliveredRows(after, c', s) ensures r in UndeliveredRows(store, c, s) && r !in page {
      BandRowWasThere(store.At(s), after.At(s), BandOf(c, s), r);
      PagePassesItsRows(c.positions.At(s), page, r);
    }
    DisjointShorter(UndeliveredRows(after, c', s), page, UndeliveredRows(store, c, s));
  }

  /** Writers never add to a band being drained. */
  lemma WritersAddNothing(a: Store, b: Store, c: SavedCursor, s: Stream)
    requires StoreEvolves(a, b) && Draining(c) && Reached(a.At(s), BandOf(c, s))
    ensures Undelivered(b, c, s) <= Undelivered(a, c, s)
  {
    StreamProgress(c, c, a, b, s, []);
  }

  lemma StoreToSnapshot(store: Store, run: RunInput, s: Stream)
    requires ValidRun(store, run)
    ensures StoreEvolves(store, SnapshotFor(run.snaps, s)) && StoreEvolves(store, run.snaps.imported)
    ensures StoreEvolves(store, run.snaps.after)
  {
    var n := run.snaps;
    SnapshotsInOrder(store, run, s);
    StoreEvolvesTransitive(store, n.pin, SnapshotFor(n, s));
    StoreEvolvesTransitive(store, SnapshotFor(n, s), n.after);
    StoreEvolvesTransitive(store, n.pin, n.records);
    StoreEvolvesTransitive(store, n.records, n.imported);
  }

  lemma QueriedWasThere(c: SavedCursor, run: RunInput, store: Store, s: Stream, w: Window, r: Row)
    requires Draining(c) && Normalised(c) == c && StoreEvolves(store, SnapshotFor(run.snaps, s))
    requires Reached(store.At(s), BandOf(c, s))
    requires w == WindowOf(run.snaps, c, run.now, run.sourceEnd, run.max) && r in Queried(w, run, c, s)
    ensures r in store.At(s).rows
  {
    var limit := QueriedIsHeld(c, run, s, w);
    BandRowWasThere(store.At(s), SnapshotFor(run.snaps, s).At(s), BandOf(c, s), r);
  }

  lemma DerivedWasThere(c: SavedCursor, run: RunInput, store: Store, w: Window, r: Row)
    requires Draining(c) && Normalised(c) == c && StoreEvolves(store, run.snaps.imported)
    requires Reached(store.At(Turns), BandOf(c, Turns))
    requires w == WindowOf(run.snaps, c, run.now, run.sourceEnd, run.max) && r in ActiveRows(w.active, true)
    ensures r in store.At(Turns).rows
  {
    DerivedSelected(c, run, w, r);
    BandRowWasThere(store.At(Turns), run.snaps.imported.At(Turns), BandOf(c, Turns), r);
  }

  /** What a run delivers was in the store before it. */
  lemma DeliveredWasThere(c: SavedCursor, run: RunInput, store: Store, s: Stream, w: Window, r: Row)
    requires Draining(c) && Normalised(c) == c && Reached(store.At(s), BandOf(c, s))
    requires StoreEvolves(store, SnapshotFor(run.snaps, s)) && StoreEvolves(store, run.snaps.imported)
    requires w == WindowOf(run.snaps, c, run.now, run.sourceEnd, run.max) && r in Delivered(w, run, c, s)
    ensures r in store.At(s).rows
  {
    MergedMembers(ActiveRows(w.active, true), w.turns);
    if s == Turns && r in ActiveRows(w.active, true) {
      DerivedWasThere(c, run, store, w, r);
    } else {
      QueriedWasThere(c, run, store, s, w, r);
    }
  }

  function MovedBy(c: SavedCursor, run: RunInput, w: Window): SavedCursor {
    c.(positions := FoldedAll(c.positions, run.snaps.lookup, w))
  }

  function DeliveredCount(w: Window, run: RunInput, c: SavedCursor): nat {
    |Delivered(w, run, c, Turns)| + |Delivered(w, run, c, Conclusions)| + |Delivered(w, run, c, Checkpoints)|
    + |Delivered(w, run, c, Sources)| + |Delivered(w, run, c, Records)|
  }

  /** A window counts a turn twice only when it also derives a record from it. */
  lemma CountIsDelivered(c: SavedCursor, run: RunInput, w: Window)
    requires Normalised(c) == c && w == WindowOf(run.snaps, c, run.now, run.sourceEnd, run.max)
    ensures DeliveredCount(w, run, c) <= Count(w) <= DeliveredCount(w, run, c) + |ActiveRows(w.active, true)|
    ensures Count(w) > 0 ==> DeliveredCount(w, run, c) > 0
  {
    ActiveSplits(run.snaps, c, QueryEnd(c, run.now, run.sourceEnd), run.max, false);
    ActiveRowsCounts(w.active);
    MergedMembers(ActiveRows(w.active, true), w.turns);
    if ActiveRows(w.active, true) != [] {
      assert ActiveRows(w.active, true)[0] in Delivered(w, run, c, Turns);
    }
  }

  lemma MovedKeepsDraining(c: SavedCursor, run: RunInput, w: Window)
    requires Draining(c) && AllFollow(c, run, w)
    ensures Draining(MovedBy(c, run, w))
  {
  }

  lemma RunProgress(c: SavedCursor, run: RunInput, store: Store, s: Stream, w: Window)
    requires Draining(c) && Normalised(c) == c && Reached(store.At(s), BandOf(c, s))
    requires StoreEvolves(store, SnapshotFor(run.snaps, s)) && StoreEvolves(store, run.snaps.imported)
    requires StoreEvolves(store, run.snaps.after)
    requires w == WindowOf(run.snaps, c, run.now, run.sourceEnd, run.max) && AllFollow(c, run, w)
    requires Selected(c, s, Delivered(w, run, c, s))
    ensures Undelivered(run.snaps.after, MovedBy(c, run, w), s) + |Delivered(w, run, c, s)| <= Undelivered(store, c, s)
  {
    var page := Delivered(w, run, c, s);
    forall r | r in page ensures r in store.At(s).rows {
      DeliveredWasThere(c, run, store, s, w, r);
    }
    MovedKeepsDraining(c, run, w);
    StreamProgress(c, MovedBy(c, run, w), store, run.snaps.after, s, page);
  }

  /** A draining watermark is pinned unchanged. */
  lemma DrainingIsPinned(a: System, run: RunInput, c: SavedCursor, s: Stream)
    requires Inv(a) && a.watermark == Some(Encoded(c)) && Draining(c)
    ensures Pinned(run.snaps.pin, a.watermark, run.now, run.unbounded) == c && Normalised(c) == c
    ensures a.scans.At(s).current == Some(BandOf(c, s)) && Reached(a.store.At(s), BandOf(c, s))
  {
    assert StreamInv(a, s);
  }

  /** Each window comes off the undelivered rows, whatever writers do meanwhile. */
  lemma UndeliveredFalls(a: System, run: RunInput, c: SavedCursor, w: Window)
    requires Inv(a) && ValidRun(a.store, run) && a.watermark == Some(Encoded(c)) && Draining(c)
    requires w == WindowOf(run.snaps, c, run.now, run.sourceEnd, run.max) && AllFound(run, w)
    ensures UndeliveredAll(run.snaps.after, MovedBy(c, run, w)) + DeliveredCount(w, run, c)
          <= UndeliveredAll(a.store, c)
    ensures DeliveredCount(w, run, c) <= Count(w) <= DeliveredCount(w, run, c) + |ActiveRows(w.active, true)|
    ensures Count(w) > 0 ==> DeliveredCount(w, run, c) > 0
  {
    DrainingIsPinned(a, run, c, Turns);
    PositionsKeyed(c, run, a.store, w);
    CountIsDelivered(c, run, w);
    forall s: Stream
      ensures Undelivered(run.snaps.after, MovedBy(c, run, w), s) + |Delivered(w, run, c, s)|
              <= Undelivered(a.store, c, s)
    {
      DrainingIsPinned(a, run, c, s);
      StoreToSnapshot(a.store, run, s);
      DeliveredSelected(c, run, a.store, s, w);
      RunProgress(c, run, a.store, s, w);
    }
  }

  lemma FullRunMoves(c: SavedCursor, run: RunInput, w: Window)
    requires Draining(c)
    ensures WatermarkAfter(run.snaps.lookup, run.snaps.after, Some(Encoded(c)), w, run.now, true)
         == Encoded(MovedBy(c, run, w))
  {
  }

  lemma EndOfScan(scan: Scan, c: SavedCursor, s: Stream, page: seq<Row>, full: bool, next: Watermark)
    requires scan.current == Some(BandOf(c, s))
    ensures ScanAfter(scan, c, s, page, full, next).done == scan.done + if full then [] else [BandOf(c, s)]
  {
  }

  /** A run that is not full completes the band in every stream and a full one stays in it: with
      UndeliveredFalls, the undelivered row count is a termination measure of each band. */
  lemma BandProgress(a: System, run: RunInput, o: Outcome, b: System, c: SavedCursor, s: Stream)
    requires Inv(a) && Computes(a, run, o) && RunStep(a, run, o, b)
    requires a.watermark == Some(Encoded(c)) && Draining(c)
    ensures o.full ==> b.watermark == Some(Encoded(MovedBy(c, run, o.window)))
    ensures b.scans.At(s).done == a.scans.At(s).done + if o.full then [] else [BandOf(c, s)]
  {
    DrainingIsPinned(a, run, c, s);
    FullRunMoves(c, run, o.window);
    EndOfScan(a.scans.At(s), c, s, PageOf(run, o, s), o.full, o.next);
  }

  // ---- a band ends

  /** What may happen while a band is being drained: writers act, or a full run. */
  datatype Move = Writers | FullRun(run: RunInput, o: Outcome)

  ghost predicate Moves(a: System, m: Move, b: System) {
    match m
    case Writers => WritersStep(a, b)
    case FullRun(run, o) => RunsTo(a, run, o, b) && o.full
  }

  /** A stretch of an execution. */
  datatype Path = Here(at: System) | Then(at: System, move: Move, rest: Path)

  ghost predicate ValidPath(p: Path) {
    p.Then? ==> Moves(p.at, p.move, p.rest.at) && ValidPath(p.rest)
  }

  /** Whether a move serves anything; an unlimited run that is full always does. */
  predicate Delivers(m: Move) {
    m.FullRun? && Count(m.o.window) > 0
  }

  function Batches(p: Path): nat {
    if p.Here? then 0 else (if Delivers(p.move) then 1 else 0) + Batches(p.rest)
  }

  ghost predicate InBandOf(sys: System, c: SavedCursor) {
    Inv(sys) && sys.watermark == Some(Encoded(c)) && Draining(c)
  }

  lemma WritersStay(a: System, b: System, c: SavedCursor)
    requires InBandOf(a, c) && WritersStep(a, b)
    ensures InBandOf(b, c) && UndeliveredAll(b.store, c) <= UndeliveredAll(a.store, c)
  {
    WritersKeepInv(a, b);
    forall s: Stream ensures Undelivered(b.store, c, s) <= Undelivered(a.store, c, s) {
      assert StreamInv(a, s);
      WritersAddNothing(a.store, b.store, c, s);
    }
  }

  lemma FullRunStays(a: System, run: RunInput, o: Outcome, b: System, c: SavedCursor) returns (c': SavedCursor)
    requires InBandOf(a, c) && RunsTo(a, run, o, b) && o.full
    ensures InBandOf(b, c')
    ensures UndeliveredAll(b.store, c') + (if Count(o.window) > 0 then 1 else 0) <= UndeliveredAll(a.store, c)
  {
    c' := MovedBy(c, run, o.window);
    DrainingIsPinned(a, run, c, Turns);
    PositionsKeyed(c, run, a.store, o.window);
    MovedKeepsDraining(c, run, o.window);
    BandProgress(a, run, o, b, c, Turns);
    UndeliveredFalls(a, run, c, o.window);
    RunKeepsInv(a, run, o, b);
  }

  lemma MoveStays(a: System, m: Move, b: System, c: SavedCursor) returns (c': SavedCursor)
    requires InBandOf(a, c) && Moves(a, m, b)
    ensures InBandOf(b, c')
    ensures UndeliveredAll(b.store, c') + (if Delivers(m) then 1 else 0) <= UndeliveredAll(a.store, c)
  {
    match m
    case Writers =>
      WritersStay(a, b, c);
      c' := c;
    case FullRun(run, o) =>
      c' := FullRunStays(a, run, o, b, c);
  }

  /** Every band ends: whatever writers do in between, no more batches are delivered in one band than
      it has undelivered rows; a run that is not full then completes it in every stream (BandProgress). */
  lemma {:induction false} EveryBandEnds(p: Path, c: SavedCursor)
    requires ValidPath(p) && InBandOf(p.at, c)
    ensures Batches(p) <= UndeliveredAll(p.at.store, c)
  {
    if p.Then? {
      var c' := MoveStays(p.at, p.move, p.rest.at, c);
      EveryBandEnds(p.rest, c');
    }
  }

  lemma NothingDelivered(c: SavedCursor, run: RunInput, store: Store, s: Stream, w: Window)
    requires Draining(c) && Normalised(c) == c && Reached(store.At(s), BandOf(c, s)) && Undelivered(store, c, s) == 0
    requires StoreEvolves(store, SnapshotFor(run.snaps, s)) && StoreEvolves(store, run.snaps.imported)
    requires w == WindowOf(run.snaps, c, run.now, run.sourceEnd, run.max)
    requires Selected(c, s, Delivered(w, run, c, s))
    ensures Delivered(w, run, c, s) == []
  {
    UndeliveredAre(store, c, s);
    forall r | r in Delivered(w, run, c, s) ensures r in UndeliveredRows(store, c, s) {
      DeliveredWasThere(c, run, store, s, w, r);
    }
    Inhabited(Delivered(w, run, c, s));
  }

  lemma NothingLeft(a: System, run: RunInput, c: SavedCursor, s: Stream, w: Window)
    requires Inv(a) && ValidRun(a.store, run) && a.watermark == Some(Encoded(c)) && Draining(c)
    requires w == WindowOf(run.snaps, c, run.now, run.sourceEnd, run.max) && Undelivered(a.store, c, s) == 0
    ensures Delivered(w, run, c, s) == []
  {
    DrainingIsPinned(a, run, c, s);
    StoreToSnapshot(a.store, run, s);
    DeliveredSelected(c, run, a.store, s, w);
    NothingDelivered(c, run, a.store, s, w);
  }

  lemma NoneUndelivered(store: Store, c: SavedCursor, s: Stream)
    requires UndeliveredAll(store, c) == 0
    ensures Undelivered(store, c, s) == 0
  {
  }

  lemma NoneDelivered(w: Window, run: RunInput, c: SavedCursor)
    requires Normalised(c) == c && w == WindowOf(run.snaps, c, run.now, run.sourceEnd, run.max)
    requires forall s: Stream :: Delivered(w, run, c, s) == []
    ensures Count(w) == 0
  {
    CountIsDelivered(c, run, w);
  }

  lemma NothingLeftAtAll(a: System, run: RunInput, c: SavedCursor, w: Window)
    requires Inv(a) && ValidRun(a.store, run) && a.watermark == Some(Encoded(c)) && Draining(c) && Normalised(c) == c
    requires w == WindowOf(run.snaps, c, run.now, run.sourceEnd, run.max) && UndeliveredAll(a.store, c) == 0
    ensures Count(w) == 0
  {
    forall s: Stream ensures Delivered(w, run, c, s) == [] {
      NoneUndelivered(a.store, c, s);
      NothingLeft(a, run, c, s, w);
    }
    NoneDelivered(w, run, c);
  }

  /** A band with nothing left to deliver is completed by the next run that is not limited. */
  lemma DrainedBandEnds(a: System, run: RunInput, o: Outcome, c: SavedCursor)
    requires Inv(a) && ValidRun(a.store, run) && Computes(a, run, o) && !run.limited
    requires a.watermark == Some(Encoded(c)) && Draining(c) && UndeliveredAll(a.store, c) == 0
    ensures Count(o.window) == 0 && !o.full
  {
    DrainingIsPinned(a, run, c, Turns);
    NothingLeftAtAll(a, run, c, o.window);
  }
}
