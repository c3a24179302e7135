/** Whole executions of the Dreamer scheduler: writers and scheduled runs interleave over one store. */
module DreamProtocol {
  import opened Basics
  import opened DreamRows
  import opened DreamBand
  import opened DreamCursor
  import opened DreamWindow

  // ---- states and steps

  /** Only memory records carry mutation sequences. */
  ghost predicate ValidStore(store: Store) {
    forall s: Stream :: ValidTable(store.At(s)) && (s != Records ==> store.At(s).lastSequence == 0)
  }

  ghost predicate StoreEvolves(a: Store, b: Store) {
    ValidStore(a) && ValidStore(b) && forall s: Stream :: Evolves(a.At(s), b.At(s))
  }

  /** The stored watermark, with the history of what each stream has delivered.  `clean` says that no
      run so far passed over a visible turn (NoTurnLost). */
  datatype System = System(store: Store, watermark: Option<Watermark>, scans: PerStream<Scan>, clean: bool)

  /** One scheduled run: what it saw and how it was configured.  `limited` says the page was cut
      below the configured batch, so it counts as full whatever it returned. */
  datatype RunInput = RunInput(
    snaps: Snapshots, now: Stamp, sourceEnd: Option<Stamp>, unbounded: bool, max: nat, limited: bool)

  function SnapshotFor(snaps: Snapshots, s: Stream): Store {
    match s
    case Turns => snaps.turns
    case Conclusions => snaps.conclusions
    case Checkpoints => snaps.checkpoints
    case Sources => snaps.sources
    case Records => snaps.records
  }

  /** Writers may act between any two transactions of a run. */
  ghost predicate ValidRun(store: Store, run: RunInput) {
    var n := run.snaps;
    && run.max > 0
    && StoreEvolves(store, n.pin) && StoreEvolves(n.pin, n.records) && StoreEvolves(n.records, n.imported)
    && StoreEvolves(n.imported, n.turns) && StoreEvolves(n.turns, n.conclusions)
    && StoreEvolves(n.conclusions, n.checkpoints) && StoreEvolves(n.checkpoints, n.sources)
    && StoreEvolves(n.sources, n.lookup) && StoreEvolves(n.lookup, n.after)
  }

  /** What a run computes: the pinned cursor, the window it selects, whether that is full, and the
      watermark it stores. */
  datatype Outcome = Outcome(cursor: SavedCursor, window: Window, full: bool, next: Watermark)

  ghost predicate Computes(a: System, run: RunInput, o: Outcome) {
    && o.cursor == Pinned(run.snaps.pin, a.watermark, run.now, run.unbounded)
    && o.window == WindowOf(run.snaps, o.cursor, run.now, run.sourceEnd, run.max)
    && o.full == (run.limited || Count(o.window) >= run.max)
    && o.next == WatermarkAfter(run.snaps.lookup, run.snaps.after, Some(Encoded(o.cursor)), o.window, run.now, o.full)
  }

  /** The rows of one stream in a window: a turn may stand in it as itself and as a derived record. */
  function SourcesOf(w: Window, s: Stream): seq<Row> {
    match s
    case Turns => w.turns + ActiveRows(w.active, true)
    case Conclusions => w.conclusions
    case Checkpoints => w.checkpoints
    case Sources => w.sources
    case Records => ActiveRows(w.active, false)
  }

  /** What the query of a stream returned, in query order. */
  function Queried(w: Window, run: RunInput, c: SavedCursor, s: Stream): seq<Row> {
    match s
    case Turns => w.turns
    case Conclusions => w.conclusions
    case Checkpoints => w.checkpoints
    case Sources => w.sources
    case Records =>
      Page(run.snaps.records, Normalised(c), Records, QueryEnd(Normalised(c), run.now, run.sourceEnd), run.max)
  }

  /** The rows a run delivers from one stream, once each and in query order. */
  function Delivered(w: Window, run: RunInput, c: SavedCursor, s: Stream): seq<Row> {
    if s == Turns then Merged(ActiveRows(w.active, true), w.turns) else Queried(w, run, c, s)
  }

  function PageOf(run: RunInput, o: Outcome, s: Stream): seq<Row> {
    Delivered(o.window, run, o.cursor, s)
  }

  ghost predicate FoundIn(known: seq<Row>, sources: seq<Row>) {
    forall r :: r in sources ==> exists k :: k in known && k.id == r.id && k.rowid == r.rowid
  }

  ghost predicate AllFound(run: RunInput, w: Window) {
    forall s: Stream :: FoundIn(run.snaps.lookup.At(s).rows, SourcesOf(w, s))
  }

  /** The rows of a full window still have their rowids when the run looks them up. */
  ghost predicate SourcesRemain(run: RunInput, o: Outcome) {
    o.full ==> AllFound(run, o.window)
  }

  function BandOf(c: SavedCursor, s: Stream): Band {
    Band(if c.lowerRowids.Some? then c.lowerRowids.value.rowids.At(s) else 0,
         if c.upperRowids.Some? then c.upperRowids.value.rowids.At(s) else 0,
         if c.upperUnbounded then None else c.upperBound,
         if s == Records && c.mutationLower.Some? then c.mutationLower.value else 0,
         if s == Records && c.mutationUpper.Some? then c.mutationUpper.value else 0)
  }

  /** A turn of the band that the window does not hold is still ahead of the position stored next. */
  ghost predicate StillAhead(c: SavedCursor, run: RunInput, w: Window, r: Row) {
    Wanted(BandOf(c, Turns), r) && Past(c.positions.turns, r) && r !in SourcesOf(w, Turns) ==>
      Past(FoldedAll(c.positions, run.snaps.lookup, w).turns, r)
  }

  ghost predicate AllAhead(c: SavedCursor, run: RunInput, w: Window) {
    forall r :: r in run.snaps.turns.turns.rows ==> StillAhead(c, run, w, r)
  }

  ghost predicate DerivedStay(run: RunInput, w: Window) {
    forall r :: r in ActiveRows(w.active, true) ==> r in run.snaps.turns.turns.rows
  }

  /** A run passes over no turn: the turns it derived records from are still in the table it reads
      turns from, and moving the position leaves every undelivered turn ahead of it. */
  ghost predicate NoTurnLost(c: SavedCursor, run: RunInput, w: Window, full: bool) {
    DerivedStay(run, w) && (full ==> AllAhead(c, run, w))
  }

  function PinScan(scan: Scan, c: SavedCursor, s: Stream): Scan {
    if scan.current.None? then Started(scan, BandOf(c, s)) else scan
  }

  /** A run that was not full ends the band and may open the next one. */
  function Ended(scan: Scan, s: Stream, full: bool, next: Watermark): Scan {
    if full || scan.current.None? then scan
    else if next.Encoded? && InBand(next.cursor) then Started(Finished(scan), BandOf(next.cursor, s))
    else Finished(scan)
  }

  /** The history after a run: the page is appended, and the band ends unless the run was full. */
  function ScanAfter(scan: Scan, c: SavedCursor, s: Stream, page: seq<Row>, full: bool, next: Watermark): Scan {
    Ended(Served(PinScan(scan, c, s), page), s, full, next)
  }

  ghost predicate RunStep(a: System, run: RunInput, o: Outcome, b: System) {
    && b.store == run.snaps.after
    && b.watermark == Some(o.next)
    && (forall s: Stream ::
          b.scans.At(s) == ScanAfter(a.scans.At(s), o.cursor, s, PageOf(run, o, s), o.full, o.next))
    && (b.clean <==> a.clean && NoTurnLost(o.cursor, run, o.window, o.full))
  }

  ghost predicate Initial(sys: System) {
    && ValidStore(sys.store) && sys.watermark == None && sys.clean
    && forall s: Stream :: sys.scans.At(s) == Scan([], None, None, [])
  }

  ghost predicate WritersStep(a: System, b: System) {
    StoreEvolves(a.store, b.store) && b == a.(store := b.store)
  }

  ghost predicate RunsTo(a: System, run: RunInput, o: Outcome, b: System) {
    ValidRun(a.store, run) && Computes(a, run, o) && SourcesRemain(run, o) && RunStep(a, run, o, b)
  }

  /** A run that stores no watermark is no step beyond what writers do. */
  ghost predicate Next(a: System, b: System) {
    WritersStep(a, b) || exists run, o :: RunsTo(a, run, o, b)
  }

  ghost predicate Execution(trace: seq<System>) {
    trace != [] && Initial(trace[0]) && forall i :: 0 <= i < |trace| - 1 ==> Next(trace[i], trace[i + 1])
  }

  // ---- the invariant

  /** A resumable cursor of the current format. */
  predicate Draining(c: SavedCursor) {
    && InBand(c) && c.upperRowids.Some? && c.mutationLower.Some? && c.mutationUpper.Some?
    && !HasLegacyPosition(c.positions) && !(c.upperUnbounded && c.upperBound.Some?)
    && (c.lowerRowids.None? ==> c.lowerBound.None? && !c.postFrontier)
    && (c.lowerRowids.Some? ==> c.lowerBound.Some? && c.lowerStrict && c.postFrontier && !c.upperUnbounded)
  }

  predicate Resting(c: SavedCursor) {
    && AtRest(c) && !c.upperUnbounded && c.upperRowids.None? && c.lowerBound.Some?
    && c.mutationLower.Some? && c.mutationUpper.None? && c.positions == NO_POSITIONS
  }

  /** The history of a stream agrees with the stored cursor. */
  ghost predicate Agrees(scan: Scan, watermark: Option<Watermark>, s: Stream) {
    match watermark
    case None => scan.done == [] && scan.current.None?
    case Some(Timestamp(_)) => false
    case Some(Encoded(c)) =>
      || (Draining(c) && scan.current == Some(BandOf(c, s)) && scan.position == c.positions.At(s))
      || (Resting(c) && scan.current.None?
          && CoveredRow(scan) == c.lowerRowids.value.rowids.At(s)
          && CoveredSeq(scan) == if s == Records then c.mutationLower.value else 0)
  }

  /** The band being drained ends at a frontier the table has reached. */
  predicate Reached(t: Table, b: Band) {
    Within(t.lastRowid, t.lastSequence, HighCorner(b))
  }

  predicate CurrentReached(t: Table, scan: Scan) {
    scan.current.Some? ==> Reached(t, scan.current.value)
  }

  /** The delivery history of a stream is kept, unless turns were passed over. */
  predicate Tracked(sys: System, s: Stream) {
    s != Turns || sys.clean
  }

  ghost predicate StreamInv(sys: System, s: Stream) {
    var t, scan := sys.store.At(s), sys.scans.At(s);
    && Agrees(scan, sys.watermark, s)
    && CurrentReached(t, scan)
    && (Tracked(sys, s) ==> ScanInv(t, scan))
  }

  ghost predicate Inv(sys: System) {
    ValidStore(sys.store) && forall s: Stream :: StreamInv(sys, s)
  }

  // ---- one run, stream by stream

  /** Under a draining cursor the query filter is exactly the band, past the stored position. */
  lemma MatchesIsBand(c: SavedCursor, now: Stamp, sourceEnd: Option<Stamp>, s: Stream, r: Row)
    requires Draining(c) && 0 < r.rowid && (s != Records ==> r.sequence == 0)
    ensures Normalised(c) == c
    ensures Matches(QueryFor(c, s, QueryEnd(c, now, sourceEnd)), r)
        <==> Wanted(BandOf(c, s), r) && Past(c.positions.At(s), r)
  {
    var q := QueryFor(c, s, QueryEnd(c, now, sourceEnd));
    assert UntilEnd(q.end, r) == UntilEnd(BandOf(c, s).end, r);
  }

  lemma InFrontOrBehind(all: seq<Row>, k: nat, r: Row)
    requires k <= |all| && r in all
    ensures r in all[..k] || exists j :: k <= j < |all| && all[j] == r
  {
    var i :| 0 <= i < |all| && all[i] == r;
    assert i < k ==> all[..k][i] == r;
  }

  lemma BehindPage(all: seq<Row>, limit: nat, r: Row)
    requires Ordered(all) && r in all
    ensures var page := if |all| <= limit then all else all[..limit];
            r !in page ==> |page| == limit && (page != [] ==> Before(page[|page| - 1], r))
  {
    if |all| > limit {
      InFrontOrBehind(all, limit, r);
    }
  }

  lemma PageIsPage(store: Store, c: SavedCursor, now: Stamp, sourceEnd: Option<Stamp>, s: Stream, limit: nat)
    requires Draining(c) && ValidStore(store)
    ensures var end := QueryEnd(c, now, sourceEnd);
            var page := Page(store, c, s, end, limit);
            && IsPage(store.At(s).rows, BandOf(c, s), c.positions.At(s), limit, page)
            && (page == Matching(store.At(s).rows, QueryFor(c, s, end)) ==>
                  Drained(store.At(s).rows, BandOf(c, s), Furthest(c.positions.At(s), page)))
  {
    var end := QueryEnd(c, now, sourceEnd);
    var rows := store.At(s).rows;
    var q := QueryFor(c, s, end);
    var page := Page(store, c, s, end, limit);
    MatchingIsExact(rows, q);
    forall r | r in rows
      ensures Matches(q, r) <==> Wanted(BandOf(c, s), r) && Past(c.positions.At(s), r)
    {
      MatchesIsBand(c, now, sourceEnd, s, r);
    }
    var all := Matching(rows, q);
    forall r | r in all && r !in page ensures |page| == limit && (page != [] ==> Before(page[|page| - 1], r)) {
      BehindPage(all, limit, r);
    }
    forall r | r in rows && Wanted(BandOf(c, s), r)
      ensures page == all ==> !Past(Furthest(c.positions.At(s), page), r)
    {
      PagePassesItsRows(c.positions.At(s), page, r);
    }
  }

  lemma {:induction false} RowidFound(rows: seq<Row>, k: Row)
    requires k in rows && Distinct(rows)
    ensures RowidOf(rows, k.id) == Some(k.rowid)
  {
    if rows[0].id != k.id {
      assert k in rows[1..] by {
        var i :| 0 <= i < |rows| && rows[i] == k;
        assert rows[1..][i - 1] == k;
      }
      RowidFound(rows[1..], k);
    } else {
      var i :| 0 <= i < |rows| && rows[i] == k;
      assert i == 0;
    }
  }

  lemma FoldIsFurthest(slot: Option<Position>, page: seq<Row>, sources: seq<Row>, known: seq<Row>)
    requires Keyed(slot) && Ordered(page) && SameMembers(page, sources)
    requires forall r :: r in page ==> Past(slot, r) && RowidOf(known, r.id) == Some(r.rowid)
    ensures Folded(slot, sources, known) == Furthest(slot, page)
  {
    if sources == [] {
      Inhabited(page);
    } else {
      var last := FoldReachesLast(slot, sources, known);
      assert last in page;
      var end := page[|page| - 1];
      assert end in page;
      var i :| 0 <= i < |page| && page[i] == last;
      assert i < |page| - 1 ==> Before(last, end);
      assert !Before(last, end) && last == end;
    }
  }

  lemma StoreEvolvesTransitive(a: Store, b: Store, c: Store)
    requires StoreEvolves(a, b) && StoreEvolves(b, c)
    ensures StoreEvolves(a, c)
  {
    forall s: Stream ensures Evolves(a.At(s), c.At(s)) {
      EvolvesTransitive(a.At(s), b.At(s), c.At(s));
    }
  }

  /** Each snapshot of a run lies between its start and its end. */
  lemma SnapshotsInOrder(store: Store, run: RunInput, s: Stream)
    requires ValidRun(store, run)
    ensures StoreEvolves(run.snaps.pin, SnapshotFor(run.snaps, s))
    ensures StoreEvolves(SnapshotFor(run.snaps, s), run.snaps.after)
  {
    var n := run.snaps;
    StoreEvolvesTransitive(n.sources, n.lookup, n.after);
    StoreEvolvesTransitive(n.checkpoints, n.sources, n.after);
    StoreEvolvesTransitive(n.conclusions, n.checkpoints, n.after);
    StoreEvolvesTransitive(n.turns, n.conclusions, n.after);
    StoreEvolvesTransitive(n.imported, n.turns, n.after);
    StoreEvolvesTransitive(n.records, n.imported, n.after);
    StoreEvolvesTransitive(n.pin, n.records, n.imported);
    StoreEvolvesTransitive(n.pin, n.imported, n.turns);
    StoreEvolvesTransitive(n.pin, n.turns, n.conclusions);
    StoreEvolvesTransitive(n.pin, n.conclusions, n.checkpoints);
    StoreEvolvesTransitive(n.pin, n.checkpoints, n.sources);
  }

  function HighSeqOf(store: Store, s: Stream): nat {
    if s == Records then store.records.lastSequence else 0
  }

  lemma FrontierIsMax(store: Store, s: Stream)
    ensures FrontierOf(store).rowids.At(s) == MaxRowid(store.At(s).rows)
  {
  }

  lemma FrontierIsReached(store: Store, s: Stream, b: Band)
    requires ValidStore(store) && b.highRow == MaxRowid(store.At(s).rows) && b.highSeq == HighSeqOf(store, s)
    ensures Reached(store.At(s), b)
  {
    assert ValidTable(store.At(s));
  }

  lemma PinnedDrains(pin: Store, scan: Scan, watermark: Option<Watermark>, now: Stamp, unbounded: bool, s: Stream)
    requires Agrees(scan, watermark, s)
    ensures var c := Pinned(pin, watermark, now, unbounded);
            && Draining(c) && Normalised(c) == c
            && (scan.current.Some? ==> scan.current == Some(BandOf(c, s)) && scan.position == c.positions.At(s))
            && (scan.current.None? ==> c.positions == NO_POSITIONS)
  {
  }

  lemma PinnedBand(pin: Store, scan: Scan, watermark: Option<Watermark>, now: Stamp, unbounded: bool, s: Stream)
    requires Agrees(scan, watermark, s) && scan.current.None?
    ensures var band := BandOf(Pinned(pin, watermark, now, unbounded), s);
            band == Band(CoveredRow(scan), MaxRowid(pin.At(s).rows), band.end, CoveredSeq(scan), HighSeqOf(pin, s))
  {
    FrontierIsMax(pin, s);
  }

  /** The history of a stream once the band of the cursor is pinned. */
  ghost predicate PinHolds(pin: Store, scan: Scan, c: SavedCursor, s: Stream) {
    var pinned := PinScan(scan, c, s);
    pinned.current == Some(BandOf(c, s)) && pinned.position == c.positions.At(s) && Reached(pin.At(s), BandOf(c, s))
  }

  /** Pinning yields a draining cursor, and the history of a stream follows it. */
  lemma PinningKeepsStream(pin: Store, scan: Scan, watermark: Option<Watermark>, now: Stamp, unbounded: bool,
        s: Stream, c: SavedCursor)
    requires ValidStore(pin) && Agrees(scan, watermark, s) && c == Pinned(pin, watermark, now, unbounded)
    requires CurrentReached(pin.At(s), scan)
    ensures Draining(c) && Normalised(c) == c && PinHolds(pin, scan, c, s)
    ensures ScanInv(pin.At(s), scan) ==> ScanInv(pin.At(s), PinScan(scan, c, s))
  {
    PinnedDrains(pin, scan, watermark, now, unbounded, s);
    if scan.current.None? {
      PinnedBand(pin, scan, watermark, now, unbounded, s);
      FrontierIsReached(pin, s, BandOf(c, s));
      if ScanInv(pin.At(s), scan) {
        CoveredWithin(pin.At(s), scan);
        StartKeepsScan(pin.At(s), scan, BandOf(c, s).end, HighSeqOf(pin, s));
      }
    }
  }

  lemma PinningKeeps(sys: System, run: RunInput, s: Stream, c: SavedCursor)
    requires Inv(sys) && ValidRun(sys.store, run)
    requires c == Pinned(run.snaps.pin, sys.watermark, run.now, run.unbounded)
    ensures Draining(c) && Normalised(c) == c && PinHolds(run.snaps.pin, sys.scans.At(s), c, s)
    ensures Tracked(sys, s) ==> ScanInv(run.snaps.pin.At(s), PinScan(sys.scans.At(s), c, s))
  {
    assert StreamInv(sys, s) && Evolves(sys.store.At(s), run.snaps.pin.At(s));
    if Tracked(sys, s) {
      WritersKeepScan(sys.store.At(s), run.snaps.pin.At(s), sys.scans.At(s));
    }
    PinningKeepsStream(run.snaps.pin, sys.scans.At(s), sys.watermark, run.now, run.unbounded, s, c);
  }

  lemma CoveredWithin(t: Table, scan: Scan)
    requires ScanInv(t, scan)
    ensures CoveredSeq(scan) <= t.lastSequence
  {
    if scan.done != [] {
      assert Within(t.lastRowid, t.lastSequence, HighCorner(scan.done[|scan.done| - 1]));
    }
  }

  // ---- what a run delivers

  /** What the query of a stream returns is one page of it, and all of it when the window is short. */
  lemma QueriedIsPage(c: SavedCursor, run: RunInput, s: Stream, w: Window) returns (limit: nat)
    requires Normalised(c) == c && w == WindowOf(run.snaps, c, run.now, run.sourceEnd, run.max)
    ensures var end := QueryEnd(c, run.now, run.sourceEnd);
            var page := Queried(w, run, c, s);
            && page == Page(SnapshotFor(run.snaps, s), c, s, end, limit)
            && (Count(w) < run.max ==> page == Matching(SnapshotFor(run.snaps, s).At(s).rows, QueryFor(c, s, end)))
  {
    WindowWithinLimit(run.snaps, c, run.now, run.sourceEnd, run.max);
    var r0 := Minus(run.max, |w.active|);
    var r1 := Minus(r0, |w.turns|);
    var r2 := Minus(r1, |w.conclusions|);
    match s
    case Turns => limit := r0;
    case Conclusions => limit := r1;
    case Checkpoints => limit := r2;
    case Sources => limit := Minus(r2, |w.checkpoints|);
    case Records => limit := run.max;
  }

  /** `page` is one page of a stream's band; all of what was left when the window is short. */
  ghost predicate PageHeld(c: SavedCursor, run: RunInput, s: Stream, page: seq<Row>, limit: nat, short: bool) {
    var rows := SnapshotFor(run.snaps, s).At(s).rows;
    && IsPage(rows, BandOf(c, s), c.positions.At(s), limit, page)
    && (short ==> Drained(rows, BandOf(c, s), Furthest(c.positions.At(s), page)))
  }

  lemma QueriedIsHeld(c: SavedCursor, run: RunInput, s: Stream, w: Window) returns (limit: nat)
    requires Draining(c) && Normalised(c) == c && ValidStore(SnapshotFor(run.snaps, s))
    requires w == WindowOf(run.snaps, c, run.now, run.sourceEnd, run.max)
    ensures PageHeld(c, run, s, Queried(w, run, c, s), limit, Count(w) < run.max)
  {
    limit := QueriedIsPage(c, run, s, w);
    PageIsPage(SnapshotFor(run.snaps, s), c, run.now, run.sourceEnd, s, limit);
  }

  /** The rows delivered from a stream are exactly those the window holds of it. */
  lemma DeliveredMembers(c: SavedCursor, run: RunInput, s: Stream, w: Window)
    requires Normalised(c) == c && w == WindowOf(run.snaps, c, run.now, run.sourceEnd, run.max)
    ensures SameMembers(Delivered(w, run, c, s), SourcesOf(w, s))
  {
    if s == Turns {
      MergedMembers(ActiveRows(w.active, true), w.turns);
    } else if s == Records {
      ActiveSplits(run.snaps, c, QueryEnd(c, run.now, run.sourceEnd), run.max, false);
    }
  }

  /** In query order, inside the band and behind the position. */
  ghost predicate Selected(c: SavedCursor, s: Stream, page: seq<Row>) {
    Ordered(page) && forall r :: r in page ==> Wanted(BandOf(c, s), r) && Past(c.positions.At(s), r)
  }

  /** The turns a run derives records from lie in the band too. */
  lemma DerivedSelected(c: SavedCursor, run: RunInput, w: Window, r: Row)
    requires Draining(c) && Normalised(c) == c && ValidStore(run.snaps.imported)
    requires w == WindowOf(run.snaps, c, run.now, run.sourceEnd, run.max) && r in ActiveRows(w.active, true)
    ensures r in run.snaps.imported.turns.rows && r.imported
    ensures Wanted(BandOf(c, Turns), r) && Past(c.positions.turns, r)
  {
    var end := QueryEnd(c, run.now, run.sourceEnd);
    var page := Page(run.snaps.imported, c, Turns, end, run.max);
    ActiveSplits(run.snaps, c, end, run.max, true);
    TakeImportedBounded(page, Minus(run.max, |Page(run.snaps.records, c, Records, end, run.max)|));
    PageIsPage(run.snaps.imported, c, run.now, run.sourceEnd, Turns, run.max);
    assert r in page && c.positions.At(Turns) == c.positions.turns;
  }

  /** No turn changes between the two queries that read the table. */
  lemma SameTurn(imported: Table, turns: Table, a: Row, b: Row)
    requires Evolves(imported, turns) && turns.lastSequence == 0
    requires (a in imported.rows || a in turns.rows) && (b in imported.rows || b in turns.rows)
    requires a.visible && b.visible && a.rowid == b.rowid
    ensures a == b
  {
    if a in turns.rows && b in turns.rows {
      SameRowid(turns.rows, a, b);
    } else {
      assert a in imported.rows && b in imported.rows;
      SameRowid(imported.rows, a, b);
    }
  }

  lemma TurnsSelected(c: SavedCursor, run: RunInput, store: Store, w: Window)
    requires Draining(c) && Normalised(c) == c && ValidRun(store, run)
    requires w == WindowOf(run.snaps, c, run.now, run.sourceEnd, run.max)
    ensures Selected(c, Turns, Delivered(w, run, c, Turns))
  {
    var derived := ActiveRows(w.active, true);
    var limit := QueriedIsHeld(c, run, Turns, w);
    MergedMembers(derived, w.turns);
    forall r | r in derived
      ensures r in run.snaps.imported.turns.rows && Wanted(BandOf(c, Turns), r) && Past(c.positions.turns, r)
    {
      DerivedSelected(c, run, w, r);
    }
    var imported, turns := run.snaps.imported.At(Turns), run.snaps.turns.At(Turns);
    assert Evolves(imported, turns) && turns.lastSequence == 0;
    forall x, y | (x in derived || x in w.turns) && (y in derived || y in w.turns) && x.rowid == y.rowid
      ensures x == y
    {
      SameTurn(imported, turns, x, y);
    }
    MergedOrdered(derived, w.turns);
  }

  lemma QueriedSelected(c: SavedCursor, run: RunInput, s: Stream, w: Window)
    requires Draining(c) && Normalised(c) == c && ValidStore(SnapshotFor(run.snaps, s))
    requires w == WindowOf(run.snaps, c, run.now, run.sourceEnd, run.max)
    ensures Selected(c, s, Queried(w, run, c, s))
  {
    var limit := QueriedIsHeld(c, run, s, w);
  }

  lemma DeliveredSelected(c: SavedCursor, run: RunInput, store: Store, s: Stream, w: Window)
    requires Draining(c) && Normalised(c) == c && ValidRun(store, run)
    requires w == WindowOf(run.snaps, c, run.now, run.sourceEnd, run.max)
    ensures Selected(c, s, Delivered(w, run, c, s))
  {
    if s == Turns {
      TurnsSelected(c, run, store, w);
    } else {
      SnapshotsInOrder(store, run, s);
      QueriedSelected(c, run, s, w);
    }
  }

  lemma FoldedAllAt(p: PerStream<Option<Position>>, lookup: Store, w: Window, s: Stream)
    ensures FoldedAll(p, lookup, w).At(s) == Folded(p.At(s), SourcesOf(w, s), lookup.At(s).rows)
  {
    FoldedJoin(p.turns, w.turns, ActiveRows(w.active, true), lookup.turns.rows);
  }

  /** A full run leaves each position at the last row delivered from its stream. */
  lemma PositionFollows(slot: Option<Position>, page: seq<Row>, sources: seq<Row>, known: seq<Row>)
    requires Keyed(slot) && Ordered(page) && SameMembers(page, sources) && forall r :: r in page ==> Past(slot, r)
    requires Distinct(known) && FoundIn(known, sources)
    ensures Folded(slot, sources, known) == Furthest(slot, page)
  {
    forall r | r in page ensures RowidOf(known, r.id) == Some(r.rowid) {
      var k :| k in known && k.id == r.id && k.rowid == r.rowid;
      RowidFound(known, k);
    }
    FoldIsFurthest(slot, page, sources, known);
  }

  lemma PositionsFollow(c: SavedCursor, run: RunInput, s: Stream, w: Window)
    requires Draining(c) && ValidTable(run.snaps.lookup.At(s)) && Selected(c, s, Delivered(w, run, c, s))
    requires SameMembers(Delivered(w, run, c, s), SourcesOf(w, s))
    requires FoundIn(run.snaps.lookup.At(s).rows, SourcesOf(w, s))
    ensures FoldedAll(c.positions, run.snaps.lookup, w).At(s) == Furthest(c.positions.At(s), Delivered(w, run, c, s))
    ensures Keyed(FoldedAll(c.positions, run.snaps.lookup, w).At(s))
  {
    FoldedAllAt(c.positions, run.snaps.lookup, w, s);
    PositionFollows(c.positions.At(s), Delivered(w, run, c, s), SourcesOf(w, s), run.snaps.lookup.At(s).rows);
  }

  /** The positions a full run stores: the last delivered row of each stream. */
  ghost predicate AllFollow(c: SavedCursor, run: RunInput, w: Window) {
    && !HasLegacyPosition(FoldedAll(c.positions, run.snaps.lookup, w))
    && forall s: Stream ::
         FoldedAll(c.positions, run.snaps.lookup, w).At(s) == Furthest(c.positions.At(s), Delivered(w, run, c, s))
  }

  lemma PositionsKeyed(c: SavedCursor, run: RunInput, store: Store, w: Window)
    requires Draining(c) && Normalised(c) == c && ValidRun(store, run)
    requires w == WindowOf(run.snaps, c, run.now, run.sourceEnd, run.max)
    requires AllFound(run, w)
    ensures AllFollow(c, run, w)
  {
    var folded := FoldedAll(c.positions, run.snaps.lookup, w);
    forall s: Stream
      ensures Keyed(folded.At(s)) && folded.At(s) == Furthest(c.positions.At(s), Delivered(w, run, c, s))
    {
      DeliveredSelected(c, run, store, s, w);
      DeliveredMembers(c, run, s, w);
      assert ValidStore(run.snaps.lookup);
      PositionsFollow(c, run, s, w);
    }
    AllKeyed(folded);
  }

  lemma AllKeyed(p: PerStream<Option<Position>>)
    requires forall s: Stream :: Keyed(p.At(s))
    ensures !HasLegacyPosition(p)
  {
    assert Keyed(p.At(Turns)) && Keyed(p.At(Conclusions)) && Keyed(p.At(Checkpoints));
    assert Keyed(p.At(Sources)) && Keyed(p.At(Records));
  }

  // ---- a run keeps the history of a stream

  /** Rows are a page when they leave every other row of the band ahead of them. */
  lemma LosslessIsPage(rows: seq<Row>, b: Band, p: Option<Position>, page: seq<Row>)
    requires Ordered(page) && forall r :: r in page ==> r in rows && Wanted(b, r) && Past(p, r)
    requires forall r :: r in rows && Wanted(b, r) && Past(p, r) && r !in page ==> Past(Furthest(p, page), r)
    ensures IsPage(rows, b, p, |page|, page)
  {
  }

  lemma CompleteDrains(rows: seq<Row>, b: Band, p: Option<Position>, page: seq<Row>)
    requires Keyed(p) && Ordered(page) && forall r :: r in page ==> Past(p, r)
    requires forall r :: r in rows && Wanted(b, r) && Past(p, r) ==> r in page
    ensures Drained(rows, b, Furthest(p, page))
  {
    forall r | r in rows && Wanted(b, r) ensures !Past(Furthest(p, page), r) {
      PagePassesItsRows(p, page, r);
    }
  }

  /** A short window holds every turn that was left. */
  lemma ShortHoldsTurns(c: SavedCursor, run: RunInput, w: Window, r: Row)
    requires Draining(c) && Normalised(c) == c && ValidStore(run.snaps.turns)
    requires w == WindowOf(run.snaps, c, run.now, run.sourceEnd, run.max) && Count(w) < run.max
    requires r in run.snaps.turns.turns.rows && Wanted(BandOf(c, Turns), r) && Past(c.positions.turns, r)
    ensures r in w.turns
  {
    var limit := QueriedIsPage(c, run, Turns, w);
    assert ValidTable(run.snaps.turns.At(Turns));
    MatchingIsExact(run.snaps.turns.turns.rows, QueryFor(c, Turns, QueryEnd(c, run.now, run.sourceEnd)));
    MatchesIsBand(c, run.now, run.sourceEnd, Turns, r);
  }

  lemma TurnsHeld(c: SavedCursor, run: RunInput, store: Store, w: Window, full: bool) returns (limit: nat)
    requires Draining(c) && Normalised(c) == c && ValidRun(store, run)
    requires w == WindowOf(run.snaps, c, run.now, run.sourceEnd, run.max)
    requires (full ==> AllFollow(c, run, w)) && (!full ==> Count(w) < run.max) && NoTurnLost(c, run, w, full)
    ensures PageHeld(c, run, Turns, Delivered(w, run, c, Turns), limit, !full)
  {
    var page, rows := Delivered(w, run, c, Turns), run.snaps.turns.turns.rows;
    var b, p := BandOf(c, Turns), c.positions.At(Turns);
    TurnsSelected(c, run, store, w);
    DeliveredMembers(c, run, Turns, w);
    var queried := QueriedIsHeld(c, run, Turns, w);
    forall r | r in page ensures r in rows {
      assert r in SourcesOf(w, Turns);
    }
    forall r | r in rows && Wanted(b, r) && Past(p, r) && r !in page ensures full && Past(Furthest(p, page), r) {
      if full {
        assert r !in SourcesOf(w, Turns) && StillAhead(c, run, w, r);
      } else {
        ShortHoldsTurns(c, run, w, r);
      }
    }
    LosslessIsPage(rows, b, p, page);
    if !full {
      CompleteDrains(rows, b, p, page);
    }
    limit := |page|;
  }

  /** The window of a run holds one page of each stream, of turns unless it passes some over. */
  lemma WindowHoldsPage(c: SavedCursor, run: RunInput, store: Store, s: Stream, w: Window, full: bool)
    returns (limit: nat)
    requires Draining(c) && Normalised(c) == c && ValidRun(store, run)
    requires w == WindowOf(run.snaps, c, run.now, run.sourceEnd, run.max)
    requires (full ==> AllFollow(c, run, w)) && (!full ==> Count(w) < run.max)
    requires s == Turns ==> NoTurnLost(c, run, w, full)
    ensures PageHeld(c, run, s, Delivered(w, run, c, s), limit, !full)
  {
    if s == Turns {
      limit := TurnsHeld(c, run, store, w, full);
    } else {
      SnapshotsInOrder(store, run, s);
      limit := QueriedIsHeld(c, run, s, w);
    }
  }

  /** From the pin to the end of the run one stream serves one page of its band. */
  lemma PageOfRun(c: SavedCursor, run: RunInput, store: Store, s: Stream, scan: Scan, page: seq<Row>,
        limit: nat, short: bool)
    requires ValidRun(store, run)
    requires ScanInv(run.snaps.pin.At(s), scan) && scan.current == Some(BandOf(c, s))
    requires scan.position == c.positions.At(s) && PageHeld(c, run, s, page, limit, short)
    ensures ScanInv(run.snaps.after.At(s), Served(scan, page))
    ensures short ==> Drained(run.snaps.after.At(s).rows, BandOf(c, s), Furthest(scan.position, page))
  {
    var snap := SnapshotFor(run.snaps, s);
    var after := run.snaps.after;
    SnapshotsInOrder(store, run, s);
    WritersKeepScan(run.snaps.pin.At(s), snap.At(s), scan);
    PageKeepsScan(snap.At(s), scan, limit, page);
    WritersKeepScan(snap.At(s), after.At(s), Served(scan, page));
    if short {
      DrainedStays(snap.At(s), after.At(s), Served(scan, page));
    }
  }

  /** A band that ends leaves the cursor at rest or in its successor. */
  lemma EndOfBand(c: SavedCursor, after: Store, s: Stream, scan: Scan, next: SavedCursor, from: Stamp, until: Stamp)
    requires Draining(c) && ValidStore(after) && scan.current.None?
    requires CoveredRow(scan) == BandOf(c, s).highRow && CoveredSeq(scan) == BandOf(c, s).highSeq
    requires next == NextBand(c, from, until, FrontierOf(after))
    ensures Draining(next) && next.positions.At(s) == None && Reached(after.At(s), BandOf(next, s))
    ensures ScanInv(after.At(s), scan) ==> ScanInv(after.At(s), Started(scan, BandOf(next, s)))
  {
    FrontierIsMax(after, s);
    var band := BandOf(next, s);
    assert band == Band(CoveredRow(scan), MaxRowid(after.At(s).rows), band.end, CoveredSeq(scan), HighSeqOf(after, s));
    FrontierIsReached(after, s, band);
    if ScanInv(after.At(s), scan) {
      CoveredWithin(after.At(s), scan);
      assert ValidTable(after.At(s));
      StartKeepsScan(after.At(s), scan, band.end, HighSeqOf(after, s));
    }
  }

  lemma RestIsResting(c: SavedCursor, s: Stream, scan: Scan, at: Stamp, post: bool)
    requires Draining(c) && scan.current.None?
    requires CoveredRow(scan) == BandOf(c, s).highRow && CoveredSeq(scan) == BandOf(c, s).highSeq
    ensures !InBand(Rested(c, at, post)) && Agrees(scan, Some(Encoded(Rested(c, at, post))), s)
  {
  }

  /** The history is kept up to the end of the band, if the run ends it. */
  ghost predicate EndHolds(t: Table, served: Scan, full: bool) {
    if full then ScanInv(t, served) else served.current.Some? && ScanInv(t, Finished(served))
  }

  /** What the new watermark makes of the history. */
  lemma EndOfRun(c: SavedCursor, w: Window, lookup: Store, after: Store, now: Stamp, full: bool,
        s: Stream, served: Scan)
    requires Draining(c) && ValidStore(after) && served.current == Some(BandOf(c, s))
    requires Reached(after.At(s), BandOf(c, s))
    requires full ==> served.position == FoldedAll(c.positions, lookup, w).At(s)
    requires full ==> !HasLegacyPosition(FoldedAll(c.positions, lookup, w))
    ensures var next := WatermarkAfter(lookup, after, Some(Encoded(c)), w, now, full);
            var scan := Ended(served, s, full, next);
            && Agrees(scan, Some(next), s)
            && CurrentReached(after.At(s), scan)
            && (EndHolds(after.At(s), served, full) ==> ScanInv(after.At(s), scan))
  {
    if !full {
      var scan := Finished(served);
      assert CoveredRow(scan) == BandOf(c, s).highRow && CoveredSeq(scan) == BandOf(c, s).highSeq;
      if c.upperUnbounded {
        RestIsResting(c, s, scan, now, false);
      } else if Later(now, c.upperBound.value) {
        var next := NextBand(c, c.upperBound.value, now, FrontierOf(after));
        EndOfBand(c, after, s, scan, next, c.upperBound.value, now);
      } else {
        RestIsResting(c, s, scan, c.upperBound.value, true);
      }
    }
  }

  /** The stream at the end of a run, whatever the window held. */
  lemma StreamAgrees(c: SavedCursor, run: RunInput, store: Store, s: Stream, w: Window, scan: Scan,
        full: bool, next: Watermark)
    requires Draining(c) && ValidRun(store, run) && PinHolds(run.snaps.pin, scan, c, s)
    requires full ==> AllFollow(c, run, w)
    requires next == WatermarkAfter(run.snaps.lookup, run.snaps.after, Some(Encoded(c)), w, run.now, full)
    ensures var served := Served(PinScan(scan, c, s), Delivered(w, run, c, s));
            var result := Ended(served, s, full, next);
            && Agrees(result, Some(next), s)
            && CurrentReached(run.snaps.after.At(s), result)
            && (EndHolds(run.snaps.after.At(s), served, full) ==> ScanInv(run.snaps.after.At(s), result))
  {
    SnapshotsInOrder(store, run, s);
    assert Evolves(run.snaps.pin.At(s), SnapshotFor(run.snaps, s).At(s));
    assert Evolves(SnapshotFor(run.snaps, s).At(s), run.snaps.after.At(s));
    EndOfRun(c, w, run.snaps.lookup, run.snaps.after, run.now, full, s,
             Served(PinScan(scan, c, s), Delivered(w, run, c, s)));
  }

  lemma StreamKept(c: SavedCursor, run: RunInput, store: Store, s: Stream, w: Window, scan: Scan,
        full: bool, limit: nat)
    requires Draining(c) && ValidRun(store, run) && PinHolds(run.snaps.pin, scan, c, s)
    requires ScanInv(run.snaps.pin.At(s), PinScan(scan, c, s))
    requires PageHeld(c, run, s, Delivered(w, run, c, s), limit, !full)
    ensures EndHolds(run.snaps.after.At(s), Served(PinScan(scan, c, s), Delivered(w, run, c, s)), full)
  {
    var page, pinned := Delivered(w, run, c, s), PinScan(scan, c, s);
    PageOfRun(c, run, store, s, pinned, page, limit, !full);
    if !full {
      FinishKeepsScan(run.snaps.after.At(s), Served(pinned, page));
    }
  }

  lemma StreamKeeps(c: SavedCursor, run: RunInput, store: Store, s: Stream, w: Window, scan: Scan, full: bool)
    requires Draining(c) && Normalised(c) == c && ValidRun(store, run) && PinHolds(run.snaps.pin, scan, c, s)
    requires w == WindowOf(run.snaps, c, run.now, run.sourceEnd, run.max)
    requires (full ==> AllFollow(c, run, w)) && (!full ==> Count(w) < run.max)
    requires ScanInv(run.snaps.pin.At(s), PinScan(scan, c, s)) && (s == Turns ==> NoTurnLost(c, run, w, full))
    ensures EndHolds(run.snaps.after.At(s), Served(PinScan(scan, c, s), Delivered(w, run, c, s)), full)
  {
    var limit := WindowHoldsPage(c, run, store, s, w, full);
    StreamKept(c, run, store, s, w, scan, full, limit);
  }

  /** The stream when a run has ended, its history included where that was kept. */
  lemma StreamEnds(c: SavedCursor, run: RunInput, store: Store, s: Stream, w: Window, scan: Scan, full: bool,
        next: Watermark, tracked: bool)
    requires Draining(c) && Normalised(c) == c && ValidRun(store, run) && PinHolds(run.snaps.pin, scan, c, s)
    requires w == WindowOf(run.snaps, c, run.now, run.sourceEnd, run.max)
    requires next == WatermarkAfter(run.snaps.lookup, run.snaps.after, Some(Encoded(c)), w, run.now, full)
    requires (full ==> AllFollow(c, run, w)) && (!full ==> Count(w) < run.max)
    requires tracked ==> ScanInv(run.snaps.pin.At(s), PinScan(scan, c, s))
    requires tracked && s == Turns ==> NoTurnLost(c, run, w, full)
    ensures var result := ScanAfter(scan, c, s, Delivered(w, run, c, s), full, next);
            && Agrees(result, Some(next), s)
            && CurrentReached(run.snaps.after.At(s), result)
            && (tracked ==> ScanInv(run.snaps.after.At(s), result))
  {
    StreamAgrees(c, run, store, s, w, scan, full, next);
    if tracked {
      StreamKeeps(c, run, store, s, w, scan, full);
    }
  }

  /** Every run starts from a draining cursor and, when full, leaves each position at the last row it
      delivered. */
  lemma RunHolds(a: System, run: RunInput, o: Outcome)
    requires Inv(a) && ValidRun(a.store, run) && Computes(a, run, o) && SourcesRemain(run, o)
    ensures Draining(o.cursor) && Normalised(o.cursor) == o.cursor
    ensures o.full ==> AllFollow(o.cursor, run, o.window)
  {
    PinningKeeps(a, run, Turns, o.cursor);
    if o.full {
      PositionsKeyed(o.cursor, run, a.store, o.window);
    }
  }

  lemma RunKeepsStream(a: System, run: RunInput, o: Outcome, b: System, s: Stream)
    requires ValidRun(a.store, run) && Computes(a, run, o) && RunStep(a, run, o, b)
    requires Draining(o.cursor) && Normalised(o.cursor) == o.cursor && (o.full ==> AllFollow(o.cursor, run, o.window))
    requires PinHolds(run.snaps.pin, a.scans.At(s), o.cursor, s)
    requires Tracked(a, s) ==> ScanInv(run.snaps.pin.At(s), PinScan(a.scans.At(s), o.cursor, s))
    ensures StreamInv(b, s)
  {
    StreamEnds(o.cursor, run, a.store, s, o.window, a.scans.At(s), o.full, o.next, Tracked(b, s));
  }

  lemma RunKeepsInv(a: System, run: RunInput, o: Outcome, b: System)
    requires Inv(a) && RunsTo(a, run, o, b)
    ensures Inv(b)
  {
    RunHolds(a, run, o);
    forall s: Stream ensures StreamInv(b, s) {
      PinningKeeps(a, run, s, o.cursor);
      RunKeepsStream(a, run, o, b, s);
    }
  }

  lemma WritersKeepInv(a: System, b: System)
    requires Inv(a) && WritersStep(a, b)
    ensures Inv(b)
  {
    forall s: Stream ensures StreamInv(b, s) {
      assert StreamInv(a, s) && Evolves(a.store.At(s), b.store.At(s));
      if Tracked(a, s) {
        WritersKeepScan(a.store.At(s), b.store.At(s), a.scans.At(s));
      }
    }
  }

  lemma InitialInv(a: System)
    requires Initial(a)
    ensures Inv(a)
  {
    forall s: Stream ensures StreamInv(a, s) {
      assert a.scans.At(s) == Scan([], None, None, []) && ValidTable(a.store.At(s));
    }
  }

  lemma {:induction false} InvAlways(trace: seq<System>, i: nat)
    requires Execution(trace) && i < |trace|
    ensures Inv(trace[i])
  {
    if i == 0 {
      InitialInv(trace[0]);
    } else {
      InvAlways(trace, i - 1);
      var a, b := trace[i - 1], trace[i];
      assert Next(a, b);
      if WritersStep(a, b) {
        WritersKeepInv(a, b);
      } else {
        var run, o :| RunsTo(a, run, o, b);
        RunKeepsInv(a, run, o, b);
      }
    }
  }

  // ---- runs exist

  /** Every run completes: from any state there is an outcome and a next state. */
  lemma EveryRunSteps(a: System, run: RunInput) returns (o: Outcome, b: System)
    ensures Computes(a, run, o) && RunStep(a, run, o, b)
  {
    o := OutcomeOf(a, run);
    b := Stepped(a, run, o);
    SteppedIsStep(a, run, o);
  }

  function OutcomeOf(a: System, run: RunInput): Outcome {
    var c := Pinned(run.snaps.pin, a.watermark, run.now, run.unbounded);
    var w := WindowOf(run.snaps, c, run.now, run.sourceEnd, run.max);
    var full := run.limited || Count(w) >= run.max;
    Outcome(c, w, full, WatermarkAfter(run.snaps.lookup, run.snaps.after, Some(Encoded(c)), w, run.now, full))
  }

  lemma SteppedIsStep(a: System, run: RunInput, o: Outcome)
    ensures RunStep(a, run, o, Stepped(a, run, o))
  {
  }

  ghost function Stepped(a: System, run: RunInput, o: Outcome): System {
    System(run.snaps.after, Some(o.next),
           PerStream(
             ScanAfter(a.scans.turns, o.cursor, Turns, PageOf(run, o, Turns), o.full, o.next),
             ScanAfter(a.scans.conclusions, o.cursor, Conclusions, PageOf(run, o, Conclusions), o.full, o.next),
             ScanAfter(a.scans.checkpoints, o.cursor, Checkpoints, PageOf(run, o, Checkpoints), o.full, o.next),
             ScanAfter(a.scans.sources, o.cursor, Sources, PageOf(run, o, Sources), o.full, o.next),
             ScanAfter(a.scans.records, o.cursor, Records, PageOf(run, o, Records), o.full, o.next)),
           a.clean && NoTurnLost(o.cursor, run, o.window, o.full))
  }

  /** Every transaction of the run sees the same store. */
  function Still(store: Store): Snapshots {
    Snapshots(store, store, store, store, store, store, store, store, store)
  }

  lemma StillIsValid(store: Store, run: RunInput)
    requires ValidStore(store) && run.max > 0 && run.snaps == Still(store)
    ensures ValidRun(store, run)
  {
    forall s: Stream ensures Evolves(store.At(s), store.At(s)) {
      assert ValidTable(store.At(s));
    }
  }

  /** The rows of a still window are rows of the store. */
  lemma StillRemains(c: SavedCursor, run: RunInput, store: Store, s: Stream, w: Window)
    requires Draining(c) && Normalised(c) == c && ValidRun(store, run) && run.snaps == Still(store)
    requires w == WindowOf(run.snaps, c, run.now, run.sourceEnd, run.max)
    ensures FoundIn(store.At(s).rows, SourcesOf(w, s))
  {
    var limit := QueriedIsHeld(c, run, s, w);
    DeliveredMembers(c, run, s, w);
    forall r | r in SourcesOf(w, s) ensures r in store.At(s).rows {
      if s == Turns && r in ActiveRows(w.active, true) {
        DerivedSelected(c, run, w, r);
      }
    }
  }

  lemma StillRemainsAll(c: SavedCursor, run: RunInput, store: Store, w: Window)
    requires Draining(c) && Normalised(c) == c && ValidRun(store, run) && run.snaps == Still(store)
    requires w == WindowOf(run.snaps, c, run.now, run.sourceEnd, run.max)
    ensures AllFound(run, w)
  {
    forall s: Stream ensures FoundIn(store.At(s).rows, SourcesOf(w, s)) {
      StillRemains(c, run, store, s, w);
    }
  }

  /** A run during which nobody writes is a step of an execution, from every state of one. */
  lemma StillRunSteps(a: System, run: RunInput, o: Outcome, b: System)
    requires Inv(a) && run.max > 0 && run.snaps == Still(a.store)
    requires Computes(a, run, o) && RunStep(a, run, o, b)
    ensures RunsTo(a, run, o, b)
  {
    StillIsValid(a.store, run);
    PinningKeeps(a, run, Turns, o.cursor);
    StillRemainsAll(o.cursor, run, a.store, o.window);
  }
}
