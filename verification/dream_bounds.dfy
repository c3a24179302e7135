/** Where the bands of an execution end, and what that says about a row that is there when a band opens. */
module DreamBounds {
  import opened Basics
  import opened DreamRows
  import opened DreamBand
  import opened DreamCursor
  import opened DreamWindow
  import opened DreamProtocol
  import opened DreamTheorems

  // ---- the ends

  lemma PinnedEndOf(pin: Store, scan: Scan, watermark: Option<Watermark>, now: Stamp, unbounded: bool, s: Stream)
    requires Agrees(scan, watermark, s) && scan.current.None?
    ensures var end := Pinned(pin, watermark, now, unbounded).upperBound;
            if watermark.None? && unbounded then end == None
            else
              && end.Some?
              && (end.value != now ==>
                    && watermark.Some? && watermark.value.Encoded? && watermark.value.cursor.lowerBound == end
                    && NotLater(now, end.value))
    ensures BandOf(Pinned(pin, watermark, now, unbounded), s).end == Pinned(pin, watermark, now, unbounded).upperBound
  {
  }

  /** A run that opens a band ends it at its own clock, or at the end of the band before it if the clock is not later
      than that; only the first run may leave it open-ended. */
  lemma PinnedEnd(a: System, run: RunInput, o: Outcome, s: Stream)
    requires Inv(a) && Computes(a, run, o) && a.scans.At(s).current.None?
    ensures var end := o.cursor.upperBound;
            if a.watermark.None? && run.unbounded then end == None
            else
              && end.Some?
              && (end.value != run.now ==>
                    && a.watermark.Some? && a.watermark.value.Encoded? && a.watermark.value.cursor.lowerBound == end
                    && NotLater(run.now, end.value))
    ensures BandOf(o.cursor, s).end == o.cursor.upperBound
  {
    assert StreamInv(a, s);
    PinnedEndOf(run.snaps.pin, a.scans.At(s), a.watermark, run.now, run.unbounded, s);
  }

  /** What a run that completes a band leaves of a stream: the next band, up to the clock, or none. */
  ghost predicate OpensUpTo(scan: Scan, s: Stream, c: SavedCursor, after: Store, now: Stamp) {
    && CoveredRow(scan) == BandOf(c, s).highRow && CoveredSeq(scan) == BandOf(c, s).highSeq
    && (scan.current.Some? <==> c.upperBound.Some? && Later(now, c.upperBound.value))
    && (scan.current.Some? ==>
          scan.current.value == Band(CoveredRow(scan), MaxRowid(after.At(s).rows), Some(now), CoveredSeq(scan),
                                     HighSeqOf(after, s)))
  }

  lemma NextWatermark(c: SavedCursor, w: Window, lookup: Store, after: Store, now: Stamp)
    requires Draining(c)
    ensures WatermarkAfter(lookup, after, Some(Encoded(c)), w, now, false)
         == Encoded(if c.upperBound.None? then Rested(c, now, false)
                    else if Later(now, c.upperBound.value) then NextBand(c, c.upperBound.value, now, FrontierOf(after))
                    else Rested(c, c.upperBound.value, true))
  {
  }

  lemma NextBandIs(c: SavedCursor, from: Stamp, now: Stamp, after: Store, s: Stream)
    requires Draining(c)
    ensures BandOf(NextBand(c, from, now, FrontierOf(after)), s)
         == Band(BandOf(c, s).highRow, MaxRowid(after.At(s).rows), Some(now), BandOf(c, s).highSeq, HighSeqOf(after, s))
  {
    FrontierIsMax(after, s);
  }

  lemma EndedOpens(scan: Scan, c: SavedCursor, w: Window, lookup: Store, after: Store, now: Stamp, s: Stream)
    requires Draining(c) && scan.current == Some(BandOf(c, s))
    ensures OpensUpTo(Ended(scan, s, false, WatermarkAfter(lookup, after, Some(Encoded(c)), w, now, false)),
                      s, c, after, now)
  {
    NextWatermark(c, w, lookup, after, now);
    if c.upperBound.Some? {
      NextBandIs(c, c.upperBound.value, now, after, s);
    }
    assert CoveredRow(Finished(scan)) == BandOf(c, s).highRow && CoveredSeq(Finished(scan)) == BandOf(c, s).highSeq;
  }

  lemma ScanOpens(scan: Scan, c: SavedCursor, s: Stream, page: seq<Row>, w: Window, lookup: Store, after: Store,
        now: Stamp)
    requires Draining(c) && PinScan(scan, c, s).current == Some(BandOf(c, s))
    ensures var stored := WatermarkAfter(lookup, after, Some(Encoded(c)), w, now, false);
            OpensUpTo(ScanAfter(scan, c, s, page, false, stored), s, c, after, now)
  {
    EndedOpens(Served(PinScan(scan, c, s), page), c, w, lookup, after, now, s);
  }

  lemma CursorFollows(a: System, run: RunInput, o: Outcome, s: Stream)
    requires Inv(a) && Computes(a, run, o)
    ensures Draining(o.cursor) && PinScan(a.scans.At(s), o.cursor, s).current == Some(BandOf(o.cursor, s))
  {
    assert StreamInv(a, s);
    PinnedDrains(run.snaps.pin, a.scans.At(s), a.watermark, run.now, run.unbounded, s);
  }

  /** A run that completes a band opens the next one exactly when its clock is later than the end of the completed one,
      and ends it at its clock. */
  lemma OpenedEnd(a: System, run: RunInput, o: Outcome, b: System, s: Stream)
    requires Inv(a) && Computes(a, run, o) && RunStep(a, run, o, b) && !o.full
    ensures OpensUpTo(b.scans.At(s), s, o.cursor, run.snaps.after, run.now)
  {
    CursorFollows(a, run, o, s);
    ScanOpens(a.scans.At(s), o.cursor, s, PageOf(run, o, s), o.window, run.snaps.lookup, run.snaps.after, run.now);
  }

  lemma TimestampQuery(pin: Store, from: Stamp, now: Stamp, unbounded: bool, sourceEnd: Option<Stamp>, s: Stream)
    ensures var c := Pinned(pin, Some(Timestamp(from)), now, unbounded);
            var seq0 := pin.records.lastSequence;
            Normalised(c) == c
            && QueryFor(c, s, QueryEnd(c, now, sourceEnd))
               == Query(Some(from), false, false, false, None, if unbounded then None else Some(now),
                        Some(MaxRowid(pin.At(s).rows)), None, if s == Records then Some((seq0, seq0)) else None)
  {
    FrontierIsMax(pin, s);
  }

  /** A bare timestamp as watermark: the first band holds what is dated from it up to the clock, within the frontier. */
  lemma TimestampBand(pin: Store, from: Stamp, now: Stamp, unbounded: bool, sourceEnd: Option<Stamp>, s: Stream, r: Row)
    requires ValidStore(pin) && r in pin.At(s).rows
    ensures var c := Pinned(pin, Some(Timestamp(from)), now, unbounded);
            Normalised(c) == c
            && (Matches(QueryFor(c, s, QueryEnd(c, now, sourceEnd)), r) <==>
                  r.visible && r.stamp.text >= from.text && (!unbounded ==> r.stamp.text <= now.text))
  {
    TimestampQuery(pin, from, now, unbounded, sourceEnd, s);
    RowWithin(pin, s, r);
  }

  // ---- a band once opened stays what it is

  /** Band number k of a stream, drained or being drained. */
  predicate BandAt(scan: Scan, k: nat, band: Band) {
    (k < |scan.done| && scan.done[k] == band) || (k == |scan.done| && scan.current == Some(band))
  }

  lemma ScanKeepsBand(scan: Scan, c: SavedCursor, s: Stream, page: seq<Row>, full: bool, next: Watermark, k: nat,
        band: Band)
    requires BandAt(scan, k, band)
    ensures BandAt(ScanAfter(scan, c, s, page, full, next), k, band)
  {
  }

  lemma RunKeepsBand(a: System, run: RunInput, o: Outcome, b: System, s: Stream, k: nat, band: Band)
    requires RunStep(a, run, o, b) && BandAt(a.scans.At(s), k, band)
    ensures BandAt(b.scans.At(s), k, band)
  {
    ScanKeepsBand(a.scans.At(s), o.cursor, s, PageOf(run, o, s), o.full, o.next, k, band);
  }

  lemma StepKeepsBand(a: System, b: System, s: Stream, k: nat, band: Band)
    requires Next(a, b) && BandAt(a.scans.At(s), k, band)
    ensures BandAt(b.scans.At(s), k, band)
  {
    if !WritersStep(a, b) {
      var run, o :| RunsTo(a, run, o, b);
      RunKeepsBand(a, run, o, b, s, k, band);
    }
  }

  ghost predicate Kept(scans: seq<Scan>, k: nat, band: Band) {
    forall i :: 0 <= i < |scans| - 1 && BandAt(scans[i], k, band) ==> BandAt(scans[i + 1], k, band)
  }

  lemma {:induction false} KeptLater(scans: seq<Scan>, j: nat, i: nat, k: nat, band: Band)
    requires Kept(scans, k, band) && j <= i < |scans| && BandAt(scans[j], k, band)
    ensures BandAt(scans[i], k, band)
    decreases i
  {
    if j < i {
      KeptLater(scans, j, i - 1, k, band);
      assert BandAt(scans[i - 1 + 1], k, band);
    }
  }

  lemma BandStays(trace: seq<System>, j: nat, i: nat, s: Stream, k: nat, band: Band)
    requires Execution(trace) && j <= i < |trace| && BandAt(trace[j].scans.At(s), k, band)
    ensures BandAt(trace[i].scans.At(s), k, band)
  {
    var scans := seq(|trace|, n requires 0 <= n < |trace| => trace[n].scans.At(s));
    forall n | 0 <= n < |scans| - 1 && BandAt(scans[n], k, band) ensures BandAt(scans[n + 1], k, band) {
      StepKeepsBand(trace[n], trace[n + 1], s, k, band);
    }
    KeptLater(scans, j, i, k, band);
  }

  /** Once a band is completed, the rows it answers for have been served if it wants them and not otherwise. */
  lemma CompletedServes(trace: seq<System>, i: nat, s: Stream, k: nat, band: Band, r: Row)
    requires Execution(trace) && i < |trace| && Tracked(trace[i], s)
    requires BandAt(trace[i].scans.At(s), k, band) && k < |trace[i].scans.At(s).done|
    requires r in trace[i].store.At(s).rows && r.visible && Answers(band, r)
    ensures r in trace[i].scans.At(s).log <==> Wanted(band, r)
  {
    InvAlways(trace, i);
    var scan := trace[i].scans.At(s);
    assert StreamInv(trace[i], s);
    assert ScanInv(trace[i].store.At(s), scan) && RowHolds(scan, r) && DoneHolds(scan, k, r);
  }

  // ---- a row that is there when a band opens

  lemma PinnedBandAt(scan: Scan, c: SavedCursor, s: Stream, page: seq<Row>, full: bool, next: Watermark)
    requires scan.current.None?
    ensures BandAt(ScanAfter(scan, c, s, page, full, next), |scan.done|, BandOf(c, s))
  {
  }

  lemma PinnedBandOf(pin: Store, scan: Scan, watermark: Option<Watermark>, now: Stamp, unbounded: bool, s: Stream)
    requires Agrees(scan, watermark, s) && scan.current.None?
    ensures var c := Pinned(pin, watermark, now, unbounded);
            BandOf(c, s) == Band(CoveredRow(scan), MaxRowid(pin.At(s).rows), c.upperBound, CoveredSeq(scan),
                                 HighSeqOf(pin, s))
  {
    PinnedBand(pin, scan, watermark, now, unbounded, s);
    PinnedEndOf(pin, scan, watermark, now, unbounded, s);
  }

  lemma OpensPinned(a: System, run: RunInput, o: Outcome, b: System, s: Stream)
    requires Inv(a) && Computes(a, run, o) && RunStep(a, run, o, b) && a.scans.At(s).current.None?
    ensures BandAt(b.scans.At(s), |a.scans.At(s).done|, BandOf(o.cursor, s))
    ensures BandOf(o.cursor, s) == Band(CoveredRow(a.scans.At(s)), MaxRowid(run.snaps.pin.At(s).rows),
                                        o.cursor.upperBound, CoveredSeq(a.scans.At(s)), HighSeqOf(run.snaps.pin, s))
  {
    assert StreamInv(a, s);
    PinnedBandOf(run.snaps.pin, a.scans.At(s), a.watermark, run.now, run.unbounded, s);
    PinnedBandAt(a.scans.At(s), o.cursor, s, PageOf(run, o, s), o.full, o.next);
  }

  lemma RowWithin(store: Store, s: Stream, r: Row)
    requires ValidStore(store) && r in store.At(s).rows
    ensures r.rowid <= MaxRowid(store.At(s).rows) && r.sequence <= HighSeqOf(store, s)
  {
    assert ValidTable(store.At(s));
  }

  /** A clock that is not later than another as a moment does not sort behind it as a string. */
  predicate SortsAsTime(now: Stamp, end: Option<Stamp>) {
    end.Some? && NotLater(now, end.value) ==> now.text <= end.value.text
  }

  /** A visible row of the table behind the frontier completed so far, dated no later than the clock. */
  predicate Awaits(t: Table, scan: Scan, now: Stamp, r: Row) {
    r in t.rows && r.visible && r.rowid > CoveredRow(scan) && r.stamp.text <= now.text
  }

  /** The row lies in the band: behind the frontier it starts from and within the one it was opened with. */
  lemma LiesIn(store: Store, s: Stream, r: Row, lowRow: nat, lowSeq: nat, end: Option<Stamp>)
    requires ValidStore(store) && r in store.At(s).rows && r.visible && r.rowid > lowRow
    requires end.Some? ==> r.stamp.text <= end.value.text
    ensures var band := Band(lowRow, MaxRowid(store.At(s).rows), end, lowSeq, HighSeqOf(store, s));
            Answers(band, r) && Wanted(band, r)
  {
    RowWithin(store, s, r);
  }

  lemma PinnedWants(a: System, run: RunInput, o: Outcome, s: Stream, r: Row)
    requires Inv(a) && Computes(a, run, o) && ValidStore(run.snaps.pin) && a.scans.At(s).current.None?
    requires Awaits(run.snaps.pin.At(s), a.scans.At(s), run.now, r)
    requires SortsAsTime(run.now, o.cursor.upperBound)
    ensures Answers(BandOf(o.cursor, s), r) && Wanted(BandOf(o.cursor, s), r)
  {
    assert StreamInv(a, s);
    PinnedBandOf(run.snaps.pin, a.scans.At(s), a.watermark, run.now, run.unbounded, s);
    PinnedEnd(a, run, o, s);
    LiesIn(run.snaps.pin, s, r, CoveredRow(a.scans.At(s)), CoveredSeq(a.scans.At(s)), o.cursor.upperBound);
  }

  lemma BandServed(trace: seq<System>, j: nat, i: nat, s: Stream, k: nat, band: Band, r: Row)
    requires Execution(trace) && j <= i < |trace| && Tracked(trace[i], s)
    requires BandAt(trace[j].scans.At(s), k, band) && k < |trace[i].scans.At(s).done|
    requires r in trace[i].store.At(s).rows && r.visible && Answers(band, r) && Wanted(band, r)
    ensures r in trace[i].scans.At(s).log
  {
    BandStays(trace, j, i, s, k, band);
    CompletedServes(trace, i, s, k, band, r);
  }

  lemma PinOpens(a: System, run: RunInput, o: Outcome, b: System, s: Stream, r: Row)
    requires Inv(a) && RunsTo(a, run, o, b) && a.scans.At(s).current.None?
    requires Awaits(run.snaps.pin.At(s), a.scans.At(s), run.now, r)
    requires SortsAsTime(run.now, o.cursor.upperBound)
    ensures BandAt(b.scans.At(s), |a.scans.At(s).done|, BandOf(o.cursor, s))
    ensures Answers(BandOf(o.cursor, s), r) && Wanted(BandOf(o.cursor, s), r)
  {
    assert ValidStore(run.snaps.pin);
    OpensPinned(a, run, o, b, s);
    PinnedWants(a, run, o, s, r);
  }

  lemma PinOpensAt(trace: seq<System>, j: nat, run: RunInput, o: Outcome, b: System, s: Stream, r: Row)
    requires Execution(trace) && j < |trace| && RunsTo(trace[j], run, o, b) && trace[j].scans.At(s).current.None?
    requires Awaits(run.snaps.pin.At(s), trace[j].scans.At(s), run.now, r)
    requires SortsAsTime(run.now, o.cursor.upperBound)
    ensures BandAt(b.scans.At(s), |trace[j].scans.At(s).done|, BandOf(o.cursor, s))
    ensures Answers(BandOf(o.cursor, s), r) && Wanted(BandOf(o.cursor, s), r)
  {
    InvAlways(trace, j);
    PinOpens(trace[j], run, o, b, s, r);
  }

  /** A row that is there when a run opens a band, is not behind the completed frontier yet and is not dated after the
      run's clock has been served once that band is completed. */
  lemma PresentAtPinIsServed(trace: seq<System>, j: nat, i: nat, run: RunInput, o: Outcome, s: Stream, r: Row)
    requires Execution(trace) && j + 1 <= i < |trace| && RunsTo(trace[j], run, o, trace[j + 1])
    requires trace[j].scans.At(s).current.None? && Tracked(trace[i], s)
    requires |trace[i].scans.At(s).done| > |trace[j].scans.At(s).done|
    requires Awaits(run.snaps.pin.At(s), trace[j].scans.At(s), run.now, r) && r in trace[i].store.At(s).rows
    requires SortsAsTime(run.now, o.cursor.upperBound)
    ensures r in trace[i].scans.At(s).log
  {
    PinOpensAt(trace, j, run, o, trace[j + 1], s, r);
    BandServed(trace, j + 1, i, s, |trace[j].scans.At(s).done|, BandOf(o.cursor, s), r);
  }

  lemma NextWants(scan: Scan, s: Stream, c: SavedCursor, after: Store, now: Stamp, r: Row) returns (band: Band)
    requires OpensUpTo(scan, s, c, after, now) && scan.current.Some? && ValidStore(after)
    requires Awaits(after.At(s), scan, now, r)
    ensures BandAt(scan, |scan.done|, band) && Answers(band, r) && Wanted(band, r)
  {
    band := scan.current.value;
    LiesIn(after, s, r, CoveredRow(scan), CoveredSeq(scan), Some(now));
  }

  lemma NextOpens(a: System, run: RunInput, o: Outcome, b: System, s: Stream, r: Row) returns (band: Band)
    requires Inv(a) && RunsTo(a, run, o, b) && !o.full && b.scans.At(s).current.Some?
    requires Awaits(b.store.At(s), b.scans.At(s), run.now, r)
    ensures BandAt(b.scans.At(s), |b.scans.At(s).done|, band) && Answers(band, r) && Wanted(band, r)
  {
    OpenedEnd(a, run, o, b, s);
    assert ValidStore(run.snaps.after);
    band := NextWants(b.scans.At(s), s, o.cursor, run.snaps.after, run.now, r);
  }

  lemma NextOpensAt(trace: seq<System>, j: nat, run: RunInput, o: Outcome, b: System, s: Stream, r: Row)
    returns (band: Band)
    requires Execution(trace) && j < |trace| && RunsTo(trace[j], run, o, b) && !o.full && b.scans.At(s).current.Some?
    requires Awaits(b.store.At(s), b.scans.At(s), run.now, r)
    ensures BandAt(b.scans.At(s), |b.scans.At(s).done|, band) && Answers(band, r) && Wanted(band, r)
  {
    InvAlways(trace, j);
    band := NextOpens(trace[j], run, o, b, s, r);
  }

  /** The same for the band a run opens behind the one it completes. */
  lemma PresentAtEndIsServed(trace: seq<System>, j: nat, i: nat, run: RunInput, o: Outcome, s: Stream, r: Row)
    requires Execution(trace) && j + 1 <= i < |trace| && RunsTo(trace[j], run, o, trace[j + 1]) && !o.full
    requires trace[j + 1].scans.At(s).current.Some? && Tracked(trace[i], s)
    requires |trace[i].scans.At(s).done| > |trace[j + 1].scans.At(s).done|
    requires Awaits(trace[j + 1].store.At(s), trace[j + 1].scans.At(s), run.now, r) && r in trace[i].store.At(s).rows
    ensures r in trace[i].scans.At(s).log
  {
    var band := NextOpensAt(trace, j, run, o, trace[j + 1], s, r);
    BandServed(trace, j + 1, i, s, |trace[j + 1].scans.At(s).done|, band, r);
  }
}
