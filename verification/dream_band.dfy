/** One source stream under the band protocol, apart from how cursors are stored: bands of rowids
    and mutation sequences are drained page by page while writers keep changing the table. */
module DreamBand {
  import opened Basics
  import opened DreamRows

  /** Rows inserted in (lowRow, highRow] or last changed in (lowSeq, highSeq], the former only up
      to the timestamp `end`. */
  datatype Band = Band(lowRow: nat, highRow: nat, end: Option<Stamp>, lowSeq: nat, highSeq: nat)

  predicate Wanted(b: Band, r: Row) {
    && r.visible && r.sequence <= b.highSeq
    && ((b.lowRow < r.rowid <= b.highRow && UntilEnd(b.end, r)) || b.lowSeq < r.sequence)
  }

  /** The band answers for this row version, whether or not it is wanted. */
  predicate Answers(b: Band, r: Row) {
    && r.rowid <= b.highRow && r.sequence <= b.highSeq
    && (b.lowRow < r.rowid || b.lowSeq < r.sequence)
  }

  /** What writers may do to a table: insert rows with fresh rowids and either no mutation sequence
      or a fresh one, delete rows, and change rows, where a row that is visible afterwards was
      given a fresh mutation sequence. */
  ghost predicate Evolves(a: Table, b: Table) {
    && ValidTable(a) && ValidTable(b)
    && a.lastRowid <= b.lastRowid && a.lastSequence <= b.lastSequence
    && (forall r :: r in b.rows && r.visible ==>
          r in a.rows || r.rowid > a.lastRowid || r.sequence > a.lastSequence)
    && (forall r :: r in b.rows && r.visible && r.rowid > a.lastRowid ==>
          r.sequence == 0 || r.sequence > a.lastSequence)
  }

  lemma EvolvesTransitive(a: Table, b: Table, c: Table)
    requires Evolves(a, b) && Evolves(b, c)
    ensures Evolves(a, c)
  {
  }

  /** The history of one stream: completed bands, the band being drained with its position, and
      every row version served so far, in order. */
  datatype Scan = Scan(done: seq<Band>, current: Option<Band>, position: Option<Position>, log: seq<Row>)

  /** How far the first n bands reach. */
  function HighRow(done: seq<Band>, n: nat): nat
    requires n <= |done|
  {
    if n == 0 then 0 else done[n - 1].highRow
  }

  function HighSeq(done: seq<Band>, n: nat): nat
    requires n <= |done|
  {
    if n == 0 then 0 else done[n - 1].highSeq
  }

  function CoveredRow(s: Scan): nat {
    HighRow(s.done, |s.done|)
  }

  function CoveredSeq(s: Scan): nat {
    HighSeq(s.done, |s.done|)
  }

  predicate SameVersion(a: Row, b: Row) {
    a.rowid == b.rowid && a.sequence == b.sequence
  }

  ghost predicate ServedOnce(log: seq<Row>) {
    forall i, j :: 0 <= i < j < |log| ==> !SameVersion(log[i], log[j])
  }

  /** Bands cover adjacent, non-overlapping intervals from zero. */
  ghost predicate Adjacent(s: Scan) {
    && (forall i :: 0 <= i < |s.done| ==> Follows(s.done[i], s.done, i))
    && (s.current.Some? ==> Follows(s.current.value, s.done, |s.done|))
  }

  predicate Follows(b: Band, done: seq<Band>, n: nat)
    requires n <= |done|
  {
    b.lowRow == HighRow(done, n) && b.lowSeq == HighSeq(done, n)
  }

  predicate Within(highRow: nat, highSeq: nat, r: Row) {
    r.rowid <= highRow && r.sequence <= highSeq
  }

  /** What completed band i says about a visible row. */
  predicate DoneHolds(s: Scan, i: nat, r: Row)
    requires i < |s.done|
  {
    var b := s.done[i];
    && (Within(b.highRow, b.highSeq, r) ==> Within(CoveredRow(s), CoveredSeq(s), r))
    && (0 < r.sequence <= b.highSeq ==> r.rowid <= b.highRow)
    && (Answers(b, r) ==> (r in s.log <==> Wanted(b, r)))
  }

  /** What the band being drained says about a visible row. */
  predicate CurrentHolds(s: Scan, b: Band, r: Row) {
    && (0 < r.sequence <= b.highSeq ==> r.rowid <= b.highRow)
    && (r.rowid <= b.lowRow && r.sequence <= b.highSeq ==> r.rowid <= b.highRow)
    && (Wanted(b, r) && !Past(s.position, r) ==> r in s.log)
  }

  /** A served row still in the table is either behind the covered frontier or already passed. */
  predicate Settled(s: Scan, r: Row) {
    || Within(CoveredRow(s), CoveredSeq(s), r)
    || (s.current.Some? && Wanted(s.current.value, r) && !Past(s.position, r))
  }

  ghost predicate RowHolds(s: Scan, r: Row) {
    && (forall i :: 0 <= i < |s.done| ==> DoneHolds(s, i, r))
    && (s.current.Some? ==> CurrentHolds(s, s.current.value, r))
    && (r in s.log ==> Settled(s, r))
    && (forall e :: e in s.log && SameVersion(e, r) ==> e == r)
  }

  /** Frontiers were captured from the table, so they lie within its counters. */
  ghost predicate Captured(t: Table, s: Scan) {
    && (forall i :: 0 <= i < |s.done| ==> Within(t.lastRowid, t.lastSequence, HighCorner(s.done[i])))
    && (s.current.Some? ==>
          Within(t.lastRowid, t.lastSequence, HighCorner(s.current.value))
          && s.current.value.lowSeq <= s.current.value.highSeq)
    && (forall e :: e in s.log ==> e.visible && Within(t.lastRowid, t.lastSequence, e))
  }

  function HighCorner(b: Band): Row {
    Row(b.highRow, 0, Stamp(0, None), b.highSeq, false, false)
  }

  ghost predicate ScanInv(t: Table, s: Scan) {
    && ValidTable(t) && Adjacent(s) && Captured(t, s)
    && Keyed(s.position) && (s.current.None? ==> s.position.None?)
    && ServedOnce(s.log)
    && (forall r :: r in t.rows && r.visible ==> RowHolds(s, r))
  }

  /** Every row version visible later under captured bounds was there before, unchanged. */
  lemma Frozen(a: Table, b: Table, high: Band, r: Row)
    requires Evolves(a, b) && high.highRow <= a.lastRowid && high.highSeq <= a.lastSequence
    requires r in b.rows && r.visible && r.sequence <= high.highSeq
    requires r.rowid <= high.highRow || 0 < r.sequence
    ensures r in a.rows
  {
  }

  lemma NewRowHolds(a: Table, s: Scan, r: Row)
    requires ScanInv(a, s) && r.visible
    requires r.rowid > a.lastRowid || r.sequence > a.lastSequence
    requires r.rowid > a.lastRowid ==> r.sequence == 0 || r.sequence > a.lastSequence
    ensures RowHolds(s, r)
  {
    forall i | 0 <= i < |s.done| ensures DoneHolds(s, i, r) {
      assert Within(a.lastRowid, a.lastSequence, HighCorner(s.done[i]));
    }
    if s.current.Some? {
      assert Follows(s.current.value, s.done, |s.done|);
      assert s.done != [] ==> Within(a.lastRowid, a.lastSequence, HighCorner(s.done[|s.done| - 1]));
    }
  }

  lemma WritersKeepScan(a: Table, b: Table, s: Scan)
    requires Evolves(a, b) && ScanInv(a, s)
    ensures ScanInv(b, s)
  {
    forall r | r in b.rows && r.visible ensures RowHolds(s, r) {
      if r !in a.rows {
        NewRowHolds(a, s, r);
      }
    }
  }

  /** `page` is what one limited query may return for the band from this position. */
  ghost predicate IsPage(rows: seq<Row>, b: Band, p: Option<Position>, limit: nat, page: seq<Row>) {
    && Ordered(page) && |page| <= limit
    && (forall r :: r in page ==> r in rows && Wanted(b, r) && Past(p, r))
    && (forall r :: r in rows && Wanted(b, r) && Past(p, r) && r !in page ==>
          |page| == limit && (page != [] ==> Before(page[|page| - 1], r)))
  }

  ghost predicate Drained(rows: seq<Row>, b: Band, p: Option<Position>) {
    forall r :: r in rows && Wanted(b, r) ==> !Past(p, r)
  }

  function Served(s: Scan, page: seq<Row>): Scan {
    s.(position := Furthest(s.position, page), log := s.log + page)
  }

  lemma PagePassesItsRows(p: Option<Position>, page: seq<Row>, r: Row)
    requires Keyed(p) && Ordered(page) && forall e :: e in page ==> Past(p, e)
    ensures !Past(p, r) ==> !Past(Furthest(p, page), r)
    ensures r in page ==> !Past(Furthest(p, page), r)
    ensures page != [] && Past(p, r) && !Past(Furthest(p, page), r) ==> !Before(page[|page| - 1], r)
  {
    if page != [] {
      var last := page[|page| - 1];
      assert last in page;
      if r in page {
        var i :| 0 <= i < |page| && page[i] == r;
        assert i < |page| - 1 ==> Before(page[i], last);
      }
    }
  }

  lemma PageRowHolds(t: Table, s: Scan, limit: nat, page: seq<Row>, r: Row)
    requires ScanInv(t, s) && s.current.Some?
    requires IsPage(t.rows, s.current.value, s.position, limit, page)
    requires r in t.rows && r.visible
    ensures RowHolds(Served(s, page), r)
  {
    var s' := Served(s, page);
    var b := s.current.value;
    assert RowHolds(s, r) && Follows(b, s.done, |s.done|);
    assert r in s'.log <==> r in s.log || r in page;
    PagePassesItsRows(s.position, page, r);
    forall i | 0 <= i < |s.done| ensures DoneHolds(s', i, r) {
      assert DoneHolds(s, i, r);
    }
    forall e | e in s'.log && SameVersion(e, r) ensures e == r {
      if e in page {
        SameRowid(t.rows, e, r);
      }
    }
  }

  lemma PageKeepsScan(t: Table, s: Scan, limit: nat, page: seq<Row>)
    requires ScanInv(t, s) && s.current.Some?
    requires IsPage(t.rows, s.current.value, s.position, limit, page)
    ensures ScanInv(t, Served(s, page))
  {
    var s' := Served(s, page);
    assert s'.done == s.done && s'.current == s.current;
    PageIsNew(t, s, page);
    forall r | r in t.rows && r.visible ensures RowHolds(s', r) {
      PageRowHolds(t, s, limit, page, r);
    }
  }

  lemma SameRowid(rows: seq<Row>, a: Row, b: Row)
    requires Distinct(rows) && a in rows && b in rows && a.rowid == b.rowid
    ensures a == b
  {
  }

  lemma PageIsNew(t: Table, s: Scan, page: seq<Row>)
    requires ScanInv(t, s) && s.current.Some? && Ordered(page)
    requires forall r :: r in page ==> r in t.rows && Wanted(s.current.value, r) && Past(s.position, r)
    ensures ServedOnce(s.log + page)
  {
    var log := s.log + page;
    forall i, j | 0 <= i < j < |log| ensures !SameVersion(log[i], log[j]) {
      if j >= |s.log| {
        var r := page[j - |s.log|];
        assert r in page && log[j] == r;
        if i < |s.log| {
          NotServedYet(t, s, log[i], r);
        } else {
          assert log[i] == page[i - |s.log|] && log[i] in page && Before(log[i], r);
          if log[i].rowid == r.rowid {
            SameRowid(t.rows, log[i], r);
          }
        }
      }
    }
  }

  lemma NotServedYet(t: Table, s: Scan, e: Row, r: Row)
    requires ScanInv(t, s) && s.current.Some? && e in s.log
    requires r in t.rows && Wanted(s.current.value, r) && Past(s.position, r)
    ensures !SameVersion(e, r)
  {
    assert RowHolds(s, r) && Follows(s.current.value, s.done, |s.done|);
  }

  function Started(s: Scan, b: Band): Scan {
    s.(current := Some(b), position := None)
  }

  function Finished(s: Scan): Scan
    requires s.current.Some?
  {
    s.(done := s.done + [s.current.value], current := None, position := None)
  }

  lemma StartKeepsScan(t: Table, s: Scan, end: Option<Stamp>, highSeq: nat)
    requires ScanInv(t, s) && s.current.None?
    requires CoveredSeq(s) <= highSeq <= t.lastSequence
    requires forall r :: r in t.rows && r.visible ==> r.sequence <= highSeq
    ensures ScanInv(t, Started(s, Band(CoveredRow(s), MaxRowid(t.rows), end, CoveredSeq(s), highSeq)))
  {
    var b := Band(CoveredRow(s), MaxRowid(t.rows), end, CoveredSeq(s), highSeq);
    var s' := Started(s, b);
    assert Follows(b, s.done, |s.done|) && Adjacent(s');
    forall r | r in t.rows && r.visible ensures RowHolds(s', r) {
      assert RowHolds(s, r);
      forall i | 0 <= i < |s.done| ensures DoneHolds(s', i, r) {
        assert DoneHolds(s, i, r);
      }
    }
  }

  lemma FinishedRowHolds(t: Table, s: Scan, r: Row)
    requires ScanInv(t, s) && s.current.Some? && Drained(t.rows, s.current.value, s.position)
    requires r in t.rows && r.visible
    ensures RowHolds(Finished(s), r)
  {
    var s' := Finished(s);
    var b := s.current.value;
    assert RowHolds(s, r) && Follows(b, s.done, |s.done|);
    assert CoveredRow(s') == b.highRow && CoveredSeq(s') == b.highSeq;
    forall i | 0 <= i < |s'.done| ensures DoneHolds(s', i, r) {
      if i < |s.done| {
        assert s'.done[i] == s.done[i] && DoneHolds(s, i, r);
      } else {
        assert s'.done[i] == b;
      }
    }
  }

  lemma FinishKeepsScan(t: Table, s: Scan)
    requires ScanInv(t, s) && s.current.Some? && Drained(t.rows, s.current.value, s.position)
    ensures ScanInv(t, Finished(s))
  {
    var s' := Finished(s);
    forall i | 0 <= i < |s'.done|
      ensures Follows(s'.done[i], s'.done, i) && Within(t.lastRowid, t.lastSequence, HighCorner(s'.done[i]))
    {
      if i < |s.done| {
        assert s'.done[i] == s.done[i] && Follows(s.done[i], s.done, i);
      } else {
        assert Follows(s.current.value, s.done, |s.done|);
      }
    }
    forall r | r in t.rows && r.visible ensures RowHolds(s', r) {
      FinishedRowHolds(t, s, r);
    }
  }

  lemma DrainedStays(a: Table, b: Table, s: Scan)
    requires Evolves(a, b) && ScanInv(a, s) && s.current.Some?
    requires Drained(a.rows, s.current.value, s.position)
    ensures Drained(b.rows, s.current.value, s.position)
  {
    forall r | r in b.rows && Wanted(s.current.value, r) ensures !Past(s.position, r) {
      Frozen(a, b, s.current.value, r);
    }
  }

  /** Every visible row behind the covered frontier belongs to one of the completed bands. */
  lemma {:induction false} CoveredIsAnswered(done: seq<Band>, r: Row) returns (i: nat)
    requires forall k :: 0 <= k < |done| ==> Follows(done[k], done, k)
    requires 0 < r.rowid && Within(HighRow(done, |done|), HighSeq(done, |done|), r)
    ensures i < |done| && Answers(done[i], r)
  {
    var n := |done| - 1;
    assert Follows(done[n], done, n);
    if n > 0 && Within(HighRow(done, n), HighSeq(done, n), r) {
      forall k | 0 <= k < n ensures Follows(done[..n][k], done[..n], k) {
        assert Follows(done[k], done, k);
      }
      i := CoveredIsAnswered(done[..n], r);
    } else {
      i := n;
    }
  }

  /** No lost update: a record visible now and last changed at a sequence some completed scan
      reached has been served in exactly this state, whatever its timestamp. */
  lemma {:induction false} ChangedIsServed(t: Table, s: Scan, r: Row, n: nat)
    requires ScanInv(t, s) && r in t.rows && r.visible
    requires n <= |s.done| && 0 < r.sequence <= HighSeq(s.done, n)
    ensures r in s.log
  {
    assert Follows(s.done[n - 1], s.done, n - 1);
    assert RowHolds(s, r) && DoneHolds(s, n - 1, r);
    if n > 1 && r.sequence <= HighSeq(s.done, n - 1) {
      ChangedIsServed(t, s, r, n - 1);
    } else {
      assert Answers(s.done[n - 1], r) && Wanted(s.done[n - 1], r);
    }
  }
}
