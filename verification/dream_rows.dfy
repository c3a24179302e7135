/** Source rows, the row order and the page query of the Dreamer scheduler (`src/dream.rs`). */
module DreamRows {
  import opened Basics

  /** An RFC 3339 string: `text` is its rank in the byte order SQLite and `String` compare with,
      `instant` the moment it parses to, if it parses.  The two orders need not agree. */
  datatype Stamp = Stamp(text: int, instant: Option<int>)

  predicate Later(a: Stamp, b: Stamp) {
    a.instant.Some? && b.instant.Some? && a.instant.value > b.instant.value
  }

  predicate NotLater(a: Stamp, b: Stamp) {
    a.instant.Some? && b.instant.Some? && a.instant.value <= b.instant.value
  }

  /** A row of one of the five source tables joined with its scheduler rowid.
      `sequence` is the mutation sequence (0 when never stamped); `visible` says the row is in the
      queried scope and, for a memory record, not archived, quarantined or secret-blocked;
      `imported` marks a `chatgpt-export` turn that yields a candidate record. */
  datatype Row = Row(rowid: nat, id: int, stamp: Stamp, sequence: nat, visible: bool, imported: bool)

  datatype Position = Position(stamp: Stamp, id: int, rowid: Option<nat>)

  /** A table with the counters its triggers and transactions draw from. */
  datatype Table = Table(rows: seq<Row>, lastRowid: nat, lastSequence: nat)

  ghost predicate ValidTable(t: Table) {
    && (forall r :: r in t.rows ==> 0 < r.rowid <= t.lastRowid && r.sequence <= t.lastSequence)
    && Distinct(t.rows)
  }

  ghost predicate Distinct(rows: seq<Row>) {
    forall i, j :: 0 <= i < j < |rows| ==> rows[i].rowid != rows[j].rowid && rows[i].id != rows[j].id
  }

  /** ORDER BY timestamp DESC, rowid ASC. */
  predicate Before(a: Row, b: Row) {
    a.stamp.text > b.stamp.text || (a.stamp.text == b.stamp.text && a.rowid < b.rowid)
  }

  ghost predicate Ordered(s: seq<Row>) {
    forall i, j :: 0 <= i < j < |s| ==> Before(s[i], s[j])
  }

  /** The bounds one query of a source stream is run with. */
  datatype Query = Query(
    start: Option<Stamp>, startExclusive: bool, lowerStrict: bool, postFrontier: bool,
    lowerRowid: Option<nat>, end: Option<Stamp>, upperRowid: Option<nat>,
    position: Option<Position>, mutation: Option<(nat, nat)>)

  predicate StartFilter(q: Query, r: Row) {
    match (q.start, q.lowerRowid)
    case (Some(s), Some(low)) =>
      if q.lowerStrict then
        (if q.startExclusive then r.stamp.text > s.text else r.stamp.text >= s.text) && r.rowid > low
      else
        r.stamp.text > s.text || (r.stamp.text == s.text && r.rowid > low)
    case (Some(s), None) => if q.startExclusive then r.stamp.text > s.text else r.stamp.text >= s.text
    case (None, Some(low)) => r.rowid > low
    case (None, None) => true
  }

  predicate UntilEnd(end: Option<Stamp>, r: Row) {
    end.Some? ==> r.stamp.text <= end.value.text
  }

  predicate EndFilter(q: Query, r: Row) {
    UntilEnd(q.end, r) && (q.upperRowid.Some? ==> r.rowid <= q.upperRowid.value)
  }

  predicate PostFrontier(q: Query, r: Row) {
    q.postFrontier && q.lowerRowid.Some? && q.upperRowid.Some?
    && q.lowerRowid.value < r.rowid <= q.upperRowid.value && UntilEnd(q.end, r)
  }

  predicate MutatedSince(q: Query, r: Row) {
    q.mutation.Some? && q.mutation.value.0 < r.sequence <= q.mutation.value.1
  }

  /** The keyset condition: a position without a rowid falls back to the identifier. */
  predicate Past(p: Option<Position>, r: Row) {
    p.None?
    || r.stamp.text < p.value.stamp.text
    || (r.stamp.text == p.value.stamp.text
        && if p.value.rowid.Some? then r.rowid > p.value.rowid.value else r.id > p.value.id)
  }

  predicate Matches(q: Query, r: Row) {
    && r.visible
    && (q.mutation.Some? ==> r.sequence <= q.mutation.value.1)
    && ((StartFilter(q, r) && EndFilter(q, r)) || PostFrontier(q, r) || MutatedSince(q, r))
    && Past(q.position, r)
  }

  function InsertRow(r: Row, s: seq<Row>): seq<Row> {
    if s == [] || Before(r, s[0]) then [r] + s else [s[0]] + InsertRow(r, s[1..])
  }

  /** Every matching row, in query order. */
  function Matching(rows: seq<Row>, q: Query): seq<Row> {
    if rows == [] then []
    else
      var rest := Matching(rows[1..], q);
      if Matches(q, rows[0]) then InsertRow(rows[0], rest) else rest
  }

  /** `query_dream_rows`: filter, order, limit. */
  function SelectRows(rows: seq<Row>, q: Query, limit: nat): seq<Row> {
    var all := Matching(rows, q);
    if |all| <= limit then all else all[..limit]
  }

  lemma {:induction false} InsertRowMembers(r: Row, s: seq<Row>)
    ensures |InsertRow(r, s)| == |s| + 1
    ensures forall e :: e in InsertRow(r, s) <==> e == r || e in s
  {
    if s != [] && !Before(r, s[0]) {
      InsertRowMembers(r, s[1..]);
      assert s == [s[0]] + s[1..];
    }
  }

  lemma {:induction false} InsertRowKeeps(r: Row, s: seq<Row>)
    requires Ordered(s) && forall e :: e in s ==> e.rowid != r.rowid
    ensures Ordered(InsertRow(r, s))
  {
    if s != [] && !Before(r, s[0]) {
      InsertRowKeeps(r, s[1..]);
      InsertRowMembers(r, s[1..]);
      var rest := InsertRow(r, s[1..]);
      assert s == [s[0]] + s[1..];
      forall i, j | 0 <= i < j < |rest| + 1 ensures Before(([s[0]] + rest)[i], ([s[0]] + rest)[j]) {
        if i == 0 {
          assert rest[j - 1] in rest;
        }
      }
    } else if s != [] {
      forall i, j | 0 <= i < j < |s| + 1 ensures Before(([r] + s)[i], ([r] + s)[j]) {
        assert i == 0 && j > 1 ==> Before(s[0], s[j - 1]);
      }
    }
  }

  /** The query lists exactly the matching rows, once each, in order. */
  lemma {:induction false} MatchingIsExact(rows: seq<Row>, q: Query)
    requires Distinct(rows)
    ensures Ordered(Matching(rows, q))
    ensures forall r :: r in Matching(rows, q) <==> r in rows && Matches(q, r)
  {
    if rows != [] {
      assert rows == [rows[0]] + rows[1..];
      assert Distinct(rows[1..]);
      MatchingIsExact(rows[1..], q);
      forall e | e in rows[1..] ensures e.rowid != rows[0].rowid {
        var i :| 0 <= i < |rows[1..]| && rows[1..][i] == e;
        assert rows[i + 1] == e;
      }
      if Matches(q, rows[0]) {
        InsertRowKeeps(rows[0], Matching(rows[1..], q));
        InsertRowMembers(rows[0], Matching(rows[1..], q));
      }
    }
  }

  lemma IndexOrder(s: seq<Row>, i: nat, j: nat)
    requires Ordered(s) && i < |s| && j < |s|
    ensures Before(s[i], s[j]) <==> i < j
  {
    if j < i {
      assert Before(s[j], s[i]);
    }
  }

  ghost predicate SameMembers(a: seq<Row>, b: seq<Row>) {
    forall r :: r in a <==> r in b
  }

  lemma Inhabited(s: seq<Row>)
    ensures s == [] || exists r :: r in s
  {
    if s != [] {
      assert s[0] in s;
    }
  }

  /** Two ordered sequences with the same members are equal. */
  lemma {:induction false} OrderedUnique(a: seq<Row>, b: seq<Row>)
    requires Ordered(a) && Ordered(b)
    requires forall r :: r in a <==> r in b
    ensures a == b
  {
    if a == [] {
      Inhabited(b);
    } else {
      assert a[0] in b && b != [];
      assert b[0] in a;
      assert a[0] == b[0];
      assert a == [a[0]] + a[1..] && b == [b[0]] + b[1..];
      forall r ensures r in a[1..] <==> r in b[1..] {
        if r in a[1..] {
          assert Before(a[0], r) && r in b;
        }
        if r in b[1..] {
          assert Before(b[0], r) && r in a;
        }
      }
      OrderedUnique(a[1..], b[1..]);
    }
  }

  ghost predicate NoRepeats(s: seq<Row>) {
    forall i, j :: 0 <= i < j < |s| ==> s[i] != s[j]
  }

  /** A sequence without repetitions whose members all occur in another is no longer than it. */
  lemma {:induction false} SubsetShorter(a: seq<Row>, b: seq<Row>)
    requires NoRepeats(a) && forall r :: r in a ==> r in b
    ensures |a| <= |b|
  {
    if a != [] {
      assert a[0] in b;
      var k :| 0 <= k < |b| && b[k] == a[0];
      var rest := b[..k] + b[k + 1..];
      forall r | r in a[1..] ensures r in rest {
        var n :| 0 <= n < |a[1..]| && a[1..][n] == r;
        assert a[n + 1] == r && r in a && r in b;
        var m :| 0 <= m < |b| && b[m] == r;
        assert m != k;
        assert if m < k then rest[m] == r else rest[m - 1] == r;
      }
      SubsetShorter(a[1..], rest);
    }
  }

  /** Two disjoint ordered sequences within a third are together no longer than it. */
  lemma DisjointShorter(a: seq<Row>, b: seq<Row>, all: seq<Row>)
    requires Ordered(a) && Ordered(b) && forall r :: r in a ==> r !in b
    requires forall r :: r in a || r in b ==> r in all
    ensures |a| + |b| <= |all|
  {
    var both := a + b;
    forall i, j | 0 <= i < j < |both| ensures both[i] != both[j] {
      if j < |a| {
        assert Before(a[i], a[j]);
      } else if i < |a| {
        assert a[i] in a && b[j - |a|] in b;
      } else {
        assert Before(b[i - |a|], b[j - |a|]);
      }
    }
    SubsetShorter(both, all);
  }

  /** `base` with the rows of `extra` it lacks sorted in. */
  function Merged(extra: seq<Row>, base: seq<Row>): seq<Row> {
    if extra == [] then base
    else
      var rest := Merged(extra[1..], base);
      if extra[0] in rest then rest else InsertRow(extra[0], rest)
  }

  lemma {:induction false} MergedMembers(extra: seq<Row>, base: seq<Row>)
    ensures forall r :: r in Merged(extra, base) <==> r in extra || r in base
    ensures |base| <= |Merged(extra, base)| <= |base| + |extra|
  {
    if extra != [] {
      MergedMembers(extra[1..], base);
      assert extra == [extra[0]] + extra[1..];
      InsertRowMembers(extra[0], Merged(extra[1..], base));
    }
  }

  /** A rowid names one row among these two sequences. */
  ghost predicate OneRowEach(a: seq<Row>, b: seq<Row>) {
    forall x, y :: (x in a || x in b) && (y in a || y in b) && x.rowid == y.rowid ==> x == y
  }

  lemma {:induction false} MergedOrdered(extra: seq<Row>, base: seq<Row>)
    requires Ordered(base) && OneRowEach(extra, base)
    ensures Ordered(Merged(extra, base))
  {
    if extra != [] {
      assert extra == [extra[0]] + extra[1..];
      MergedOrdered(extra[1..], base);
      MergedMembers(extra[1..], base);
      var rest := Merged(extra[1..], base);
      if extra[0] !in rest {
        InsertRowKeeps(extra[0], rest);
      }
    }
  }

  function PositionOf(r: Row): Position {
    Position(r.stamp, r.id, Some(r.rowid))
  }

  function Furthest(p: Option<Position>, page: seq<Row>): Option<Position> {
    if page == [] then p else Some(PositionOf(page[|page| - 1]))
  }

  /** A position written by the current scheduler carries its rowid. */
  predicate Keyed(p: Option<Position>) {
    p.Some? ==> p.value.rowid.Some?
  }

  /** Moving the position to a matching row keeps exactly the matching rows after it. */
  lemma MovedPosition(q: Query, last: Row, r: Row)
    requires Keyed(q.position) && Matches(q, last)
    ensures Matches(q.(position := Some(PositionOf(last))), r) <==> Matches(q, r) && Before(last, r)
  {
    var next := q.(position := Some(PositionOf(last)));
    assert StartFilter(q, r) == StartFilter(next, r) && EndFilter(q, r) == EndFilter(next, r);
    assert PostFrontier(q, r) == PostFrontier(next, r) && MutatedSince(q, r) == MutatedSince(next, r);
  }

  /** A page refines the plain query: it is a prefix of the undelivered rows, and moving the
      position to its last row leaves exactly the rest. */
  lemma PageRefinesQuery(rows: seq<Row>, q: Query, limit: nat)
    requires Distinct(rows) && Keyed(q.position)
    ensures var page := SelectRows(rows, q, limit);
            var next := q.(position := Furthest(q.position, page));
            Matching(rows, q) == page + Matching(rows, next)
  {
    var all := Matching(rows, q);
    var page := SelectRows(rows, q, limit);
    var rest := all[|page|..];
    MatchingIsExact(rows, q);
    assert all == page + rest;
    if page != [] {
      var last := all[|page| - 1];
      var next := q.(position := Some(PositionOf(last)));
      MatchingIsExact(rows, next);
      assert last in all;
      forall r ensures r in rest <==> r in Matching(rows, next) {
        MovedPosition(q, last, r);
        AfterIndex(all, |page| - 1, r);
      }
      OrderedUnique(rest, Matching(rows, next));
    } else {
      assert q.(position := Furthest(q.position, page)) == q;
    }
  }

  lemma AfterIndex(s: seq<Row>, k: nat, r: Row)
    requires Ordered(s) && k < |s|
    ensures r in s[k + 1..] <==> r in s && Before(s[k], r)
  {
    if r in s {
      var i :| 0 <= i < |s| && s[i] == r;
      assert i > k ==> s[k + 1..][i - k - 1] == r;
      assert i < k ==> Before(s[i], s[k]);
    }
  }

  /** The pages of a run of queries with the given limits, over one unchanging table. */
  function Pages(rows: seq<Row>, q: Query, limits: seq<nat>): seq<Row>
    decreases limits
  {
    if limits == [] then []
    else
      var page := SelectRows(rows, q, limits[0]);
      page + Pages(rows, q.(position := Furthest(q.position, page)), limits[1..])
  }

  function Total(limits: seq<nat>): nat {
    if limits == [] then 0 else limits[0] + Total(limits[1..])
  }

  /** However the limits cut them, the pages concatenate to the plain ordered query. */
  lemma {:induction false} PagesConcatenate(rows: seq<Row>, q: Query, limits: seq<nat>)
    requires Distinct(rows) && Keyed(q.position)
    ensures Pages(rows, q, limits) == SelectRows(rows, q, Total(limits))
    decreases limits
  {
    if limits != [] {
      PageRefinesQuery(rows, q, limits[0]);
      var page := SelectRows(rows, q, limits[0]);
      var next := q.(position := Furthest(q.position, page));
      PagesConcatenate(rows, next, limits[1..]);
      var all := Matching(rows, q);
      var rest := Matching(rows, next);
      if |all| <= limits[0] {
        assert |rest| == 0;
      } else if |all| > Total(limits) {
        assert all[..Total(limits)] == page + rest[..Total(limits[1..])];
      }
    }
  }

  function MaxRowid(rows: seq<Row>): (m: nat)
    ensures forall r :: r in rows ==> r.rowid <= m
    ensures m == 0 || exists r :: r in rows && r.rowid == m
  {
    if rows == [] then 0
    else
      var m := MaxRowid(rows[1..]);
      assert rows == [rows[0]] + rows[1..];
      assert rows[0] in rows;
      if rows[0].rowid > m then rows[0].rowid else m
  }
}
