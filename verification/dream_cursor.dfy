/** The stored scheduler cursor of `src/dream.rs`: how it is pinned, moved and completed. */
module DreamCursor {
  import opened Basics
  import opened DreamRows

  datatype Stream = Turns | Conclusions | Checkpoints | Sources | Records

  /** One value per source stream. */
  datatype PerStream<+T> = PerStream(turns: T, conclusions: T, checkpoints: T, sources: T, records: T) {
    function At(s: Stream): T {
      match s
      case Turns => turns
      case Conclusions => conclusions
      case Checkpoints => checkpoints
      case Sources => sources
      case Records => records
    }
  }

  type Store = PerStream<Table>

  datatype Frontier = Frontier(rowids: PerStream<nat>, sequence: nat)

  const ZERO_FRONTIER := Frontier(PerStream(0, 0, 0, 0, 0), 0)
  const NO_POSITIONS: PerStream<Option<Position>> := PerStream(None, None, None, None, None)

  /** `scheduler_rowid_frontier`: all maxima and the mutation counter, read in one transaction. */
  function FrontierOf(store: Store): Frontier {
    Frontier(
      PerStream(MaxRowid(store.turns.rows), MaxRowid(store.conclusions.rows), MaxRowid(store.checkpoints.rows),
                MaxRowid(store.sources.rows), MaxRowid(store.records.rows)),
      store.records.lastSequence)
  }

  /** A cursor as it is written to the run log. */
  datatype SavedCursor = SavedCursor(
    lowerBound: Option<Stamp>, lowerExclusive: bool, lowerStrict: bool, postFrontier: bool,
    upperBound: Option<Stamp>, upperUnbounded: bool,
    lowerRowids: Option<Frontier>, upperRowids: Option<Frontier>,
    mutationLower: Option<nat>, mutationUpper: Option<nat>,
    positions: PerStream<Option<Position>>)

  const DEFAULT_CURSOR :=
    SavedCursor(None, false, false, false, None, false, None, None, None, None, NO_POSITIONS)

  /** A watermark is a bare timestamp or an encoded cursor. */
  datatype Watermark = Timestamp(at: Stamp) | Encoded(cursor: SavedCursor)

  predicate HasPosition(p: PerStream<Option<Position>>) {
    p.turns.Some? || p.conclusions.Some? || p.checkpoints.Some? || p.sources.Some? || p.records.Some?
  }

  predicate HasLegacyPosition(p: PerStream<Option<Position>>) {
    !(Keyed(p.turns) && Keyed(p.conclusions) && Keyed(p.checkpoints) && Keyed(p.sources) && Keyed(p.records))
  }

  /** One source of the active-record stream: a memory record, or a record derived from a turn. */
  datatype Active = Active(row: Row, fromTurn: bool)

  datatype Window = Window(
    end: Stamp, turns: seq<Row>, conclusions: seq<Row>, checkpoints: seq<Row>, sources: seq<Row>,
    active: seq<Active>)

  function Count(w: Window): nat {
    |w.turns| + |w.conclusions| + |w.checkpoints| + |w.sources| + |w.active|
  }

  function ActiveRows(active: seq<Active>, fromTurn: bool): seq<Row> {
    if active == [] then []
    else
      (if active[0].fromTurn == fromTurn then [active[0].row] else []) + ActiveRows(active[1..], fromTurn)
  }

  /** `rowids_for_ids` for one identifier. */
  function RowidOf(rows: seq<Row>, id: int): Option<nat> {
    if rows == [] then None
    else if rows[0].id == id then Some(rows[0].rowid)
    else RowidOf(rows[1..], id)
  }

  predicate Replaces(candidate: Position, current: Position) {
    || candidate.stamp.text < current.stamp.text
    || (candidate.stamp.text == current.stamp.text
        && if candidate.rowid.Some? && current.rowid.Some? then candidate.rowid.value > current.rowid.value
           else candidate.id > current.id)
  }

  /** `update_cursor_position`. */
  function Moved(slot: Option<Position>, candidate: Position): Option<Position> {
    if slot.None? || Replaces(candidate, slot.value) then Some(candidate) else slot
  }

  function Folded(slot: Option<Position>, sources: seq<Row>, known: seq<Row>): Option<Position> {
    if sources == [] then slot
    else
      var r := sources[|sources| - 1];
      Moved(Folded(slot, sources[..|sources| - 1], known), Position(r.stamp, r.id, RowidOf(known, r.id)))
  }

  /** Where the five positions are once a window has been delivered. */
  function FoldedAll(p: PerStream<Option<Position>>, lookup: Store, w: Window): PerStream<Option<Position>> {
    PerStream(
      Folded(Folded(p.turns, w.turns, lookup.turns.rows), ActiveRows(w.active, true), lookup.turns.rows),
      Folded(p.conclusions, w.conclusions, lookup.conclusions.rows),
      Folded(p.checkpoints, w.checkpoints, lookup.checkpoints.rows),
      Folded(p.sources, w.sources, lookup.sources.rows),
      Folded(p.records, ActiveRows(w.active, false), lookup.records.rows))
  }

  // ---- what pinning and completing a cursor amount to

  function Begun(c: SavedCursor, upper: nat): SavedCursor {
    c.(mutationLower := if c.mutationLower.None? then Some(if c.mutationUpper.Some? then c.mutationUpper.value else 0)
                        else c.mutationLower,
       mutationUpper := Some(upper))
  }

  /** A cursor that cannot be resumed starts its band over from a newly captured frontier. */
  function Rewound(c: SavedCursor, f: Frontier): SavedCursor {
    var c' := Begun(c, f.sequence).(positions := NO_POSITIONS, upperRowids := Some(f));
    if c.lowerBound.None? then c'
    else
      c'.(lowerExclusive := false, lowerRowids := if c.lowerStrict then c.lowerRowids else Some(ZERO_FRONTIER))
  }

  predicate Stale(c: SavedCursor) {
    c.upperRowids.None? || HasLegacyPosition(c.positions)
  }

  predicate InBand(c: SavedCursor) {
    c.upperUnbounded || c.upperBound.Some?
  }

  predicate AtRest(c: SavedCursor) {
    c.lowerStrict && c.upperBound.None? && c.lowerRowids.Some? && !HasPosition(c.positions)
  }

  /** The band is done: its frontiers become the lower frontiers of the next one. */
  function Rested(c: SavedCursor, at: Stamp, post: bool): SavedCursor {
    SavedCursor(Some(at), false, true, post, None, false, c.upperRowids, None,
                if c.mutationUpper.Some? then c.mutationUpper else c.mutationLower, None, NO_POSITIONS)
  }

  function NextBand(c: SavedCursor, from: Stamp, until: Stamp, f: Frontier): SavedCursor {
    SavedCursor(Some(from), false, true, true, Some(until), false, c.upperRowids, Some(f),
                Some(if c.mutationUpper.Some? then c.mutationUpper.value
                     else if c.mutationLower.Some? then c.mutationLower.value else 0),
                Some(f.sequence), NO_POSITIONS)
  }

  function FromWatermark(previous: Option<Watermark>): SavedCursor {
    match previous
    case Some(Encoded(c)) => c
    case Some(Timestamp(t)) => DEFAULT_CURSOR.(lowerBound := Some(t))
    case None => DEFAULT_CURSOR
  }

  function Pinned(store: Store, previous: Option<Watermark>, now: Stamp, unbounded: bool): SavedCursor {
    var f := FrontierOf(store);
    match previous
    case Some(Encoded(c)) =>
      if AtRest(c) then
        var until := if c.lowerBound.Some? && NotLater(now, c.lowerBound.value) then c.lowerBound.value else now;
        Begun(c, f.sequence).(upperUnbounded := false, upperBound := Some(until), postFrontier := true,
                              upperRowids := Some(f))
      else if c.mutationUpper.None? then
        c.(mutationLower := Some(if c.upperRowids.Some? then c.upperRowids.value.sequence else 0),
           mutationUpper := Some(f.sequence), upperRowids := Some(f))
      else c
    case _ =>
      FromWatermark(previous).(
        upperBound := if unbounded then None else Some(now), upperUnbounded := unbounded,
        mutationLower := Some(if previous.Some? then f.sequence else 0),
        mutationUpper := Some(f.sequence), upperRowids := Some(f))
  }

  function WatermarkAfter(lookup: Store, after: Store, previous: Option<Watermark>, w: Window, now: Stamp, full: bool)
    : Watermark
  {
    var c := FromWatermark(previous);
    var f := FrontierOf(after);
    if !InBand(c) && full then
      Encoded(Begun(c.(positions := NO_POSITIONS, upperBound := Some(w.end)), f.sequence).(upperRowids := Some(f)))
    else if !InBand(c) then
      Timestamp(now)
    else if Stale(c) then
      Encoded(Rewound(c, f))
    else if full then
      Encoded(c.(positions := FoldedAll(c.positions, lookup, w)))
    else if c.upperUnbounded then
      Encoded(Rested(c, now, false))
    else if Later(now, c.upperBound.value) then
      Encoded(NextBand(c, c.upperBound.value, now, f))
    else
      Encoded(Rested(c, c.upperBound.value, true))
  }

  // ---- the cursor as the source works on it, field by field

  method UpdateCursorPosition(slot: Option<Position>, stamp: Stamp, id: int, rowid: Option<nat>)
    returns (next: Option<Position>)
    ensures next == Moved(slot, Position(stamp, id, rowid))
  {
    var candidate := Position(stamp, id, rowid);
    next := slot;
    if slot.None? {
      next := Some(candidate);
    } else if candidate.stamp.text < slot.value.stamp.text {
      next := Some(candidate);
    } else if candidate.stamp.text == slot.value.stamp.text {
      match (candidate.rowid, slot.value.rowid) {
        case (Some(a), Some(b)) =>
          if a > b { next := Some(candidate); }
        case _ =>
          if candidate.id > slot.value.id { next := Some(candidate); }
      }
    }
  }

  method UpdateStreamCursor(slot: Option<Position>, sources: seq<Row>, known: seq<Row>) returns (next: Option<Position>)
    ensures next == Folded(slot, sources, known)
  {
    next := slot;
    for i := 0 to |sources|
      invariant next == Folded(slot, sources[..i], known)
    {
      assert sources[..i + 1][..i] == sources[..i];
      next := UpdateCursorPosition(next, sources[i].stamp, sources[i].id, RowidOf(known, sources[i].id));
    }
    assert sources[..|sources|] == sources;
  }

  lemma {:induction false} ActiveRowsSnoc(active: seq<Active>, last: Active, fromTurn: bool)
    ensures ActiveRows(active + [last], fromTurn)
         == ActiveRows(active, fromTurn) + if last.fromTurn == fromTurn then [last.row] else []
  {
    if active == [] {
      assert active + [last] == [last];
    } else {
      var whole := active + [last];
      var head := if active[0].fromTurn == fromTurn then [active[0].row] else [];
      var tail := if last.fromTurn == fromTurn then [last.row] else [];
      var mid := ActiveRows(active[1..], fromTurn);
      ActiveRowsSnoc(active[1..], last, fromTurn);
      assert whole[0] == active[0] && whole[1..] == active[1..] + [last];
      assert ActiveRows(whole, fromTurn) == head + (mid + tail);
    }
  }

  lemma FoldedSnoc(slot: Option<Position>, sources: seq<Row>, r: Row, known: seq<Row>)
    ensures Folded(slot, sources + [r], known)
         == Moved(Folded(slot, sources, known), Position(r.stamp, r.id, RowidOf(known, r.id)))
  {
    assert (sources + [r])[..|sources|] == sources;
  }

  lemma ActiveStep(slot: Option<Position>, active: seq<Active>, last: Active, fromTurn: bool, known: seq<Row>)
    ensures Folded(slot, ActiveRows(active + [last], fromTurn), known)
         == if last.fromTurn != fromTurn then Folded(slot, ActiveRows(active, fromTurn), known)
            else Moved(Folded(slot, ActiveRows(active, fromTurn), known),
                       Position(last.row.stamp, last.row.id, RowidOf(known, last.row.id)))
  {
    ActiveRowsSnoc(active, last, fromTurn);
    if last.fromTurn == fromTurn {
      FoldedSnoc(slot, ActiveRows(active, fromTurn), last.row, known);
    } else {
      assert ActiveRows(active, fromTurn) + [] == ActiveRows(active, fromTurn);
    }
  }

  /** The loop over the active records: one kind of source moves the turn position. */
  method UpdateActiveCursors(turns0: Option<Position>, records0: Option<Position>, active: seq<Active>, lookup: Store)
    returns (turns: Option<Position>, records: Option<Position>)
    ensures turns == Folded(turns0, ActiveRows(active, true), lookup.turns.rows)
    ensures records == Folded(records0, ActiveRows(active, false), lookup.records.rows)
  {
    turns, records := turns0, records0;
    for i := 0 to |active|
      invariant turns == Folded(turns0, ActiveRows(active[..i], true), lookup.turns.rows)
      invariant records == Folded(records0, ActiveRows(active[..i], false), lookup.records.rows)
    {
      var r := active[i].row;
      assert active[..i + 1] == active[..i] + [active[i]];
      ActiveStep(turns0, active[..i], active[i], true, lookup.turns.rows);
      ActiveStep(records0, active[..i], active[i], false, lookup.records.rows);
      if active[i].fromTurn {
        turns := UpdateCursorPosition(turns, r.stamp, r.id, RowidOf(lookup.turns.rows, r.id));
      } else {
        records := UpdateCursorPosition(records, r.stamp, r.id, RowidOf(lookup.records.rows, r.id));
      }
    }
    assert active[..|active|] == active;
  }

  /** Whatever order the sources are folded in, the position ends at the last one in query order. */
  lemma {:induction false} FoldReachesLast(slot: Option<Position>, sources: seq<Row>, known: seq<Row>)
    returns (last: Row)
    requires Keyed(slot) && sources != []
    requires forall r :: r in sources ==> Past(slot, r) && RowidOf(known, r.id) == Some(r.rowid)
    ensures last in sources && Folded(slot, sources, known) == Some(PositionOf(last))
    ensures forall r :: r in sources ==> !Before(last, r)
  {
    var n := |sources| - 1;
    assert sources == sources[..n] + [sources[n]];
    if n == 0 {
      assert Folded(slot, sources[..0], known) == slot;
      last := sources[0];
    } else {
      last := FoldReachesLast(slot, sources[..n], known);
      if Before(last, sources[n]) {
        last := sources[n];
      }
    }
  }

  /** Folding in two lists one after the other folds in their concatenation. */
  lemma {:induction false} FoldedJoin(slot: Option<Position>, a: seq<Row>, b: seq<Row>, known: seq<Row>)
    ensures Folded(Folded(slot, a, known), b, known) == Folded(slot, a + b, known)
  {
    if b == [] {
      assert a + b == a;
    } else {
      var n := |b| - 1;
      assert (a + b)[..|a + b| - 1] == a + b[..n];
      FoldedJoin(slot, a, b[..n], known);
    }
  }

  class DreamSchedulerCursor {
    var lowerBound: Option<Stamp>
    var lowerExclusive: bool
    var lowerStrict: bool
    var postFrontier: bool
    var upperBound: Option<Stamp>
    var upperUnbounded: bool
    var lowerRowids: Option<Frontier>
    var upperRowids: Option<Frontier>
    var mutationLower: Option<nat>
    var mutationUpper: Option<nat>
    var positions: PerStream<Option<Position>>

    /** `encode_scheduler_cursor`. */
    function Saved(): SavedCursor
      reads this
    {
      SavedCursor(lowerBound, lowerExclusive, lowerStrict, postFrontier, upperBound, upperUnbounded,
                  lowerRowids, upperRowids, mutationLower, mutationUpper, positions)
    }

    constructor (c: SavedCursor)
      ensures Saved() == c
    {
      lowerBound, lowerExclusive, lowerStrict := c.lowerBound, c.lowerExclusive, c.lowerStrict;
      postFrontier := c.postFrontier;
      upperBound, upperUnbounded := c.upperBound, c.upperUnbounded;
      lowerRowids, upperRowids := c.lowerRowids, c.upperRowids;
      mutationLower, mutationUpper, positions := c.mutationLower, c.mutationUpper, c.positions;
    }

    method ClearSourcePositions()
      modifies this
      ensures Saved() == old(Saved()).(positions := NO_POSITIONS)
    {
      positions := NO_POSITIONS;
    }

    method BeginActiveMemoryMutationScan(upper: nat)
      modifies this
      ensures Saved() == Begun(old(Saved()), upper)
    {
      if mutationLower.None? {
        mutationLower := Some(if mutationUpper.Some? then mutationUpper.value else 0);
      }
      mutationUpper := Some(upper);
    }

    method CompleteActiveMemoryMutationScan()
      modifies this
      ensures Saved() == old(Saved()).(mutationUpper := None,
                mutationLower := if old(mutationUpper).Some? then old(mutationUpper) else old(mutationLower))
    {
      if mutationUpper.Some? {
        mutationLower := mutationUpper;
        mutationUpper := None;
      }
    }

    method NextActiveMemoryMutationScan(previous: DreamSchedulerCursor, upper: nat)
      requires previous != this
      modifies this
      ensures Saved() == old(Saved()).(mutationUpper := Some(upper),
                mutationLower := Some(if previous.mutationUpper.Some? then previous.mutationUpper.value
                                      else if previous.mutationLower.Some? then previous.mutationLower.value else 0))
    {
      var inherited := if previous.mutationUpper.Some? then previous.mutationUpper else previous.mutationLower;
      mutationLower := Some(if inherited.Some? then inherited.value else 0);
      mutationUpper := Some(upper);
    }

    /** The rewind block the source repeats in four branches. */
    method Rewind(after: Store)
      modifies this
      ensures Saved() == Rewound(old(Saved()), FrontierOf(after))
    {
      ghost var c := Saved();
      ClearSourcePositions();
      var frontiers := FrontierOf(after);
      BeginActiveMemoryMutationScan(frontiers.sequence);
      upperRowids := Some(frontiers);
      assert Saved() == Begun(c, frontiers.sequence).(positions := NO_POSITIONS, upperRowids := Some(frontiers));
      if lowerBound.Some? {
        lowerExclusive := false;
        if !lowerStrict {
          lowerRowids := Some(ZERO_FRONTIER);
        }
      }
    }

    method UpdateSchedulerCursor(lookup: Store, w: Window)
      modifies this
      ensures Saved() == old(Saved()).(positions := FoldedAll(old(positions), lookup, w))
    {
      var turns := UpdateStreamCursor(positions.turns, w.turns, lookup.turns.rows);
      var conclusions := UpdateStreamCursor(positions.conclusions, w.conclusions, lookup.conclusions.rows);
      var checkpoints := UpdateStreamCursor(positions.checkpoints, w.checkpoints, lookup.checkpoints.rows);
      var sources := UpdateStreamCursor(positions.sources, w.sources, lookup.sources.rows);
      var records := positions.records;
      turns, records := UpdateActiveCursors(turns, records, w.active, lookup);
      positions := PerStream(turns, conclusions, checkpoints, sources, records);
    }

    /** The block that opens the next band of a cursor at rest. */
    method PinNext(store: Store, now: Stamp)
      modifies this
      ensures var c, f := old(Saved()), FrontierOf(store);
              Saved() == Begun(c, f.sequence).(
                upperUnbounded := false, postFrontier := true, upperRowids := Some(f),
                upperBound := Some(if c.lowerBound.Some? && NotLater(now, c.lowerBound.value) then c.lowerBound.value
                                   else now))
    {
      var nextStart := now;
      if lowerBound.Some? && NotLater(now, lowerBound.value) {
        nextStart := lowerBound.value;
      }
      upperUnbounded := false;
      upperBound := Some(nextStart);
      postFrontier := true;
      var frontiers := FrontierOf(store);
      BeginActiveMemoryMutationScan(frontiers.sequence);
      upperRowids := Some(frontiers);
    }

    /** The block that ends an unbounded band. */
    method EndUnbounded(now: Stamp)
      modifies this
      ensures Saved() == Rested(old(Saved()), now, false)
    {
      lowerBound := Some(now);
      lowerExclusive := false;
      lowerRowids := upperRowids;
      lowerStrict := true;
      upperBound := None;
      upperUnbounded := false;
      upperRowids := None;
      ClearSourcePositions();
      CompleteActiveMemoryMutationScan();
      postFrontier := false;
    }

    /** The block that ends a bounded band, shared by the strict and the first band. */
    method EndBand(frontier: Stamp, after: Store, now: Stamp) returns (saved: SavedCursor)
      requires upperRowids.Some?
      modifies this
      ensures var c := old(Saved());
              saved == if Later(now, frontier) then NextBand(c, frontier, now, FrontierOf(after))
                       else Rested(c, frontier, true)
    {
      if Later(now, frontier) {
        var next := new DreamSchedulerCursor(DEFAULT_CURSOR.(
          lowerBound := Some(frontier), lowerRowids := upperRowids, lowerStrict := true,
          postFrontier := true, upperBound := Some(now)));
        var frontiers := FrontierOf(after);
        next.NextActiveMemoryMutationScan(this, frontiers.sequence);
        next.upperRowids := Some(frontiers);
        return next.Saved();
      }
      lowerBound := Some(frontier);
      lowerExclusive := false;
      lowerRowids := upperRowids;
      upperRowids := None;
      lowerStrict := true;
      upperBound := None;
      upperUnbounded := false;
      ClearSourcePositions();
      CompleteActiveMemoryMutationScan();
      postFrontier := true;
      saved := Saved();
    }
  }

  /** Pins the bounds of a scheduled run before any evidence is selected. */
  method SchedulerCursorForRun(store: Store, previous: Option<Watermark>, now: Stamp, unbounded: bool)
    returns (saved: SavedCursor)
    ensures saved == Pinned(store, previous, now, unbounded)
  {
    if previous.Some? && previous.value.Encoded? {
      var cursor := new DreamSchedulerCursor(previous.value.cursor);
      if cursor.lowerStrict && cursor.upperBound.None? && cursor.lowerRowids.Some? && !HasPosition(cursor.positions) {
        cursor.PinNext(store, now);
        return cursor.Saved();
      }
      if cursor.mutationUpper.None? {
        var frontiers := FrontierOf(store);
        cursor.mutationLower := Some(if cursor.upperRowids.Some? then cursor.upperRowids.value.sequence else 0);
        cursor.mutationUpper := Some(frontiers.sequence);
        cursor.upperRowids := Some(frontiers);
        return cursor.Saved();
      }
      return previous.value.cursor;
    }
    var cursor := new DreamSchedulerCursor(DEFAULT_CURSOR.(
      lowerBound := if previous.Some? then Some(previous.value.at) else None,
      upperBound := if unbounded then None else Some(now),
      upperUnbounded := unbounded));
    var frontiers := FrontierOf(store);
    var baseline := if previous.Some? then frontiers.sequence else 0;
    cursor.mutationLower := Some(baseline);
    cursor.mutationUpper := Some(frontiers.sequence);
    cursor.upperRowids := Some(frontiers);
    saved := cursor.Saved();
  }

  /** The cursor to store after a run: moved, completed, or opening the next band. */
  method SchedulerWatermarkAfter(lookup: Store, after: Store, previous: Option<Watermark>, w: Window, now: Stamp,
        full: bool)
    returns (next: Watermark)
    ensures next == WatermarkAfter(lookup, after, previous, w, now, full)
  {
    var cursor := new DreamSchedulerCursor(FromWatermark(previous));
    if full {
      if cursor.upperUnbounded {
        if cursor.upperRowids.None? || HasLegacyPosition(cursor.positions) {
          cursor.Rewind(after);
        } else {
          cursor.UpdateSchedulerCursor(lookup, w);
        }
        return Encoded(cursor.Saved());
      }
      if cursor.upperBound.None? {
        cursor.ClearSourcePositions();
        cursor.upperBound := Some(w.end);
        var frontiers := FrontierOf(after);
        cursor.BeginActiveMemoryMutationScan(frontiers.sequence);
        cursor.upperRowids := Some(frontiers);
        return Encoded(cursor.Saved());
      }
      if cursor.upperRowids.None? || HasLegacyPosition(cursor.positions) {
        cursor.Rewind(after);
        return Encoded(cursor.Saved());
      }
      cursor.UpdateSchedulerCursor(lookup, w);
      return Encoded(cursor.Saved());
    }
    if previous.Some? && previous.value.Encoded? {
      if cursor.upperUnbounded {
        if cursor.upperRowids.None? || HasLegacyPosition(cursor.positions) {
          cursor.Rewind(after);
          return Encoded(cursor.Saved());
        }
        cursor.EndUnbounded(now);
        return Encoded(cursor.Saved());
      }
      if cursor.upperBound.Some? && (cursor.upperRowids.None? || HasLegacyPosition(cursor.positions)) {
        cursor.Rewind(after);
        return Encoded(cursor.Saved());
      }
      if cursor.upperBound.Some? {
        var frontier := cursor.upperBound.value;
        var saved := cursor.EndBand(frontier, after, now);
        return Encoded(saved);
      }
    }
    next := Timestamp(now);
  }
}
