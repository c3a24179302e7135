/** What the PCC consumer guarantees: idempotent replay, accounting, and a fail-closed cursor. */
module PccTheorems {
  import opened Basics
  import opened Json
  import opened Framing
  import opened PccCanonical
  import opened PccImport

  // ---- replay

  function KeySet(keys: seq<string>): set<string> {
    set k | k in keys
  }

  /** The second run has seen `known` more keys, and skips what the first one imported. */
  ghost predicate Replays(s1: State, s2: State, known: set<string>) {
    && s2 == State(s1.tally.(imported := 0, skipped := s1.tally.imported + s1.tally.skipped, keys := []),
                   s1.seen + known, s1.summaries, s1.records, s1.pending)
    && |s1.tally.keys| == s1.tally.imported <= s1.records
  }

  lemma RecordReplays(s1: State, s2: State, index: Option<string>, reason: Option<string>,
        key: string, known: set<string>)
    requires Replays(s1, s2, known)
    requires KeySet(TakeRecord(s1, index, reason, key).0.tally.keys) <= known
    ensures TakeRecord(s1, index, reason, key).1 == TakeRecord(s2, index, reason, key).1
    ensures Replays(TakeRecord(s1, index, reason, key).0, TakeRecord(s2, index, reason, key).0, known)
  {
    var t1 := TakeRecord(s1, index, reason, key).0;
    if s1.records < MAX_RECORDS && reason.None? && key !in s1.seen {
      assert t1.tally.keys == s1.tally.keys + [key];
      assert key in t1.tally.keys;
      assert s1.seen + {key} + known == s1.seen + known;
    }
  }

  lemma LineReplays(kind: LineKind, s1: State, s2: State, known: set<string>)
    requires Replays(s1, s2, known) && KeySet(Advance(s1, kind).0.tally.keys) <= known
    ensures Advance(s1, kind).1 == Advance(s2, kind).1
    ensures Replays(Advance(s1, kind).0, Advance(s2, kind).0, known)
  {
    if kind.Record? && kind.doc.RecordDoc? && s1.summaries == 0 {
      RecordReplays(s1, s2, kind.doc.index, kind.doc.refusal, kind.doc.key, known);
    }
  }

  lemma {:induction false} ConsumeKeepsKeys(kinds: seq<LineKind>, n: nat, s: State)
    ensures KeySet(s.tally.keys) <= KeySet(Consume(kinds, n, s).0.tally.keys)
  {
    if n < MAX_LINES && kinds != [] {
      var (s1, stop) := Advance(s, kinds[0]);
      assert KeySet(s.tally.keys) <= KeySet(s1.tally.keys);
      if !stop {
        ConsumeKeepsKeys(kinds[1..], n + 1, s1);
      }
    }
  }

  lemma {:induction false} ConsumeReplays(kinds: seq<LineKind>, n: nat, s1: State, s2: State, known: set<string>)
    requires Replays(s1, s2, known) && KeySet(Consume(kinds, n, s1).0.tally.keys) <= known
    ensures Consume(kinds, n, s1).1 == Consume(kinds, n, s2).1
    ensures Replays(Consume(kinds, n, s1).0, Consume(kinds, n, s2).0, known)
  {
    if n < MAX_LINES && kinds != [] {
      var (t1, stop) := Advance(s1, kinds[0]);
      if !stop {
        ConsumeKeepsKeys(kinds[1..], n + 1, t1);
      }
      LineReplays(kinds[0], s1, s2, known);
      if !stop {
        ConsumeReplays(kinds[1..], n + 1, t1, Advance(s2, kinds[0]).0, known);
      }
    }
  }

  /** Reported keys are well-formed digests, so the receipt is a valid `seen` set for a replay. */
  lemma ClassifiedKeyValid(env: Env, p: Scope, line: seq<Byte>)
    ensures var kind := Classify(env, p, line);
            kind.Record? && kind.doc.RecordDoc? && kind.doc.refusal.None? ==> ValidDigest(kind.doc.key)
  {
    if |line| <= MAX_LINE_BYTES && env.parse(line).Document? {
      var m := env.parse(line).members;
      assert RecordReason(env, p, m).None? ==> KeyOf(m).Some? && ValidDigest(KeyOf(m).value);
    }
  }

  lemma {:induction false} ConsumeKeysValid(kinds: seq<LineKind>, n: nat, s: State)
    requires forall i ::
               (0 <= i < |kinds| && kinds[i].Record? && kinds[i].doc.RecordDoc? && kinds[i].doc.refusal.None?) ==>
                 ValidDigest(kinds[i].doc.key)
    requires forall k :: k in s.tally.keys ==> ValidDigest(k)
    ensures forall k :: k in Consume(kinds, n, s).0.tally.keys ==> ValidDigest(k)
  {
    if n < MAX_LINES && kinds != [] {
      var (s1, stop) := Advance(s, kinds[0]);
      if !stop {
        ConsumeKeysValid(kinds[1..], n + 1, s1);
      }
    }
  }

  lemma ConcludeReplays(p: Params, q: Params, s1: State, s2: State, eof: bool, known: set<string>)
    requires q == p.(seen := q.seen) && Replays(s1, s2, known)
    ensures var first := Conclude(p, s1, eof);
            Conclude(q, s2, eof) == first.(imported := 0, skipped := first.imported + first.skipped, keys := [])
  {
  }

  /** Replaying an export with the returned keys marked as seen imports nothing, skips exactly what
      was imported or skipped before, and reports the same quarantines, reasons and cursor. */
  lemma ReplayIsIdempotent(env: Env, p: Params, lines: seq<seq<Byte>>)
    requires Import(env, p, lines).Some?
    ensures var first := Import(env, p, lines).value;
            var q := p.(seen := p.seen + KeySet(first.keys));
            Import(env, q, lines) == Some(first.(imported := 0, skipped := first.imported + first.skipped, keys := []))
  {
    var kinds := ClassifyAll(env, p.scope, lines);
    var (s1, eof) := Consume(kinds, 0, Initial(p));
    var known := KeySet(s1.tally.keys);
    var q := p.(seen := p.seen + known);
    forall i | 0 <= i < |kinds| && kinds[i].Record? && kinds[i].doc.RecordDoc? && kinds[i].doc.refusal.None?
      ensures ValidDigest(kinds[i].doc.key)
    {
      ClassifiedKeyValid(env, p.scope, lines[i]);
    }
    ConsumeKeysValid(kinds, 0, Initial(p));
    ConsumeReplays(kinds, 0, Initial(p), Initial(q), known);
    ConcludeReplays(p, q, s1, Consume(kinds, 0, Initial(q)).0, eof, known);
    assert Conclude(p, s1, eof).keys == s1.tally.keys;
  }

  // ---- accounting

  function NonEmpty(kinds: seq<LineKind>): nat {
    if kinds == [] then 0 else (if kinds[0].Empty? then 0 else 1) + NonEmpty(kinds[1..])
  }

  /** Every line is accounted for once: imported, skipped, quarantined, or the accepted summary. */
  function Accounted(s: State): nat {
    s.tally.imported + s.tally.skipped + s.tally.quarantined + if s.pending.Some? then 1 else 0
  }

  /** How many lines are read before reading stops. */
  function Taken(kinds: seq<LineKind>, n: nat, s: State): (k: nat)
    ensures k <= |kinds|
  {
    if n >= MAX_LINES || kinds == [] then 0
    else if Advance(s, kinds[0]).1 then 1
    else 1 + Taken(kinds[1..], n + 1, Advance(s, kinds[0]).0)
  }

  /** The reader counts each non-blank line it takes exactly once, and one more quarantine when it
      gives up because the input has too many lines. */
  lemma {:induction false} ConsumeAccounts(kinds: seq<LineKind>, n: nat, s: State)
    requires s.pending.Some? ==> s.summaries > 0
    ensures var (s', eof) := Consume(kinds, n, s);
            var k := Taken(kinds, n, s);
            var tooMany := n + k >= MAX_LINES && k < |kinds| && (k == 0 || !StopsAt(kinds, n, s));
            Accounted(s') == Accounted(s) + NonEmpty(kinds[..k]) + if tooMany then 1 else 0
    ensures Consume(kinds, n, s).1 <==> Taken(kinds, n, s) == |kinds| && !StopsAt(kinds, n, s)
  {
    var k := Taken(kinds, n, s);
    if n >= MAX_LINES || kinds == [] {
      assert kinds[..0] == [];
    } else {
      var (s1, stop) := Advance(s, kinds[0]);
      assert Accounted(s1) == Accounted(s) + if kinds[0].Empty? then 0 else 1;
      assert kinds[..k][0] == kinds[0];
      if stop {
        assert kinds[..1][1..] == [];
      } else {
        ConsumeAccounts(kinds[1..], n + 1, s1);
        assert kinds[..k][1..] == kinds[1..][..k - 1];
      }
    }
  }

  /** Reading stops at a line that is too long or a record over the limit. */
  predicate StopsAt(kinds: seq<LineKind>, n: nat, s: State) {
    if n >= MAX_LINES || kinds == [] then false
    else Advance(s, kinds[0]).1 || StopsAt(kinds[1..], n + 1, Advance(s, kinds[0]).0)
  }

  // ---- the cursor

  /** A line that leaves the export complete so far: blank, an acceptable record within the record
      limit, or a quarantine the producer reported properly. */
  predicate GoodLine(s: State, kind: LineKind) {
    match kind
    case Empty => true
    case Record(_, RecordDoc(_, reason, _)) => reason.None? && s.records < MAX_RECORDS
    case Record(_, QuarantineDoc(accepted, _, _)) => accepted
    case _ => false
  }

  /** A summary whose counts are those of the lines before it and whose cursor is acceptable. */
  predicate ClosingSummary(s: State, kind: LineKind) {
    kind.Record? && kind.doc.SummaryDoc? && SummaryVerdict(kind.doc.claim, s.tally).Announced?
  }

  predicate AllEmpty(kinds: seq<LineKind>) {
    forall i :: 0 <= i < |kinds| ==> kinds[i].Empty?
  }

  /** Good lines, then one closing summary, then nothing but blank lines. */
  predicate Complete(kinds: seq<LineKind>, s: State) {
    kinds != [] &&
    if ClosingSummary(s, kinds[0]) then AllEmpty(kinds[1..])
    else GoodLine(s, kinds[0]) && Complete(kinds[1..], Advance(s, kinds[0]).0)
  }

  /** Quarantines that are not the producer's. */
  function Faults(s: State): int {
    s.tally.quarantined - s.tally.producerQuarantines
  }

  lemma {:induction false} FaultsOnlyGrow(kinds: seq<LineKind>, n: nat, s: State)
    ensures Faults(Consume(kinds, n, s).0) >= Faults(s)
  {
    if n < MAX_LINES && kinds != [] {
      var (s1, stop) := Advance(s, kinds[0]);
      assert Faults(s1) >= Faults(s);
      if !stop {
        FaultsOnlyGrow(kinds[1..], n + 1, s1);
      }
    }
  }

  lemma {:induction false} AfterSummary(kinds: seq<LineKind>, n: nat, s: State)
    requires s.summaries == 1 && s.pending.Some? && Faults(s) == 0 && n <= MAX_LINES
    ensures Clean(Consume(kinds, n, s).0, Consume(kinds, n, s).1) <==> n + |kinds| <= MAX_LINES && AllEmpty(kinds)
    ensures AllEmpty(kinds) && Consume(kinds, n, s).1 ==> Consume(kinds, n, s).0 == s
  {
    if n < MAX_LINES && kinds != [] {
      var (s1, stop) := Advance(s, kinds[0]);
      if kinds[0].Empty? {
        AfterSummary(kinds[1..], n + 1, s);
        assert AllEmpty(kinds) <==> AllEmpty(kinds[1..]);
      } else {
        assert Faults(s1) == 1;
        if !stop {
          FaultsOnlyGrow(kinds[1..], n + 1, s1);
        }
      }
    }
  }

  lemma {:induction false} NoSummaryYet(kinds: seq<LineKind>, n: nat, s: State)
    requires s.summaries == 0 && s.pending.None? && Faults(s) == 0 && n <= MAX_LINES
    ensures Clean(Consume(kinds, n, s).0, Consume(kinds, n, s).1) <==> n + |kinds| <= MAX_LINES && Complete(kinds, s)
  {
    if n < MAX_LINES && kinds != [] {
      var (s1, stop) := Advance(s, kinds[0]);
      if ClosingSummary(s, kinds[0]) {
        AfterSummary(kinds[1..], n + 1, s1);
      } else if GoodLine(s, kinds[0]) {
        NoSummaryYet(kinds[1..], n + 1, s1);
      } else {
        assert Faults(s1) == 1;
        if !stop {
          FaultsOnlyGrow(kinds[1..], n + 1, s1);
        }
      }
    }
  }

  /** Fail-closed: the cursor leaves its initial value only when the input fits the line limit and
      is complete: every non-blank line an imported or skipped record or a proper producer
      quarantine, then one summary whose counts match, then the end. */
  lemma CursorFailsClosed(env: Env, p: Params, lines: seq<seq<Byte>>)
    requires Import(env, p, lines).Some?
    ensures var kinds := ClassifyAll(env, p.scope, lines);
            Import(env, p, lines).value.cursor != p.cursor ==> |lines| <= MAX_LINES && Complete(kinds, Initial(p))
    ensures var kinds := ClassifyAll(env, p.scope, lines);
            var (s, eof) := Consume(kinds, 0, Initial(p));
            |lines| <= MAX_LINES && Complete(kinds, Initial(p)) ==>
              s.pending.Some? && (s.pending.value != p.cursor || p.cursor.None? ==>
                Import(env, p, lines).value.cursor == s.pending.value)
    ensures var kinds := ClassifyAll(env, p.scope, lines);
            !(|lines| <= MAX_LINES && Complete(kinds, Initial(p))) ==>
              Import(env, p, lines).value.cursor == p.cursor && Import(env, p, lines).value.quarantined > 0
  {
    NoSummaryYet(ClassifyAll(env, p.scope, lines), 0, Initial(p));
    FaultsOnlyGrow(ClassifyAll(env, p.scope, lines), 0, Initial(p));
  }

  // ---- the counts a closing summary is compared with

  function RecordLines(kinds: seq<LineKind>): nat {
    if kinds == [] then 0 else (if kinds[0].Record? && kinds[0].doc.RecordDoc? then 1 else 0) + RecordLines(kinds[1..])
  }

  function QuarantineLines(kinds: seq<LineKind>): nat {
    if kinds == [] then 0
    else (if kinds[0].Record? && kinds[0].doc.QuarantineDoc? then 1 else 0) + QuarantineLines(kinds[1..])
  }

  /** The indexes the lines name, and how many quarantines name none. */
  function Indexes(kinds: seq<LineKind>): set<string> {
    if kinds == [] then {}
    else
      (match kinds[0]
       case Record(_, RecordDoc(Some(i), _, _)) => {i}
       case Record(_, QuarantineDoc(_, _, Some(i))) => {i}
       case _ => {}) + Indexes(kinds[1..])
  }

  function Unindexed(kinds: seq<LineKind>): nat {
    if kinds == [] then 0
    else
      (match kinds[0]
       case Record(_, QuarantineDoc(_, _, None)) => 1
       case _ => 0) + Unindexed(kinds[1..])
  }

  predicate AllGood(kinds: seq<LineKind>, s: State) {
    kinds == [] || (GoodLine(s, kinds[0]) && AllGood(kinds[1..], Advance(s, kinds[0]).0))
  }

  function StateAfter(kinds: seq<LineKind>, s: State): State {
    if kinds == [] then s else StateAfter(kinds[1..], Advance(s, kinds[0]).0)
  }

  lemma {:induction false} GoodLinesCount(kinds: seq<LineKind>, s: State)
    requires AllGood(kinds, s) && s.summaries == 0
    ensures var t := StateAfter(kinds, s).tally;
            && t.recordsSeen == s.tally.recordsSeen + RecordLines(kinds)
            && t.producerQuarantines == s.tally.producerQuarantines + QuarantineLines(kinds)
            && t.observed == s.tally.observed + Indexes(kinds)
            && t.unidentified == s.tally.unidentified + Unindexed(kinds)
            && t.imported + t.skipped == s.tally.imported + s.tally.skipped + RecordLines(kinds)
    ensures StateAfter(kinds, s).summaries == 0 && StateAfter(kinds, s).pending == s.pending
  {
    if kinds != [] {
      var s1 := Advance(s, kinds[0]).0;
      GoodLinesCount(kinds[1..], s1);
      assert s1.tally.observed == s.tally.observed + Indexes([kinds[0]]) by {
        assert [kinds[0]][1..] == [];
      }
      assert Indexes(kinds) == Indexes([kinds[0]]) + Indexes(kinds[1..]) by {
        assert [kinds[0]][1..] == [];
      }
    }
  }

  /** A complete export splits at its summary, whose counts are those of the lines before it. */
  lemma {:induction false} CompleteSplits(kinds: seq<LineKind>, s: State) returns (k: nat)
    requires Complete(kinds, s)
    ensures k < |kinds| && AllGood(kinds[..k], s) && AllEmpty(kinds[k + 1..])
    ensures ClosingSummary(StateAfter(kinds[..k], s), kinds[k])
  {
    if ClosingSummary(s, kinds[0]) {
      k := 0;
      assert kinds[..0] == [];
    } else {
      k := CompleteSplits(kinds[1..], Advance(s, kinds[0]).0);
      k := k + 1;
      assert kinds[..k][0] == kinds[0] && kinds[..k][1..] == kinds[1..][..k - 1];
    }
  }

  /** When the cursor moves, the summary's claims equal what the export contains. */
  lemma AcceptedSummaryIsTrue(env: Env, p: Params, lines: seq<seq<Byte>>) returns (k: nat)
    requires Import(env, p, lines).Some? && Import(env, p, lines).value.cursor != p.cursor
    ensures var kinds := ClassifyAll(env, p.scope, lines);
            && k < |kinds| && AllEmpty(kinds[k + 1..]) && AllGood(kinds[..k], Initial(p))
            && kinds[k].Record? && kinds[k].doc.SummaryDoc? && kinds[k].doc.claim.Some?
            && var claim := kinds[k].doc.claim.value;
               && claim.complete && claim.records == RecordLines(kinds[..k])
               && claim.quarantined == QuarantineLines(kinds[..k])
               && claim.inspected == |Indexes(kinds[..k])| + Unindexed(kinds[..k])
  {
    CursorFailsClosed(env, p, lines);
    var kinds := ClassifyAll(env, p.scope, lines);
    k := CompleteSplits(kinds, Initial(p));
    GoodLinesCount(kinds[..k], Initial(p));
    assert {} + Indexes(kinds[..k]) == Indexes(kinds[..k]);
  }

  // ---- the idempotency key

  lemma {:induction false} GetFinds(m: seq<Member>, key: string)
    ensures Get(m, key).Some? <==> HasKey(m, key)
    ensures Get(m, key).Some? ==> exists i :: 0 <= i < |m| && m[i].key == key && m[i].value == Get(m, key).value
  {
    if m != [] {
      GetFinds(m[1..], key);
      if m[0].key == key {
        assert HasKey(m, key);
      } else {
        if HasKey(m, key) {
          var i :| 0 <= i < |m| && m[i].key == key;
          assert m[1..][i - 1].key == key;
        }
        if Get(m[1..], key).Some? {
          var i :| 0 <= i < |m[1..]| && m[1..][i].key == key && m[1..][i].value == Get(m[1..], key).value;
          assert m[i + 1] == m[1..][i];
        }
      }
    }
  }

  /** Looking a key up in reordered members gives the same value up to order. */
  lemma GetIgnoresOrder(m: seq<Member>, n: seq<Member>, key: string)
    requires WellFormed(Object(m)) && WellFormed(Object(n)) && SameUpToOrder(Object(m), Object(n))
    ensures Get(m, key).Some? <==> Get(n, key).Some?
    ensures Get(m, key).Some? ==>
              && WellFormed(Get(m, key).value) && WellFormed(Get(n, key).value)
              && SameUpToOrder(Get(m, key).value, Get(n, key).value)
  {
    GetFinds(m, key);
    GetFinds(n, key);
  }

  ghost predicate SameValue(v: Value, w: Value) {
    WellFormed(v) && WellFormed(w) && SameUpToOrder(v, w)
  }

  lemma FieldIgnoresOrder(m: seq<Member>, n: seq<Member>, key: string)
    requires SameValue(Object(m), Object(n))
    ensures SameValue(OrNull(Get(m, key)), OrNull(Get(n, key)))
  {
    GetIgnoresOrder(m, n, key);
  }

  lemma ObjectIgnoresOrder(m: seq<Member>, n: seq<Member>, key: string)
    requires SameValue(Object(m), Object(n))
    ensures GetObject(m, key).Some? <==> GetObject(n, key).Some?
    ensures GetObject(m, key).Some? ==> SameValue(Object(GetObject(m, key).value), Object(GetObject(n, key).value))
  {
    GetIgnoresOrder(m, n, key);
  }

  lemma SameObjects(m: seq<Member>, n: seq<Member>)
    requires |m| == |n| && UniqueKeys(m)
    requires forall i :: 0 <= i < |m| ==> m[i].key == n[i].key && SameValue(m[i].value, n[i].value)
    ensures SameValue(Object(m), Object(n))
  {
    forall i, j | 0 <= i < j < |n| ensures n[i].key != n[j].key {
      assert m[i].key != m[j].key;
    }
    forall i, j | 0 <= i < |m| && 0 <= j < |n| && m[i].key == n[j].key ensures i == j {
      assert m[j].key == n[j].key;
    }
  }

  lemma LabelsDistinct(i: nat, j: nat)
    requires i < j < |IDENTITY|
    ensures IDENTITY[i].name != IDENTITY[j].name
  {
    assert "profile_id"[0] == 'p' && "workspace_id"[0] == 'w' && "checkpoint"[0] == 'c';
    assert "session_id"[0] == 's' && "segment_event_id"[0] == 's' && "segment_content_sha256"[0] == 's';
    assert |"segment_event_id"| == 16 && |"segment_content_sha256"| == 22 && |"session_id"| == 10;
    assert |"record_index"| == 12 && |"record"| == 6 && "record"[0] == 'r' && "record_index"[0] == 'r';
  }

  lemma IdentityMemberSame(slot: Slot, m: seq<Member>, n: seq<Member>, s: seq<Member>, s': seq<Member>,
        g: seq<Member>, g': seq<Member>)
    requires SameValue(Object(m), Object(n)) && SameValue(Object(s), Object(s')) && SameValue(Object(g), Object(g'))
    ensures SameValue(IdentityMember(slot, m, s, g).value, IdentityMember(slot, n, s', g').value)
  {
    FieldIgnoresOrder(Pick(slot.origin, m, s, g), Pick(slot.origin, n, s', g'), slot.field);
  }

  lemma IdentityIgnoresOrder(m: seq<Member>, n: seq<Member>, s: seq<Member>, s': seq<Member>,
        g: seq<Member>, g': seq<Member>)
    requires SameValue(Object(m), Object(n)) && SameValue(Object(s), Object(s')) && SameValue(Object(g), Object(g'))
    ensures Canonicalize(Object(IdentityOf(m, s, g))) == Canonicalize(Object(IdentityOf(n, s', g')))
  {
    var a, b := IdentityOf(m, s, g), IdentityOf(n, s', g');
    forall i | 0 <= i < |a| ensures a[i].key == b[i].key && SameValue(a[i].value, b[i].value) {
      IdentityMemberSame(IDENTITY[i], m, n, s, s', g, g');
    }
    forall i, j | 0 <= i < j < |a| ensures a[i].key != a[j].key {
      LabelsDistinct(i, j);
    }
    SameObjects(a, b);
    OrderForgotten(Object(a), Object(b));
  }

  /** The idempotency key of a record does not depend on the order of its members, at any level. */
  lemma KeyIgnoresMemberOrder(env: Env, m: seq<Member>, n: seq<Member>)
    requires WellFormed(Object(m)) && WellFormed(Object(n)) && SameUpToOrder(Object(m), Object(n))
    ensures ExpectedKey(env, m) == ExpectedKey(env, n)
  {
    ObjectIgnoresOrder(m, n, "session");
    ObjectIgnoresOrder(m, n, "segment");
    FieldsIgnoreOrder(m, n);
    if GetObject(m, "session").Some? && GetObject(m, "segment").Some? && IdentityFields(m) {
      IdentityIgnoresOrder(m, n, GetObject(m, "session").value, GetObject(n, "session").value,
                           GetObject(m, "segment").value, GetObject(n, "segment").value);
    }
  }

  lemma FieldsIgnoreOrder(m: seq<Member>, n: seq<Member>)
    requires WellFormed(Object(m)) && WellFormed(Object(n)) && SameUpToOrder(Object(m), Object(n))
    ensures IdentityFields(m) <==> IdentityFields(n)
  {
    GetIgnoresOrder(m, n, "profile_id");
    GetIgnoresOrder(m, n, "workspace_id");
    GetIgnoresOrder(m, n, "checkpoint");
    GetIgnoresOrder(m, n, "record_index");
    GetIgnoresOrder(m, n, "record");
  }
}
