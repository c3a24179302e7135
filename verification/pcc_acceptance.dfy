/** What the PCC consumer lets in, stated on the members of a line: records, producer quarantines and the closing
    summary. */
module PccAcceptance {
  import opened Basics
  import opened Json
  import opened Framing
  import opened PccCanonical
  import opened PccPolicy
  import opened PccImport
  import opened PccTheorems

  // ---- the vocabulary

  predicate Says(m: seq<Member>, key: string, text: string) {
    Get(m, key) == Some(String(text))
  }

  predicate HasObject(m: seq<Member>, key: string) {
    Get(m, key).Some? && Get(m, key).value.Object?
  }

  function ObjectAt(m: seq<Member>, key: string): seq<Member>
    requires HasObject(m, key)
  {
    Get(m, key).value.members
  }

  predicate IsDigest(s: string) {
    |s| == 64 && forall i :: 0 <= i < |s| ==> s[i] in "0123456789abcdef"
  }

  predicate SaysDigest(m: seq<Member>, key: string) {
    Get(m, key).Some? && Get(m, key).value.String? && IsDigest(Get(m, key).value.s)
  }

  predicate Brief(s: string) {
    0 < Utf8Len(s) <= 128
  }

  predicate IsCount(v: Option<Value>) {
    v.Some? && v.value.Integer? && 0 <= v.value.n <= 0xFFFF_FFFF_FFFF_FFFF
  }

  // ---- records

  /** The fields every record has. */
  predicate WellShaped(m: seq<Member>) {
    && HasObject(m, "record") && HasObject(m, "session") && HasObject(m, "source") && HasObject(m, "checkpoint")
    && HasObject(m, "segment")
    && SaysDigest(ObjectAt(m, "segment"), "content_sha256") && SaysDigest(ObjectAt(m, "segment"), "ciphertext_sha256")
    && IsCount(Get(m, "record_index")) && Says(m, "producer_trust", "untrusted")
  }

  /** A record marked never to leave does not, and one that changes profile says it may. */
  predicate MayMove(record: seq<Member>, source: string, target: string) {
    && !Says(record, "portability", "never_export")
    && (source != target ==> Says(record, "portability", "portable") || Says(record, "portability", "workspace_only"))
  }

  function OrNone(v: Option<Value>): Value {
    match v
    case Some(value) => value
    case None => Null
  }

  /** What a record is identified by. */
  function Identity(m: seq<Member>): Value
    requires HasObject(m, "session") && HasObject(m, "segment")
  {
    var session, segment := ObjectAt(m, "session"), ObjectAt(m, "segment");
    Object([
      Member("profile_id", OrNone(Get(m, "profile_id"))), Member("workspace_id", OrNone(Get(m, "workspace_id"))),
      Member("session_id", OrNone(Get(session, "session_id"))),
      Member("segment_event_id", OrNone(Get(segment, "event_id"))),
      Member("segment_content_sha256", OrNone(Get(segment, "content_sha256"))),
      Member("checkpoint", OrNone(Get(m, "checkpoint"))), Member("record_index", OrNone(Get(m, "record_index"))),
      Member("record", OrNone(Get(m, "record")))])
  }

  /** The profile an import is for: the one named as target, or else the source's own. */
  function IntendedProfile(p: Scope): string {
    match p.target
    case Some(target) => target
    case None => p.profile
  }

  /** A record that may enter this scope under this key. */
  predicate Admissible(env: Env, p: Scope, m: seq<Member>, key: string) {
    && Says(m, "idempotency_key", key) && IsDigest(key)
    && Says(m, "profile_id", p.profile) && Says(m, "workspace_id", p.workspace)
    && Brief(p.profile) && Brief(p.workspace)
    && WellShaped(m)
    && MayMove(ObjectAt(m, "record"), p.profile, IntendedProfile(p))
    && env.boundary(p.profile, IntendedProfile(p)) == Allow
    && PolicySafe(env.accepts, m)
    && key == env.digest(Canonicalize(Identity(m)))
  }

  lemma DigestIs(s: string)
    ensures ValidDigest(s) <==> IsDigest(s)
  {
    forall c: char ensures ('0' <= c <= '9' || 'a' <= c <= 'f') <==> c in "0123456789abcdef" {
      HexDigit(c);
    }
  }

  lemma HexDigit(c: char)
    ensures ('0' <= c <= '9' || 'a' <= c <= 'f') <==> c in "0123456789abcdef"
  {
  }

  lemma {:induction false} BytesPositive(s: string)
    ensures Utf8Len(s) > 0 <==> s != ""
  {
  }

  lemma KeyIs(m: seq<Member>, key: string)
    ensures KeyOf(m) == Some(key) <==> Says(m, "idempotency_key", key) && IsDigest(key)
  {
    DigestIs(key);
  }

  lemma ShortIs(m: seq<Member>, key: string, text: string)
    requires Says(m, key, text)
    ensures ShortField(m, key) <==> Brief(text)
  {
    BytesPositive(text);
  }

  lemma SegmentIs(m: seq<Member>, key: string)
    ensures SegmentDigest(m, key).Some? <==> HasObject(m, "segment") && SaysDigest(ObjectAt(m, "segment"), key)
  {
    if HasObject(m, "segment") && Get(ObjectAt(m, "segment"), key).Some?
       && Get(ObjectAt(m, "segment"), key).value.String? {
      DigestIs(Get(ObjectAt(m, "segment"), key).value.s);
    }
  }

  lemma ShapeIs(m: seq<Member>)
    ensures ShapeReason(m).None? <==>
              KeyOf(m).Some? && ShortField(m, "profile_id") && ShortField(m, "workspace_id") && WellShaped(m)
  {
    SegmentIs(m, "content_sha256");
    SegmentIs(m, "ciphertext_sha256");
  }

  lemma IdentityIs(m: seq<Member>)
    requires HasObject(m, "session") && HasObject(m, "segment")
    ensures Object(IdentityOf(m, ObjectAt(m, "session"), ObjectAt(m, "segment"))) == Identity(m)
  {
    var a, b := IdentityOf(m, ObjectAt(m, "session"), ObjectAt(m, "segment")), Identity(m).members;
    assert |a| == |b| == 8;
    assert a[0] == b[0] && a[1] == b[1] && a[2] == b[2] && a[3] == b[3];
    assert a[4] == b[4] && a[5] == b[5] && a[6] == b[6] && a[7] == b[7];
    assert a == b;
  }

  lemma ExpectedIs(env: Env, m: seq<Member>)
    requires WellShaped(m) && Get(m, "profile_id").Some? && Get(m, "workspace_id").Some?
    ensures ExpectedKey(env, m) == Some(env.digest(Canonicalize(Identity(m))))
  {
    IdentityIs(m);
  }

  lemma BoundaryIs(env: Env, m: seq<Member>, source: string, target: string)
    requires Says(m, "profile_id", source) && HasObject(m, "record")
    ensures CrossProfileReason(env, m, target).None? <==>
              MayMove(ObjectAt(m, "record"), source, target) && env.boundary(source, target) == Allow
  {
  }

  lemma NamedIs(m: seq<Member>, key: string, text: string)
    requires ShortField(m, key)
    ensures OrEmpty(GetString(m, key)) == text <==> Says(m, key, text)
  {
  }

  /** A record is let in, under the key it carries, exactly when it is admissible. */
  lemma AdmittedIff(env: Env, p: Scope, m: seq<Member>, key: string)
    ensures RecordReason(env, p, m).None? && KeyOf(m) == Some(key) <==> Admissible(env, p, m, key)
  {
    KeyIs(m, key);
    ShapeIs(m);
    if Says(m, "profile_id", p.profile) && Says(m, "workspace_id", p.workspace) {
      ShortIs(m, "profile_id", p.profile);
      ShortIs(m, "workspace_id", p.workspace);
      if WellShaped(m) {
        BoundaryIs(env, m, p.profile, TargetOf(p));
        ExpectedIs(env, m);
      }
    }
    if ShapeReason(m).None? {
      NamedIs(m, "profile_id", p.profile);
      NamedIs(m, "workspace_id", p.workspace);
    }
  }

  /** Every refusal names a fault the record has, and the faults before it in this list are absent. */
  lemma RefusalTells(env: Env, p: Scope, m: seq<Member>)
    requires RecordReason(env, p, m).Some?
    ensures var reason := RecordReason(env, p, m).value;
            && (reason == "idempotency-key-invalid" <==> !SaysDigest(m, "idempotency_key"))
            && (reason == "record-invalid" ==> !Fielded(m))
            && (reason == "profile-mismatch" ==> Fielded(m) && !Says(m, "profile_id", p.profile))
            && (reason == "workspace-mismatch" ==>
                  Fielded(m) && Says(m, "profile_id", p.profile) && !Says(m, "workspace_id", p.workspace))
            && (reason == "profile-boundary-denied" || reason == "profile-boundary-filtered" ==>
                  Addressed(p, m)
                  && !(MayMove(ObjectAt(m, "record"), p.profile, TargetOf(p))
                       && env.boundary(p.profile, TargetOf(p)) == Allow))
            && (reason == "policy-denied" ==> Addressed(p, m) && !PolicySafe(env.accepts, m))
            && (reason == "idempotency-key-mismatch" ==>
                  Addressed(p, m) && PolicySafe(env.accepts, m)
                  && !Says(m, "idempotency_key", env.digest(Canonicalize(Identity(m)))))
  {
    ShapeIs(m);
    KeyOfIs(m);
    FieldedIs(m);
    Reasons();
    if ShapeReason(m).None? {
      NamedIs(m, "profile_id", p.profile);
      NamedIs(m, "workspace_id", p.workspace);
      ExpectedIs(env, m);
      if Says(m, "profile_id", p.profile) {
        BoundaryIs(env, m, p.profile, TargetOf(p));
      }
    }
  }

  /** The reasons are different words. */
  lemma Reasons()
    ensures |"idempotency-key-invalid"| == 23 && |"record-invalid"| == 14 && |"profile-mismatch"| == 16
    ensures |"workspace-mismatch"| == 18 && |"profile-boundary-denied"| == 23 && |"profile-boundary-filtered"| == 25
    ensures |"policy-denied"| == 13 && |"idempotency-key-mismatch"| == 24
    ensures "idempotency-key-invalid"[0] == 'i' && "profile-boundary-denied"[0] == 'p'
  {
  }

  predicate BriefField(m: seq<Member>, key: string) {
    Get(m, key).Some? && Get(m, key).value.String? && Brief(Get(m, key).value.s)
  }

  predicate Fielded(m: seq<Member>) {
    BriefField(m, "profile_id") && BriefField(m, "workspace_id") && WellShaped(m)
  }

  predicate Addressed(p: Scope, m: seq<Member>) {
    Fielded(m) && Says(m, "profile_id", p.profile) && Says(m, "workspace_id", p.workspace)
  }

  lemma FieldIs(m: seq<Member>, key: string)
    ensures ShortField(m, key) <==> BriefField(m, key)
  {
    if Get(m, key).Some? && Get(m, key).value.String? {
      ShortIs(m, key, Get(m, key).value.s);
    }
  }

  lemma FieldedIs(m: seq<Member>)
    ensures Fielded(m) <==> ShortField(m, "profile_id") && ShortField(m, "workspace_id") && WellShaped(m)
  {
    FieldIs(m, "profile_id");
    FieldIs(m, "workspace_id");
  }

  lemma KeyOfIs(m: seq<Member>)
    ensures KeyOf(m).Some? <==> SaysDigest(m, "idempotency_key")
    ensures KeyOf(m).Some? ==> Says(m, "idempotency_key", KeyOf(m).value)
  {
    if Get(m, "idempotency_key").Some? && Get(m, "idempotency_key").value.String? {
      DigestIs(Get(m, "idempotency_key").value.s);
    }
  }

  // ---- lines

  /** A line of the supported schema of this type. */
  predicate Typed(m: seq<Member>, kind: string) {
    && Says(m, "schema", "josh-room.pcc-replay") && Says(m, "type", kind)
    && HasObject(m, "schema_version")
    && Get(ObjectAt(m, "schema_version"), "major") == Some(Integer(1))
    && Get(ObjectAt(m, "schema_version"), "minor") == Some(Integer(0))
  }

  predicate Holds(env: Env, line: seq<Byte>, m: seq<Member>) {
    |line| <= MAX_LINE_BYTES && env.parse(line) == Document(m)
  }

  lemma TypedIs(m: seq<Member>, kind: string)
    ensures ValidEnvelope(m) && GetString(m, "type") == Some(kind) <==> Typed(m, kind)
  {
  }

  lemma KindsDiffer()
    ensures "record" != "quarantine" && "record" != "summary" && "quarantine" != "summary"
  {
    assert |"record"| == 6 && |"quarantine"| == 10 && |"summary"| == 7;
  }

  lemma RecordLineIs(env: Env, p: Scope, line: seq<Byte>) returns (m: seq<Member>)
    requires Classify(env, p, line).Record? && Classify(env, p, line).doc.RecordDoc?
    ensures Holds(env, line, m) && Typed(m, "record")
    ensures var doc := Classify(env, p, line).doc;
            doc.refusal == RecordReason(env, p, m) && doc.key == OrEmpty(KeyOf(m))
  {
    m := env.parse(line).members;
    TypedIs(m, "record");
  }

  lemma RecordLineHas(env: Env, p: Scope, line: seq<Byte>, m: seq<Member>)
    requires Holds(env, line, m) && Typed(m, "record")
    ensures Classify(env, p, line)
         == Record(false, RecordDoc(SegmentDigest(m, "ciphertext_sha256"), RecordReason(env, p, m), OrEmpty(KeyOf(m))))
  {
    TypedIs(m, "record");
    KindsDiffer();
  }

  // ---- what is imported

  predicate Takes(kind: LineKind, key: string) {
    kind.Record? && kind.doc.RecordDoc? && kind.doc.refusal.None? && kind.doc.key == key
  }

  lemma AdvanceAddsKey(s: State, kind: LineKind, key: string)
    requires key in Advance(s, kind).0.tally.keys && key !in s.tally.keys
    ensures Takes(kind, key) && key !in s.seen
  {
  }

  lemma AdvanceKeepsSeen(s: State, kind: LineKind)
    ensures s.seen <= Advance(s, kind).0.seen
  {
  }

  lemma {:induction false} KeysComeFrom(kinds: seq<LineKind>, n: nat, s: State, key: string) returns (i: nat)
    requires key in Consume(kinds, n, s).0.tally.keys && key !in s.tally.keys
    ensures i < |kinds| && Takes(kinds[i], key) && key !in s.seen
  {
    var (s1, stop) := Advance(s, kinds[0]);
    if key in s1.tally.keys {
      AdvanceAddsKey(s, kinds[0], key);
      i := 0;
    } else {
      AdvanceKeepsSeen(s, kinds[0]);
      i := KeysComeFrom(kinds[1..], n + 1, s1, key);
      i := i + 1;
    }
  }

  lemma ConcludedKeys(p: Params, s: State, eof: bool)
    ensures Conclude(p, s, eof).keys == s.tally.keys && Conclude(p, s, eof).imported == s.tally.imported
  {
  }

  /** Every key reported as imported is that of a line of the input that holds a record admissible under it, and was not
      seen before. */
  lemma ImportedComesFrom(env: Env, p: Params, lines: seq<seq<Byte>>, key: string) returns (i: nat, m: seq<Member>)
    requires Import(env, p, lines).Some? && key in Import(env, p, lines).value.keys
    ensures i < |lines| && Holds(env, lines[i], m) && Typed(m, "record") && Admissible(env, p.scope, m, key)
    ensures key !in p.seen
  {
    var kinds := ClassifyAll(env, p.scope, lines);
    var (s, eof) := Consume(kinds, 0, Initial(p));
    ConcludedKeys(p, s, eof);
    i := KeysComeFrom(kinds, 0, Initial(p), key);
    m := RecordLineIs(env, p.scope, lines[i]);
    KeyOfIs(m);
    ShapeIs(m);
    AdmittedIff(env, p.scope, m, key);
  }

  // ---- nothing admissible is dropped

  /** The keys seen are those given and those imported, each once. */
  ghost predicate Tallied(s: State, given: set<string>) {
    && s.seen == given + KeySet(s.tally.keys)
    && (forall k :: k in s.tally.keys ==> k !in given)
    && (forall i, j :: 0 <= i < j < |s.tally.keys| ==> s.tally.keys[i] != s.tally.keys[j])
    && |s.tally.keys| == s.tally.imported <= s.records
  }

  lemma AdvanceTallies(s: State, kind: LineKind, given: set<string>)
    requires Tallied(s, given) && s.records <= MAX_RECORDS
    ensures Tallied(Advance(s, kind).0, given)
    ensures !Advance(s, kind).1 ==> Advance(s, kind).0.records <= MAX_RECORDS
  {
    if kind.Record? && kind.doc.RecordDoc? && s.summaries == 0 {
      var key, s1 := kind.doc.key, Advance(s, kind).0;
      if s1.tally.keys != s.tally.keys {
        assert s1.tally.keys == s.tally.keys + [key];
        assert KeySet(s1.tally.keys) == KeySet(s.tally.keys) + {key};
      }
    }
  }

  lemma {:induction false} ConsumeTallies(kinds: seq<LineKind>, n: nat, s: State, given: set<string>)
    requires Tallied(s, given) && s.records <= MAX_RECORDS
    ensures Tallied(Consume(kinds, n, s).0, given)
  {
    if n < MAX_LINES && kinds != [] {
      var (s1, stop) := Advance(s, kinds[0]);
      AdvanceTallies(s, kinds[0], given);
      if !stop {
        ConsumeTallies(kinds[1..], n + 1, s1, given);
      }
    }
  }

  lemma {:induction false} ConsumeKeepsSeen(kinds: seq<LineKind>, n: nat, s: State)
    ensures s.seen <= Consume(kinds, n, s).0.seen
  {
    if n < MAX_LINES && kinds != [] {
      var (s1, stop) := Advance(s, kinds[0]);
      AdvanceKeepsSeen(s, kinds[0]);
      if !stop {
        ConsumeKeepsSeen(kinds[1..], n + 1, s1);
      }
    }
  }

  lemma GoodRecordSeen(s: State, kind: LineKind)
    requires GoodLine(s, kind) && kind.Record? && kind.doc.RecordDoc? && s.summaries == 0
    ensures kind.doc.refusal.None? && kind.doc.key in Advance(s, kind).0.seen
  {
  }

  lemma GoodLineGoesOn(s: State, kind: LineKind)
    requires GoodLine(s, kind) && s.summaries == 0
    ensures !Advance(s, kind).1 && Advance(s, kind).0.summaries == 0
  {
  }

  lemma {:induction false} CompleteTakes(kinds: seq<LineKind>, n: nat, s: State, i: nat)
    requires Complete(kinds, s) && n + |kinds| <= MAX_LINES && s.summaries == 0
    requires i < |kinds| && kinds[i].Record? && kinds[i].doc.RecordDoc?
    ensures kinds[i].doc.refusal.None? && kinds[i].doc.key in Consume(kinds, n, s).0.seen
  {
    if !ClosingSummary(s, kinds[0]) {
      var (s1, stop) := Advance(s, kinds[0]);
      GoodLineGoesOn(s, kinds[0]);
      if i == 0 {
        GoodRecordSeen(s, kinds[0]);
        ConsumeKeepsSeen(kinds[1..], n + 1, s1);
      } else {
        CompleteTakes(kinds[1..], n + 1, s1, i - 1);
      }
    }
  }

  /** When the cursor moves, every record of the input is admissible, and its key was seen before or is reported as
      imported; the keys are reported once each and are as many as the count of imports. */
  lemma EveryRecordTaken(env: Env, p: Params, lines: seq<seq<Byte>>, i: nat, m: seq<Member>) returns (key: string)
    requires Import(env, p, lines).Some? && Import(env, p, lines).value.cursor != p.cursor
    requires i < |lines| && Holds(env, lines[i], m) && Typed(m, "record")
    ensures Admissible(env, p.scope, m, key) && (key in p.seen || key in Import(env, p, lines).value.keys)
  {
    var kinds := ClassifyAll(env, p.scope, lines);
    var (s, eof) := Consume(kinds, 0, Initial(p));
    CursorFailsClosed(env, p, lines);
    RecordLineHas(env, p.scope, lines[i], m);
    CompleteTakes(kinds, 0, Initial(p), i);
    ConsumeTallies(kinds, 0, Initial(p), p.seen);
    ConcludedKeys(p, s, eof);
    KeyOfIs(m);
    ShapeIs(m);
    key := OrEmpty(KeyOf(m));
    AdmittedIff(env, p.scope, m, key);
  }

  lemma ReportedOnce(env: Env, p: Params, lines: seq<seq<Byte>>)
    requires Import(env, p, lines).Some?
    ensures var r := Import(env, p, lines).value;
            |r.keys| == r.imported && forall i, j :: 0 <= i < j < |r.keys| ==> r.keys[i] != r.keys[j]
  {
    var (s, eof) := Consume(ClassifyAll(env, p.scope, lines), 0, Initial(p));
    ConsumeTallies(ClassifyAll(env, p.scope, lines), 0, Initial(p), p.seen);
    ConcludedKeys(p, s, eof);
  }

  // ---- producer quarantines

  predicate DigestOrNothing(m: seq<Member>, key: string) {
    Get(m, key).None? || SaysDigest(m, key)
  }

  /** A quarantine the producer may report for this scope, under this reason. */
  predicate ProperQuarantine(env: Env, p: Scope, m: seq<Member>, reason: string) {
    && env.boundary(p.profile, IntendedProfile(p)) == Allow
    && Says(m, "profile_id", p.profile) && Says(m, "destination", p.destination) && Brief(p.destination)
    && SaysDigest(m, "quarantine_id")
    && DigestOrNothing(m, "index_key") && DigestOrNothing(m, "ciphertext_sha256")
    && Says(m, "reason_code", reason) && env.knownReason(reason) && env.accepts(reason)
  }

  lemma SaysDigestIs(m: seq<Member>, key: string)
    ensures SaysDigest(m, key) <==> GetString(m, key).Some? && ValidDigest(GetString(m, key).value)
    ensures DigestOrAbsent(m, key) <==> DigestOrNothing(m, key)
  {
    if Get(m, key).Some? && Get(m, key).value.String? {
      DigestIs(Get(m, key).value.s);
    }
  }

  /** A producer quarantine is accepted under its own reason exactly when it is proper. */
  lemma QuarantineIff(env: Env, p: Scope, m: seq<Member>, reason: string)
    ensures QuarantineReason(env, p, m) == (true, reason) <==> ProperQuarantine(env, p, m, reason)
  {
    SaysDigestIs(m, "quarantine_id");
    SaysDigestIs(m, "index_key");
    SaysDigestIs(m, "ciphertext_sha256");
    if Says(m, "destination", p.destination) {
      ShortIs(m, "destination", p.destination);
    }
  }

  /** The index a quarantine names: its index key, or its ciphertext digest where it has no proper index key. */
  predicate NamesIndex(m: seq<Member>, index: string) {
    IsDigest(index)
    && (Says(m, "index_key", index) || (!SaysDigest(m, "index_key") && Says(m, "ciphertext_sha256", index)))
  }

  lemma DigestFieldIs(m: seq<Member>, key: string, d: string)
    ensures DigestField(m, key) == Some(d) <==> Says(m, key, d) && IsDigest(d)
    ensures DigestField(m, key).Some? <==> SaysDigest(m, key)
  {
    DigestIs(d);
    SaysDigestIs(m, key);
  }

  /** What a quarantine line counts as. */
  lemma QuarantineLineHas(env: Env, p: Scope, line: seq<Byte>, m: seq<Member>, index: string)
    requires Holds(env, line, m) && Typed(m, "quarantine")
    ensures var kind := Classify(env, p, line);
            && kind.Record? && kind.doc.QuarantineDoc?
            && (kind.doc.accepted <==> exists reason :: ProperQuarantine(env, p, m, reason))
            && (kind.doc.accepted ==> ProperQuarantine(env, p, m, kind.doc.reason))
            && (kind.doc.index == Some(index) <==> NamesIndex(m, index))
  {
    TypedIs(m, "quarantine");
    KindsDiffer();
    DigestFieldIs(m, "index_key", index);
    DigestFieldIs(m, "ciphertext_sha256", index);
    QuarantineIff(env, p, m, QuarantineReason(env, p, m).1);
    if reason :| ProperQuarantine(env, p, m, reason) {
      QuarantineIff(env, p, m, reason);
    }
  }

  /** The index a record names is the ciphertext digest of its segment. */
  lemma RecordIndexIs(m: seq<Member>, index: string)
    ensures SegmentDigest(m, "ciphertext_sha256") == Some(index) <==>
              HasObject(m, "segment") && Says(ObjectAt(m, "segment"), "ciphertext_sha256", index) && IsDigest(index)
  {
    DigestIs(index);
  }

  // ---- the closing summary

  /** A cursor as it may be announced. */
  predicate IsCursor(s: string) {
    && 0 < Utf8Len(s) <= 4_096
    && forall i :: 0 <= i < |s| ==>
         'A' <= s[i] <= 'Z' || 'a' <= s[i] <= 'z' || '0' <= s[i] <= '9' || s[i] in "_-"
  }

  /** A summary that claims these counts, a complete input and this next cursor. */
  predicate Claims(m: seq<Member>, inspected: nat, records: nat, quarantined: nat, next: Option<string>) {
    && Typed(m, "summary") && Get(m, "complete") == Some(Bool(true))
    && Get(m, "inspected_indexes") == Some(Integer(inspected)) && Get(m, "records") == Some(Integer(records))
    && Get(m, "quarantined") == Some(Integer(quarantined))
    && Get(m, "next_cursor") == Some(if next.None? then Null else String(next.value))
  }

  lemma CursorIs(s: string)
    ensures ValidCursor(s) <==> IsCursor(s)
  {
    BytesPositive(s);
  }

  lemma SummaryLineIs(env: Env, p: Scope, line: seq<Byte>) returns (m: seq<Member>)
    requires Classify(env, p, line).Record? && Classify(env, p, line).doc.SummaryDoc?
    ensures Holds(env, line, m) && Typed(m, "summary") && Classify(env, p, line).doc.claim == ClaimOf(env, m)
  {
    m := env.parse(line).members;
    TypedIs(m, "summary");
  }

  lemma ClaimIs(env: Env, m: seq<Member>, next: Option<string>)
    requires Typed(m, "summary") && ClaimOf(env, m).Some? && ClaimOf(env, m).value.complete
    requires ClaimOf(env, m).value.next == Announced(next)
    ensures var c := ClaimOf(env, m).value; Claims(m, c.inspected, c.records, c.quarantined, next)
    ensures next.Some? ==> IsCursor(next.value) && env.accepts(next.value)
  {
    if next.Some? {
      CursorIs(next.value);
    }
  }

  lemma ClosingAnnounces(s: State, kind: LineKind)
    requires ClosingSummary(s, kind) && s.summaries == 0
    ensures var s1 := Advance(s, kind).0;
            && !Advance(s, kind).1 && s1.summaries == 1 && s1.tally == s.tally
            && kind.doc.claim.Some? && kind.doc.claim.value.next.Announced?
            && s1.pending == Some(kind.doc.claim.value.next.next)
  {
  }

  /** A complete input ends with the cursor its summary announces. */
  lemma {:induction false} CompleteAnnounces(kinds: seq<LineKind>, n: nat, s: State) returns (k: nat)
    requires Complete(kinds, s) && n + |kinds| <= MAX_LINES && s.summaries == 0 && s.pending.None? && Faults(s) == 0
    ensures k < |kinds| && AllGood(kinds[..k], s) && AllEmpty(kinds[k + 1..])
    ensures ClosingSummary(StateAfter(kinds[..k], s), kinds[k])
    ensures kinds[k].doc.claim.Some? && kinds[k].doc.claim.value.next.Announced?
    ensures Consume(kinds, n, s).0.pending == Some(kinds[k].doc.claim.value.next.next) && Consume(kinds, n, s).1
  {
    var (s1, stop) := Advance(s, kinds[0]);
    if ClosingSummary(s, kinds[0]) {
      k := 0;
      assert kinds[..0] == [];
      ClosingAnnounces(s, kinds[0]);
      EmptyGoesOn(kinds[1..], n + 1, s1);
    } else {
      GoodLineGoesOn(s, kinds[0]);
      k := CompleteAnnounces(kinds[1..], n + 1, s1);
      k := k + 1;
      assert kinds[..k][0] == kinds[0] && kinds[..k][1..] == kinds[1..][..k - 1];
    }
  }

  lemma {:induction false} EmptyGoesOn(kinds: seq<LineKind>, n: nat, s: State)
    requires AllEmpty(kinds) && n + |kinds| <= MAX_LINES
    ensures Consume(kinds, n, s) == (s, true)
  {
    if kinds != [] && n < MAX_LINES {
      EmptyGoesOn(kinds[1..], n + 1, s);
    }
  }

  lemma CursorConcluded(p: Params, s: State, eof: bool)
    requires Conclude(p, s, eof).cursor != p.cursor
    ensures s.pending == Some(Conclude(p, s, eof).cursor)
  {
  }

  lemma VerdictCounts(claim: Option<Claim>, t: Tally)
    requires SummaryVerdict(claim, t).Announced?
    ensures claim.Some? && claim.value.complete && claim.value.next == SummaryVerdict(claim, t)
    ensures claim.value.records == t.recordsSeen && claim.value.quarantined == t.producerQuarantines
    ensures claim.value.inspected == |t.observed| + t.unidentified
  {
  }

  /** Where the closing summary of a complete input stands, and that its claim is what the lines before it add up to. */
  lemma AnnouncedCounts(kinds: seq<LineKind>, s: State) returns (k: nat, claim: Claim)
    requires Complete(kinds, s) && |kinds| <= MAX_LINES && s.tally == EMPTY_TALLY && s.summaries == 0 && s.pending.None?
    ensures k < |kinds| && AllGood(kinds[..k], s) && AllEmpty(kinds[k + 1..])
    ensures kinds[k].Record? && kinds[k].doc == SummaryDoc(Some(claim)) && claim.complete && claim.next.Announced?
    ensures claim.records == RecordLines(kinds[..k]) && claim.quarantined == QuarantineLines(kinds[..k])
    ensures claim.inspected == |Indexes(kinds[..k])| + Unindexed(kinds[..k])
    ensures Consume(kinds, 0, s).0.pending == Some(claim.next.next)
  {
    k := CompleteAnnounces(kinds, 0, s);
    claim := kinds[k].doc.claim.value;
    GoodLinesCount(kinds[..k], s);
    assert {} + Indexes(kinds[..k]) == Indexes(kinds[..k]);
    VerdictCounts(kinds[k].doc.claim, StateAfter(kinds[..k], s).tally);
  }

  lemma SummaryLineClaims(env: Env, p: Scope, line: seq<Byte>, claim: Claim, next: Option<string>)
    returns (m: seq<Member>)
    requires Classify(env, p, line).Record? && Classify(env, p, line).doc == SummaryDoc(Some(claim))
    requires claim.complete && claim.next == Announced(next)
    ensures Holds(env, line, m) && Claims(m, claim.inspected, claim.records, claim.quarantined, next)
    ensures next.Some? ==> IsCursor(next.value) && env.accepts(next.value)
  {
    m := SummaryLineIs(env, p, line);
    ClaimIs(env, m, next);
  }

  lemma MovedIsComplete(env: Env, p: Params, lines: seq<seq<Byte>>)
    requires Import(env, p, lines).Some? && Import(env, p, lines).value.cursor != p.cursor
    ensures var kinds := ClassifyAll(env, p.scope, lines);
            && |lines| <= MAX_LINES && Complete(kinds, Initial(p))
            && Consume(kinds, 0, Initial(p)).0.pending == Some(Import(env, p, lines).value.cursor)
  {
    var (s, eof) := Consume(ClassifyAll(env, p.scope, lines), 0, Initial(p));
    CursorFailsClosed(env, p, lines);
    CursorConcluded(p, s, eof);
  }

  /** Line k holds a summary that claims completeness, the numbers of records, quarantines and indexes of the good lines
      before it, and this cursor; only blank lines follow. */
  ghost predicate Announces(env: Env, lines: seq<seq<Byte>>, kinds: seq<LineKind>, s: State, k: nat, m: seq<Member>,
        next: Option<string>)
    requires |lines| == |kinds|
  {
    && k < |lines| && Holds(env, lines[k], m) && AllGood(kinds[..k], s) && AllEmpty(kinds[k + 1..])
    && Claims(m, |Indexes(kinds[..k])| + Unindexed(kinds[..k]), RecordLines(kinds[..k]), QuarantineLines(kinds[..k]),
              next)
    && (next.Some? ==> IsCursor(next.value) && env.accepts(next.value))
  }

  lemma CompleteIsAnnounced(env: Env, p: Scope, lines: seq<seq<Byte>>, kinds: seq<LineKind>, s: State,
        next: Option<string>)
    returns (k: nat, m: seq<Member>)
    requires kinds == ClassifyAll(env, p, lines) && |lines| <= MAX_LINES && Complete(kinds, s)
    requires s.tally == EMPTY_TALLY && s.summaries == 0 && s.pending.None?
    requires Consume(kinds, 0, s).0.pending == Some(next)
    ensures Announces(env, lines, kinds, s, k, m, next)
  {
    var claim;
    k, claim := AnnouncedCounts(kinds, s);
    m := SummaryLineClaims(env, p, lines[k], claim, next);
    AnnouncesIs(env, lines, kinds, s, k, m, next, claim);
  }

  lemma AnnouncesIs(env: Env, lines: seq<seq<Byte>>, kinds: seq<LineKind>, s: State, k: nat, m: seq<Member>,
        next: Option<string>, claim: Claim)
    requires |lines| == |kinds| && k < |lines| && Holds(env, lines[k], m)
    requires AllGood(kinds[..k], s) && AllEmpty(kinds[k + 1..])
    requires Claims(m, claim.inspected, claim.records, claim.quarantined, next)
    requires claim.inspected == |Indexes(kinds[..k])| + Unindexed(kinds[..k])
    requires claim.records == RecordLines(kinds[..k]) && claim.quarantined == QuarantineLines(kinds[..k])
    requires next.Some? ==> IsCursor(next.value) && env.accepts(next.value)
    ensures Announces(env, lines, kinds, s, k, m, next)
  {
  }

  /** The cursor moves only to what the closing summary of a complete input announces. */
  lemma CursorIsAnnounced(env: Env, p: Params, lines: seq<seq<Byte>>) returns (k: nat, m: seq<Member>)
    requires Import(env, p, lines).Some? && Import(env, p, lines).value.cursor != p.cursor
    ensures var kinds := ClassifyAll(env, p.scope, lines);
            Announces(env, lines, kinds, Initial(p), k, m, Import(env, p, lines).value.cursor)
  {
    var kinds := ClassifyAll(env, p.scope, lines);
    MovedIsComplete(env, p, lines);
    k, m := CompleteIsAnnounced(env, p.scope, lines, kinds, Initial(p), Import(env, p, lines).value.cursor);
  }

  /** The other direction: good lines that hold something, then a summary that claims what they add up to and an
      acceptable cursor, then blank lines, and the cursor becomes what it announces. */
  lemma AnnouncedMoves(env: Env, p: Params, lines: seq<seq<Byte>>, k: nat, m: seq<Member>, next: Option<string>)
    requires Import(env, p, lines).Some? && |lines| <= MAX_LINES
    requires var kinds := ClassifyAll(env, p.scope, lines);
             Announces(env, lines, kinds, Initial(p), k, m, next)
             && RecordLines(kinds[..k]) + QuarantineLines(kinds[..k]) > 0
    ensures next != p.cursor ==> Import(env, p, lines).value.cursor == next
  {
    var kinds := ClassifyAll(env, p.scope, lines);
    AnnouncedKind(env, p.scope, lines, kinds, Initial(p), k, m, next);
    ClosingClaimCloses(kinds, Initial(p), k, next);
    CursorFailsClosed(env, p, lines);
  }

  /** The claim that is true of these lines. */
  function TrueClaim(before: seq<LineKind>, next: Option<string>): Claim {
    Claim(|Indexes(before)| + Unindexed(before), RecordLines(before), QuarantineLines(before), true, Announced(next))
  }

  lemma AnnouncedKind(env: Env, p: Scope, lines: seq<seq<Byte>>, kinds: seq<LineKind>, s: State, k: nat,
        m: seq<Member>, next: Option<string>)
    requires kinds == ClassifyAll(env, p, lines) && |lines| <= MAX_LINES && Announces(env, lines, kinds, s, k, m, next)
    ensures kinds[k] == Record(true, SummaryDoc(Some(TrueClaim(kinds[..k], next))))
  {
    CountsFit(kinds[..k]);
    var c := TrueClaim(kinds[..k], next);
    SummaryReads(env, p, lines[k], m, c.inspected, c.records, c.quarantined, next);
  }

  lemma ClosingClaimCloses(kinds: seq<LineKind>, s: State, k: nat, next: Option<string>)
    requires k < |kinds| <= MAX_LINES && AllGood(kinds[..k], s) && AllEmpty(kinds[k + 1..])
    requires kinds[k] == Record(true, SummaryDoc(Some(TrueClaim(kinds[..k], next))))
    requires s.tally == EMPTY_TALLY && s.summaries == 0 && RecordLines(kinds[..k]) + QuarantineLines(kinds[..k]) > 0
    ensures Complete(kinds, s) && Consume(kinds, 0, s).0.pending == Some(next)
  {
    CountedBefore(kinds[..k], s);
    ClosedIsComplete(kinds, 0, s, k, next);
  }

  lemma {:induction false} CountsFit(kinds: seq<LineKind>)
    ensures RecordLines(kinds) <= |kinds| && QuarantineLines(kinds) <= |kinds|
    ensures |Indexes(kinds)| + Unindexed(kinds) <= |kinds|
  {
    if kinds != [] {
      CountsFit(kinds[1..]);
      var rest := Indexes(kinds[1..]);
      forall i: string ensures |{i} + rest| <= 1 + |rest| {
        assert {i} + rest == rest || |{i} + rest| == 1 + |rest|;
      }
      assert {} + rest == rest;
    }
  }

  lemma ClaimRead(env: Env, m: seq<Member>, inspected: nat, records: nat, quarantined: nat, next: Option<string>)
    requires Claims(m, inspected, records, quarantined, next) && (next.Some? ==> IsCursor(next.value))
    requires next.Some? ==> env.accepts(next.value)
    requires inspected <= MAX_LINES && records <= MAX_LINES && quarantined <= MAX_LINES
    ensures ClaimOf(env, m) == Some(Claim(inspected, records, quarantined, true, Announced(next)))
  {
    if next.Some? {
      CursorIs(next.value);
    }
  }

  lemma SummaryReads(env: Env, p: Scope, line: seq<Byte>, m: seq<Member>, inspected: nat, records: nat,
        quarantined: nat, next: Option<string>)
    requires Holds(env, line, m) && Claims(m, inspected, records, quarantined, next)
    requires next.Some? ==> IsCursor(next.value) && env.accepts(next.value)
    requires inspected <= MAX_LINES && records <= MAX_LINES && quarantined <= MAX_LINES
    ensures Classify(env, p, line)
         == Record(true, SummaryDoc(Some(Claim(inspected, records, quarantined, true, Announced(next)))))
  {
    ClaimRead(env, m, inspected, records, quarantined, next);
    TypedIs(m, "summary");
    KindsDiffer();
  }

  lemma CountedBefore(before: seq<LineKind>, s: State)
    requires AllGood(before, s) && s.tally == EMPTY_TALLY && s.summaries == 0
    ensures var t := StateAfter(before, s).tally;
            && t.recordsSeen == RecordLines(before) && t.producerQuarantines == QuarantineLines(before)
            && |t.observed| + t.unidentified == |Indexes(before)| + Unindexed(before)
  {
    GoodLinesCount(before, s);
    assert {} + Indexes(before) == Indexes(before);
  }

  lemma {:induction false} ClosedIsComplete(kinds: seq<LineKind>, n: nat, s: State, k: nat, next: Option<string>)
    requires k < |kinds| && AllGood(kinds[..k], s) && AllEmpty(kinds[k + 1..]) && n + |kinds| <= MAX_LINES
    requires s.summaries == 0 && ClosingSummary(StateAfter(kinds[..k], s), kinds[k])
    requires kinds[k].doc.claim.Some? && kinds[k].doc.claim.value.next == Announced(next)
    ensures Complete(kinds, s) && Consume(kinds, n, s).0.pending == Some(next)
    decreases k
  {
    var (s1, stop) := Advance(s, kinds[0]);
    if k == 0 {
      assert kinds[..0] == [];
      ClosingAnnounces(s, kinds[0]);
      EmptyGoesOn(kinds[1..], n + 1, s1);
    } else {
      assert kinds[..k][0] == kinds[0] && kinds[..k][1..] == kinds[1..][..k - 1];
      assert kinds[1..][k - 1 + 1..] == kinds[k + 1..];
      GoodLineGoesOn(s, kinds[0]);
      ClosedIsComplete(kinds[1..], n + 1, s1, k - 1, next);
    }
  }

  // ---- the reasons reported

  /** What a closing summary is refused for, given what was counted before it. */
  function SummaryComplaint(claim: Option<Claim>, t: Tally): Option<string> {
    match claim
    case None => Some("summary-invalid")
    case Some(c) =>
      if t.recordsSeen == 0 && t.producerQuarantines == 0 then Some("summary-no-scope")
      else if c.complete && c.records == t.recordsSeen && c.quarantined == t.producerQuarantines
              && c.inspected == |t.observed| + t.unidentified
      then (match c.next case Refused(reason) => Some(reason) case Announced(_) => None)
      else Some("summary-mismatch")
  }

  /** What is wrong with a line, given what came before it. */
  function Complaint(s: State, kind: LineKind): Option<string> {
    match kind
    case TooLarge => Some("line-too-large")
    case Empty => None
    case Garbage(reason) => Some(reason)
    case Record(typed, doc) =>
      if s.summaries > 0 then Some(if typed then "duplicate-summary" else "trailing-after-summary")
      else
        match doc
        case Unsupported => Some("schema-unsupported")
        case RecordDoc(_, refusal, _) => if s.records >= MAX_RECORDS then Some("record-limit") else refusal
        case QuarantineDoc(_, reason, _) => Some(reason)
        case SummaryDoc(claim) => SummaryComplaint(claim, s.tally)
        case OtherDoc => Some("record-type-unsupported")
  }

  function WithReason(reasons: seq<string>, reason: Option<string>): seq<string> {
    match reason
    case None => reasons
    case Some(r) => if r in reasons then reasons else reasons + [r]
  }

  predicate Distinct(reasons: seq<string>) {
    forall i, j :: 0 <= i < j < |reasons| ==> reasons[i] != reasons[j]
  }

  /** Reasons are reported once each, and some are if and only if something was quarantined. */
  ghost predicate ProperReasons(reasons: seq<string>, quarantined: nat) {
    Distinct(reasons) && (reasons == [] <==> quarantined == 0)
  }

  lemma AdvanceComplains(s: State, kind: LineKind)
    ensures var (s1, complaint) := (Advance(s, kind).0, Complaint(s, kind));
            && s1.tally.reasons == WithReason(s.tally.reasons, complaint)
            && s1.tally.quarantined == s.tally.quarantined + if complaint.Some? then 1 else 0
  {
  }

  lemma ReasonAdded(reasons: seq<string>, quarantined: nat, reason: Option<string>)
    requires ProperReasons(reasons, quarantined)
    ensures ProperReasons(WithReason(reasons, reason), quarantined + if reason.Some? then 1 else 0)
    ensures forall r :: r in WithReason(reasons, reason) <==> r in reasons || reason == Some(r)
  {
  }

  lemma StepTells(s: State, kind: LineKind, reason: string)
    requires ProperReasons(s.tally.reasons, s.tally.quarantined)
    ensures var s1 := Advance(s, kind).0;
            && ProperReasons(s1.tally.reasons, s1.tally.quarantined)
            && (reason in s1.tally.reasons <==> reason in s.tally.reasons || Complaint(s, kind) == Some(reason))
  {
    AdvanceComplains(s, kind);
    ReasonAdded(s.tally.reasons, s.tally.quarantined, Complaint(s, kind));
  }

  /** Line i is read, and this is wrong with it. */
  predicate ComplainsAt(kinds: seq<LineKind>, n: nat, s: State, i: nat, reason: string) {
    i < Taken(kinds, n, s) && Complaint(StateAfter(kinds[..i], s), kinds[i]) == Some(reason)
  }

  lemma ComplainsLater(kinds: seq<LineKind>, n: nat, s: State, i: nat, reason: string)
    requires n < MAX_LINES && kinds != [] && !Advance(s, kinds[0]).1
    ensures ComplainsAt(kinds[1..], n + 1, Advance(s, kinds[0]).0, i, reason) <==>
            ComplainsAt(kinds, n, s, i + 1, reason)
  {
    if i + 1 < Taken(kinds, n, s) {
      assert kinds[..i + 1][0] == kinds[0] && kinds[..i + 1][1..] == kinds[1..][..i];
    }
  }

  lemma ComplainsFirst(kinds: seq<LineKind>, n: nat, s: State, reason: string)
    requires n < MAX_LINES && kinds != []
    ensures ComplainsAt(kinds, n, s, 0, reason) <==> Complaint(s, kinds[0]) == Some(reason)
  {
    assert kinds[..0] == [];
  }

  lemma {:induction false} ConsumeReasons(kinds: seq<LineKind>, n: nat, s: State, reason: string)
    requires ProperReasons(s.tally.reasons, s.tally.quarantined)
    ensures var s1 := Consume(kinds, n, s).0; ProperReasons(s1.tally.reasons, s1.tally.quarantined)
    ensures reason in s.tally.reasons ==> reason in Consume(kinds, n, s).0.tally.reasons
  {
    if n >= MAX_LINES {
      ReasonAdded(s.tally.reasons, s.tally.quarantined, Some("input-limit"));
    } else if kinds != [] {
      var (s1, stop) := Advance(s, kinds[0]);
      StepTells(s, kinds[0], reason);
      if !stop {
        ConsumeReasons(kinds[1..], n + 1, s1, reason);
      }
    }
  }

  lemma {:induction false} ConsumeTells(kinds: seq<LineKind>, n: nat, s: State, i: nat, reason: string)
    requires ProperReasons(s.tally.reasons, s.tally.quarantined) && ComplainsAt(kinds, n, s, i, reason)
    ensures reason in Consume(kinds, n, s).0.tally.reasons
    decreases i
  {
    var (s1, stop) := Advance(s, kinds[0]);
    StepTells(s, kinds[0], reason);
    if i == 0 {
      ComplainsFirst(kinds, n, s, reason);
      if !stop {
        ConsumeReasons(kinds[1..], n + 1, s1, reason);
      }
    } else {
      ComplainsLater(kinds, n, s, i - 1, reason);
      ConsumeTells(kinds[1..], n + 1, s1, i - 1, reason);
    }
  }

  lemma {:induction false} ReasonFrom(kinds: seq<LineKind>, n: nat, s: State, reason: string) returns (i: nat)
    requires ProperReasons(s.tally.reasons, s.tally.quarantined) && n <= MAX_LINES
    requires reason in Consume(kinds, n, s).0.tally.reasons && reason !in s.tally.reasons
    ensures ComplainsAt(kinds, n, s, i, reason) || (reason == "input-limit" && n + |kinds| > MAX_LINES)
  {
    i := 0;
    if n >= MAX_LINES {
      ReasonAdded(s.tally.reasons, s.tally.quarantined, Some("input-limit"));
    } else {
      var (s1, stop) := Advance(s, kinds[0]);
      StepTells(s, kinds[0], reason);
      if reason in s1.tally.reasons {
        ComplainsFirst(kinds, n, s, reason);
      } else {
        i := ReasonFrom(kinds[1..], n + 1, s1, reason);
        ComplainsLater(kinds, n, s, i, reason);
        i := i + 1;
      }
    }
  }

  /** The reasons the end of the input adds. */
  lemma ConcludedReasons(p: Params, s: State, eof: bool)
    requires ProperReasons(s.tally.reasons, s.tally.quarantined)
    ensures var r := Conclude(p, s, eof);
            var ended := eof && s.summaries == 1 && s.pending.Some?;
            && ProperReasons(r.reasons, r.quarantined)
            && (forall x :: x in s.tally.reasons ==> x in r.reasons)
            && (!ended ==> "missing-summary" in r.reasons)
            && forall x :: x in r.reasons ==>
                 x in s.tally.reasons || (x == "missing-summary" && !ended)
                 || (x == "cursor-unchanged" && ended && p.cursor.Some? && s.pending.value == p.cursor)
  {
    ReasonAdded(s.tally.reasons, s.tally.quarantined, Some("missing-summary"));
    ReasonAdded(s.tally.reasons, s.tally.quarantined, Some("cursor-unchanged"));
  }

  /** Reasons are told once each, some exactly when something was quarantined, and that of every line that was read. */
  lemma ComplaintsAreTold(env: Env, p: Params, lines: seq<seq<Byte>>, i: nat, reason: string)
    requires Import(env, p, lines).Some?
    ensures var r := Import(env, p, lines).value;
            && ProperReasons(r.reasons, r.quarantined)
            && (ComplainsAt(ClassifyAll(env, p.scope, lines), 0, Initial(p), i, reason) ==> reason in r.reasons)
  {
    var kinds := ClassifyAll(env, p.scope, lines);
    var (s, eof) := Consume(kinds, 0, Initial(p));
    ConsumeReasons(kinds, 0, Initial(p), reason);
    ConcludedReasons(p, s, eof);
    if ComplainsAt(kinds, 0, Initial(p), i, reason) {
      ConsumeTells(kinds, 0, Initial(p), i, reason);
    }
  }

  /** And no other reason is told, but for the three about the input as a whole. */
  lemma ToldIsAComplaint(env: Env, p: Params, lines: seq<seq<Byte>>, reason: string) returns (i: nat)
    requires Import(env, p, lines).Some? && reason in Import(env, p, lines).value.reasons
    ensures ComplainsAt(ClassifyAll(env, p.scope, lines), 0, Initial(p), i, reason)
            || (reason == "input-limit" && |lines| > MAX_LINES) || reason in ["missing-summary", "cursor-unchanged"]
  {
    var kinds := ClassifyAll(env, p.scope, lines);
    var (s, eof) := Consume(kinds, 0, Initial(p));
    ConsumeReasons(kinds, 0, Initial(p), reason);
    ConcludedReasons(p, s, eof);
    i := 0;
    if reason in s.tally.reasons {
      i := ReasonFrom(kinds, 0, Initial(p), reason);
    }
  }

  // ---- parameters

  predicate Named(env: Env, s: string) {
    env.knownProfile(s) && !env.blank(s) && Utf8Len(s) <= 128
  }

  /** An import is refused before anything is read exactly when a parameter is not acceptable. */
  lemma RefusedBeforeReading(env: Env, p: Params, lines: seq<seq<Byte>>)
    ensures Import(env, p, lines).Some? <==>
              && Named(env, p.scope.profile) && (p.scope.target.Some? ==> Named(env, p.scope.target.value))
              && !env.blank(p.scope.workspace) && Utf8Len(p.scope.workspace) <= 128
              && !env.blank(p.scope.destination) && Utf8Len(p.scope.destination) <= 128
              && (forall i :: 0 <= i < |p.scope.destination| ==> p.scope.destination[i] as int > 0x20)
              && (p.cursor.Some? ==> IsCursor(p.cursor.value)) && forall k :: k in p.seen ==> IsDigest(k)
  {
    if p.cursor.Some? {
      CursorIs(p.cursor.value);
    }
    forall k | k in p.seen ensures ValidDigest(k) <==> IsDigest(k) {
      DigestIs(k);
    }
  }
}
