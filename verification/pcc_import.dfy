/** The PCC replay consumer (`src/pcc_import.rs`): a bounded line-by-line state machine. */
module PccImport {
  import opened Basics
  import opened Json
  import opened Framing
  import opened PccCanonical
  import opened PccPolicy

  const MAX_LINES := 4_096
  const MAX_RECORDS := 1_024
  const MAX_REPORT_KEYS := 1_024
  const MAX_CURSOR_BYTES := 4_096
  const INPUT_SCHEMA := "josh-room.pcc-replay"

  datatype Parsed = InvalidUtf8 | Blank | InvalidJson | NotObject | Document(members: seq<Member>)

  datatype Boundary = Allow | Deny | GenericPreferencesOnly

  /** Foreign code the consumer calls, as deterministic functions: UTF-8 and JSON parsing of a
      trimmed line, string screening, the digest of a canonical value, the profile boundary, the
      table of producer reason codes, and profile and blank-string recognition. */
  datatype Env = Env(
    parse: seq<Byte> -> Parsed, accepts: string -> bool, digest: Value -> string,
    boundary: (string, string) -> Boundary, knownReason: string -> bool,
    knownProfile: string -> bool, blank: string -> bool)

  /** Where an import is bound to. */
  datatype Scope = Scope(profile: string, workspace: string, destination: string, target: Option<string>)

  datatype Params = Params(scope: Scope, cursor: Option<string>, seen: set<string>)

  function TargetOf(p: Scope): string {
    if p.target.Some? then p.target.value else p.profile
  }

  predicate ValidDigest(s: string) {
    |s| == 64 && forall i :: 0 <= i < |s| ==> '0' <= s[i] <= '9' || 'a' <= s[i] <= 'f'
  }

  predicate CursorChar(c: char) {
    'a' <= c <= 'z' || 'A' <= c <= 'Z' || '0' <= c <= '9' || c == '_' || c == '-'
  }

  predicate ValidCursor(s: string) {
    s != "" && Utf8Len(s) <= MAX_CURSOR_BYTES && forall i :: 0 <= i < |s| ==> CursorChar(s[i])
  }

  predicate ValidScope(env: Env, p: Scope) {
    && !env.blank(p.profile) && Utf8Len(p.profile) <= 128 && env.knownProfile(p.profile)
    && !env.blank(p.workspace) && Utf8Len(p.workspace) <= 128
    && !env.blank(p.destination) && Utf8Len(p.destination) <= 128
    && (forall i :: 0 <= i < |p.destination| ==> p.destination[i] >= '!')
    && (p.target.Some? ==>
          env.knownProfile(p.target.value) && !env.blank(p.target.value) && Utf8Len(p.target.value) <= 128)
  }

  predicate ValidParams(env: Env, p: Params) {
    ValidScope(env, p.scope) && (p.cursor.Some? ==> ValidCursor(p.cursor.value))
    && forall k :: k in p.seen ==> ValidDigest(k)
  }

  // ---- the report

  datatype Tally = Tally(
    imported: nat, skipped: nat, quarantined: nat, recordsSeen: nat, producerQuarantines: nat,
    observed: set<string>, unidentified: nat, keys: seq<string>, reasons: seq<string>)

  const EMPTY_TALLY := Tally(0, 0, 0, 0, 0, {}, 0, [], [])

  function Quarantined(t: Tally, reason: string): Tally {
    t.(quarantined := t.quarantined + 1, reasons := if reason in t.reasons then t.reasons else t.reasons + [reason])
  }

  /** Loop state of `run_reader`. */
  datatype State = State(tally: Tally, seen: set<string>, summaries: nat, records: nat, pending: Option<Option<string>>)

  function Initial(p: Params): State {
    State(EMPTY_TALLY, p.seen, 0, 0, None)
  }

  predicate ValidEnvelope(m: seq<Member>) {
    && GetString(m, "schema") == Some(INPUT_SCHEMA)
    && (match GetObject(m, "schema_version")
        case Some(v) => GetUnsigned(v, "major") == Some(1) && GetUnsigned(v, "minor") == Some(0)
        case None => false)
    && GetString(m, "type").Some?
  }

  predicate ShortField(m: seq<Member>, key: string) {
    match GetString(m, key)
    case Some(s) => s != "" && Utf8Len(s) <= 128
    case None => false
  }

  function SegmentDigest(m: seq<Member>, key: string): Option<string> {
    match GetObject(m, "segment")
    case Some(segment) =>
      (match GetString(segment, key)
       case Some(s) => if ValidDigest(s) then Some(s) else None
       case None => None)
    case None => None
  }

  function KeyOf(m: seq<Member>): Option<string> {
    match GetString(m, "idempotency_key")
    case Some(s) => if ValidDigest(s) then Some(s) else None
    case None => None
  }

  /** `validate_record_shape`: the reason a record is refused, if any. */
  function ShapeReason(m: seq<Member>): Option<string> {
    if KeyOf(m).None? then Some("idempotency-key-invalid")
    else if !ShortField(m, "profile_id") || !ShortField(m, "workspace_id") then Some("record-invalid")
    else if GetObject(m, "record").None? || GetObject(m, "session").None? || GetObject(m, "source").None?
         || GetObject(m, "checkpoint").None?
         || SegmentDigest(m, "content_sha256").None? || SegmentDigest(m, "ciphertext_sha256").None?
         || GetUnsigned(m, "record_index").None? || GetString(m, "producer_trust") != Some("untrusted")
    then Some("record-invalid")
    else None
  }

  function OrEmpty(s: Option<string>): string {
    if s.Some? then s.value else ""
  }

  function CrossProfileReason(env: Env, m: seq<Member>, target: string): Option<string> {
    var source := OrEmpty(GetString(m, "profile_id"));
    var portability := match GetObject(m, "record") case Some(r) => GetString(r, "portability") case None => None;
    if portability == Some("never_export") then Some("profile-boundary-denied")
    else
      match env.boundary(source, target)
      case Deny => Some("profile-boundary-denied")
      case GenericPreferencesOnly => Some("profile-boundary-filtered")
      case Allow =>
        if source != target && portability != Some("portable") && portability != Some("workspace_only")
        then Some("profile-boundary-denied") else None
  }

  function OrNull(v: Option<Value>): Value {
    if v.Some? then v.value else Null
  }

  predicate IdentityFields(m: seq<Member>) {
    && Get(m, "profile_id").Some? && Get(m, "workspace_id").Some? && Get(m, "checkpoint").Some?
    && Get(m, "record_index").Some? && Get(m, "record").Some?
  }

  datatype Origin = FromRecord | FromSession | FromSegment

  datatype Slot = Slot(name: string, origin: Origin, field: string)

  /** The eight members of an identity: their names, and where their values are found. */
  const IDENTITY: seq<Slot> := [
    Slot("profile_id", FromRecord, "profile_id"), Slot("workspace_id", FromRecord, "workspace_id"),
    Slot("session_id", FromSession, "session_id"),
    Slot("segment_event_id", FromSegment, "event_id"), Slot("segment_content_sha256", FromSegment, "content_sha256"),
    Slot("checkpoint", FromRecord, "checkpoint"), Slot("record_index", FromRecord, "record_index"),
    Slot("record", FromRecord, "record")]

  function Pick(origin: Origin, m: seq<Member>, session: seq<Member>, segment: seq<Member>): seq<Member> {
    match origin
    case FromRecord => m
    case FromSession => session
    case FromSegment => segment
  }

  function IdentityMember(slot: Slot, m: seq<Member>, session: seq<Member>, segment: seq<Member>): Member {
    Member(slot.name, OrNull(Get(Pick(slot.origin, m, session, segment), slot.field)))
  }

  function IdentityOf(m: seq<Member>, session: seq<Member>, segment: seq<Member>): seq<Member> {
    seq(|IDENTITY|, i requires 0 <= i < |IDENTITY| => IdentityMember(IDENTITY[i], m, session, segment))
  }

  /** The idempotency key a record must carry: the digest of its canonical identity. */
  function ExpectedKey(env: Env, m: seq<Member>): Option<string> {
    match (GetObject(m, "session"), GetObject(m, "segment"))
    case (Some(session), Some(segment)) =>
      if IdentityFields(m) then Some(env.digest(Canonicalize(Object(IdentityOf(m, session, segment))))) else None
    case _ => None
  }

  /** Why a record is quarantined, if it is; everything else is imported or skipped by its key. */
  function RecordReason(env: Env, p: Scope, m: seq<Member>): Option<string> {
    if ShapeReason(m).Some? then ShapeReason(m)
    else if OrEmpty(GetString(m, "profile_id")) != p.profile then Some("profile-mismatch")
    else if OrEmpty(GetString(m, "workspace_id")) != p.workspace then Some("workspace-mismatch")
    else if CrossProfileReason(env, m, TargetOf(p)).Some? then CrossProfileReason(env, m, TargetOf(p))
    else if !PolicySafe(env.accepts, m) then Some("policy-denied")
    else if ExpectedKey(env, m) != KeyOf(m) then Some("idempotency-key-mismatch")
    else None
  }

  predicate DigestOrAbsent(m: seq<Member>, key: string) {
    match Get(m, key)
    case None => true
    case Some(String(s)) => ValidDigest(s)
    case _ => false
  }

  predicate AllowedReason(env: Env, reason: string) {
    env.knownReason(reason) && env.accepts(reason)
  }

  /** A producer quarantine is accepted under its own reason code, or refused under one of ours. */
  function QuarantineReason(env: Env, p: Scope, m: seq<Member>): (r: (bool, string)) {
    match env.boundary(p.profile, TargetOf(p))
    case Deny => (false, "profile-boundary-denied")
    case GenericPreferencesOnly => (false, "profile-boundary-filtered")
    case Allow =>
      var reason := GetString(m, "reason_code");
      if GetString(m, "profile_id") != Some(p.profile) || GetString(m, "destination") != Some(p.destination)
         || !(GetString(m, "quarantine_id").Some? && ValidDigest(GetString(m, "quarantine_id").value))
         || !ShortField(m, "destination") || !DigestOrAbsent(m, "index_key") || !DigestOrAbsent(m, "ciphertext_sha256")
         || !(reason.Some? && AllowedReason(env, reason.value))
      then (false, "quarantine-invalid")
      else (true, reason.value)
  }

  function DigestField(m: seq<Member>, key: string): Option<string> {
    match GetString(m, key)
    case Some(s) => if ValidDigest(s) then Some(s) else None
    case None => None
  }

  /** What a summary announces, apart from whether its counts match. */
  datatype Claim = Claim(inspected: nat, records: nat, quarantined: nat, complete: bool, next: Verdict)

  datatype Verdict = Refused(reason: string) | Announced(next: Option<string>)

  function NextCursor(env: Env, m: seq<Member>): Verdict {
    match Get(m, "next_cursor")
    case Some(Null) => Announced(None)
    case Some(String(s)) => if ValidCursor(s) && env.accepts(s) then Announced(Some(s)) else Refused("cursor-invalid")
    case _ => Refused("cursor-invalid")
  }

  function ClaimOf(env: Env, m: seq<Member>): Option<Claim> {
    match (GetUnsigned(m, "inspected_indexes"), GetUnsigned(m, "records"), GetUnsigned(m, "quarantined"))
    case (Some(inspected), Some(records), Some(quarantined)) =>
      Some(Claim(inspected, records, quarantined, Get(m, "complete") == Some(Bool(true)), NextCursor(env, m)))
    case _ => None
  }

  /** What a line is, apart from the state it meets. */
  datatype Document =
    | Unsupported
    | RecordDoc(index: Option<string>, refusal: Option<string>, key: string)
    | QuarantineDoc(accepted: bool, reason: string, index: Option<string>)
    | SummaryDoc(claim: Option<Claim>)
    | OtherDoc

  datatype LineKind = TooLarge | Empty | Garbage(reason: string) | Record(summaryTyped: bool, doc: Document)

  function DocumentOf(env: Env, p: Scope, m: seq<Member>): Document {
    if !ValidEnvelope(m) then Unsupported
    else
      var kind := GetString(m, "type");
      if kind == Some("record") then
        RecordDoc(SegmentDigest(m, "ciphertext_sha256"), RecordReason(env, p, m), OrEmpty(KeyOf(m)))
      else if kind == Some("quarantine") then
        var (accepted, reason) := QuarantineReason(env, p, m);
        QuarantineDoc(accepted, reason,
          if DigestField(m, "index_key").Some? then DigestField(m, "index_key")
             else DigestField(m, "ciphertext_sha256"))
      else if kind == Some("summary") then SummaryDoc(ClaimOf(env, m))
      else OtherDoc
  }

  function Classify(env: Env, p: Scope, line: seq<Byte>): LineKind {
    if |line| > MAX_LINE_BYTES then TooLarge
    else
      match env.parse(line)
      case InvalidUtf8 => Garbage("invalid-utf8")
      case Blank => Empty
      case InvalidJson => Garbage("invalid-json")
      case NotObject => Garbage("record-invalid")
      case Document(m) => Record(GetString(m, "type") == Some("summary"), DocumentOf(env, p, m))
  }

  function ClassifyAll(env: Env, p: Scope, lines: seq<seq<Byte>>): (kinds: seq<LineKind>)
    ensures |kinds| == |lines| && forall i :: 0 <= i < |lines| ==> kinds[i] == Classify(env, p, lines[i])
  {
    seq(|lines|, i requires 0 <= i < |lines| => Classify(env, p, lines[i]))
  }

  // ---- the state machine over classified lines

  function Observed(t: Tally, index: Option<string>): Tally {
    if index.Some? then t.(observed := t.observed + {index.value}) else t
  }

  function Fail(s: State, reason: string): State {
    s.(tally := Quarantined(s.tally, reason))
  }

  function TakeRecord(s: State, index: Option<string>, reason: Option<string>, key: string): (r: (State, bool)) {
    var s1 := s.(records := s.records + 1, tally := Observed(s.tally.(recordsSeen := s.tally.recordsSeen + 1), index));
    if s1.records > MAX_RECORDS then (Fail(s1, "record-limit"), true)
    else if reason.Some? then (Fail(s1, reason.value), false)
    else if key in s1.seen then (s1.(tally := s1.tally.(skipped := s1.tally.skipped + 1)), false)
    else
      (s1.(seen := s1.seen + {key},
           tally := s1.tally.(imported := s1.tally.imported + 1,
                              keys := if |s1.tally.keys| < MAX_REPORT_KEYS then s1.tally.keys + [key]
                                      else s1.tally.keys)),
       false)
  }

  function TakeQuarantine(s: State, accepted: bool, reason: string, index: Option<string>): State {
    var t := Fail(s, reason).tally;
    if !accepted then s.(tally := t)
    else
      var t1 := t.(producerQuarantines := t.producerQuarantines + 1);
      s.(tally := if index.Some? then Observed(t1, index) else t1.(unidentified := t1.unidentified + 1))
  }

  function SummaryVerdict(claim: Option<Claim>, t: Tally): Verdict {
    if claim.None? then Refused("summary-invalid")
    else if t.recordsSeen == 0 && t.producerQuarantines == 0 then Refused("summary-no-scope")
    else
      var c := claim.value;
      if !c.complete || c.records != t.recordsSeen || c.quarantined != t.producerQuarantines
         || c.inspected != |t.observed| + t.unidentified
      then Refused("summary-mismatch")
      else c.next
  }

  function TakeSummary(s: State, claim: Option<Claim>): State {
    var s1 := s.(summaries := s.summaries + 1);
    match SummaryVerdict(claim, s.tally)
    case Refused(reason) => Fail(s1, reason)
    case Announced(next) => s1.(pending := Some(next))
  }

  /** One line: the new state, and whether reading stops there. */
  function Advance(s: State, kind: LineKind): (r: (State, bool)) {
    match kind
    case TooLarge => (Fail(s, "line-too-large"), true)
    case Empty => (s, false)
    case Garbage(reason) => (Fail(s, reason), false)
    case Record(summaryTyped, doc) =>
      if s.summaries > 0 then (Fail(s, if summaryTyped then "duplicate-summary" else "trailing-after-summary"), false)
      else
        match doc
        case Unsupported => (Fail(s, "schema-unsupported"), false)
        case RecordDoc(index, reason, key) => TakeRecord(s, index, reason, key)
        case QuarantineDoc(accepted, reason, index) => (TakeQuarantine(s, accepted, reason, index), false)
        case SummaryDoc(claim) => (TakeSummary(s, claim), false)
        case OtherDoc => (Fail(s, "record-type-unsupported"), false)
  }

  /** The reading loop from line number n on: the final state and whether the end was reached. */
  function Consume(kinds: seq<LineKind>, n: nat, s: State): (r: (State, bool)) {
    if n >= MAX_LINES then (if kinds == [] then (s, true) else (Fail(s, "input-limit"), false))
    else if kinds == [] then (s, true)
    else
      var (s1, stop) := Advance(s, kinds[0]);
      if stop then (s1, false) else Consume(kinds[1..], n + 1, s1)
  }

  datatype Response = Response(
    cursor: Option<string>, imported: nat, skipped: nat, quarantined: nat, keys: seq<string>, reasons: seq<string>)

  /** The cursor moves only when nothing but producer quarantines went wrong. */
  predicate Clean(s: State, eof: bool) {
    eof && s.summaries == 1 && s.pending.Some? && s.tally.quarantined == s.tally.producerQuarantines
  }

  function Conclude(p: Params, s: State, eof: bool): Response {
    var s1 := if !eof || s.summaries != 1 || s.pending.None? then Fail(s, "missing-summary") else s;
    if !Clean(s, eof) then Respond(s1.tally, p.cursor)
    else if s.pending.value.Some? && s.pending.value == p.cursor then
      Respond(Fail(s, "cursor-unchanged").tally, p.cursor)
    else Respond(s.tally, s.pending.value)
  }

  function Respond(t: Tally, cursor: Option<string>): Response {
    Response(cursor, t.imported, t.skipped, t.quarantined, t.keys, t.reasons)
  }

  /** `run_reader` over the successive results of the bounded line reader. */
  function Import(env: Env, p: Params, lines: seq<seq<Byte>>): Option<Response> {
    if !ValidParams(env, p) then None
    else
      var (s, eof) := Consume(ClassifyAll(env, p.scope, lines), 0, Initial(p));
      Some(Conclude(p, s, eof))
  }

  // ---- the report as the source works on it

  class Report {
    var imported: nat
    var skipped: nat
    var quarantined: nat
    var recordsSeen: nat
    var producerQuarantines: nat
    var observed: set<string>
    var unidentified: nat
    var keys: seq<string>
    var reasons: seq<string>

    function Value(): Tally
      reads this
    {
      Tally(imported, skipped, quarantined, recordsSeen, producerQuarantines, observed, unidentified, keys, reasons)
    }

    constructor ()
      ensures Value() == EMPTY_TALLY
    {
      imported, skipped, quarantined, recordsSeen, producerQuarantines := 0, 0, 0, 0, 0;
      observed, unidentified, keys, reasons := {}, 0, [], [];
    }

    method Quarantine(reason: string)
      modifies this
      ensures Value() == Quarantined(old(Value()), reason)
    {
      quarantined := quarantined + 1;
      if reason !in reasons {
        reasons := reasons + [reason];
      }
    }

    /** The end of `consume_record`: an acceptable record is imported, or skipped when its key was seen. */
    method ImportOrSkip(refusal: Option<string>, key: string, seen: set<string>) returns (seen': set<string>)
      modifies this
      ensures var t := old(Value());
              && (refusal.Some? ==> seen' == seen && Value() == Quarantined(t, refusal.value))
              && (refusal.None? && key in seen ==> seen' == seen && Value() == t.(skipped := t.skipped + 1))
              && (refusal.None? && key !in seen ==>
                    && seen' == seen + {key}
                    && Value() == t.(imported := t.imported + 1,
                                    keys := if |t.keys| < MAX_REPORT_KEYS then t.keys + [key] else t.keys))
    {
      seen' := seen;
      if refusal.Some? {
        Quarantine(refusal.value);
        return;
      }
      if key in seen {
        skipped := skipped + 1;
        return;
      }
      seen' := seen + {key};
      imported := imported + 1;
      if |keys| < MAX_REPORT_KEYS {
        keys := keys + [key];
      }
    }

    /** `consume_quarantine` and the index bookkeeping after it. */
    method ConsumeQuarantine(accepted: bool, reason: string, index: Option<string>)
      modifies this
      ensures forall s: State :: s.tally == old(Value()) ==>
              TakeQuarantine(s, accepted, reason, index) == s.(tally := Value())
    {
      Quarantine(reason);
      if accepted {
        producerQuarantines := producerQuarantines + 1;
        if index.Some? {
          observed := observed + {index.value};
        } else {
          unidentified := unidentified + 1;
        }
      }
    }
  }

  /** The checks of `consume_record`, in order. */
  method RefusalOf(env: Env, p: Scope, m: seq<Member>) returns (refusal: Option<string>)
    ensures refusal == RecordReason(env, p, m)
  {
    refusal := ShapeReason(m);
    if refusal.Some? {
      return;
    }
    if OrEmpty(GetString(m, "profile_id")) != p.profile {
      return Some("profile-mismatch");
    }
    if OrEmpty(GetString(m, "workspace_id")) != p.workspace {
      return Some("workspace-mismatch");
    }
    refusal := CrossProfileReason(env, m, TargetOf(p));
    if refusal.Some? {
      return;
    }
    var safe := PolicySafeObject(env.accepts, m);
    if !safe {
      return Some("policy-denied");
    }
    if ExpectedKey(env, m) != KeyOf(m) {
      return Some("idempotency-key-mismatch");
    }
    return None;
  }

  /** Consumes one bounded export. */
  method RunReader(env: Env, reader: BufReader, p: Params) returns (response: Option<Response>)
    requires reader.Valid()
    modifies reader
    ensures response == Import(env, p, PccLines(old(reader.Rest())))
  {
    if !ValidParams(env, p) {
      return None;
    }
    var report := new Report();
    var seen, summaries, records, pending, eof := ReadLines(env, reader, p.scope, report, p.seen);
    var concluded := ConcludeReport(p, report, seen, summaries, records, pending, eof);
    response := Some(concluded);
  }

  method ReadLines(env: Env, reader: BufReader, p: Scope, report: Report, seen0: set<string>)
    returns (seen: set<string>, summaries: nat, records: nat, pending: Option<Option<string>>, eof: bool)
    requires reader.Valid()
    modifies reader, report
    ensures (State(report.Value(), seen, summaries, records, pending), eof)
         == Consume(ClassifyAll(env, p, PccLines(old(reader.Rest()))), 0, State(old(report.Value()), seen0, 0, 0, None))
  {
    seen, summaries, records, pending, eof := seen0, 0, 0, None, false;
    var lines := 0;
    ghost var kinds := ClassifyAll(env, p, PccLines(reader.Rest()));
    ghost var final := Consume(kinds, 0, State(report.Value(), seen, 0, 0, None));
    var running := true;
    while running
      invariant reader.Valid()
      invariant running ==> !eof && kinds == ClassifyAll(env, p, PccLines(reader.Rest()))
      invariant running ==> final == Consume(kinds, lines, State(report.Value(), seen, summaries, records, pending))
      invariant !running ==> final == (State(report.Value(), seen, summaries, records, pending), eof)
      decreases running, |reader.Rest()|
    {
      ghost var rest := PccLines(reader.Rest());
      if lines >= MAX_LINES {
        var extra := ReadPccLine(reader);
        if extra.Some? {
          report.Quarantine("input-limit");
        } else {
          eof := true;
        }
        running := false;
      } else {
        var line := ReadPccLine(reader);
        if line.None? {
          eof := true;
          running := false;
        } else {
          assert rest[0] == line.value && rest[1..] == PccLines(reader.Rest());
          assert kinds[0] == Classify(env, p, line.value) && kinds[1..] == ClassifyAll(env, p, rest[1..]);
          lines := lines + 1;
          var stop: bool;
          seen, summaries, records, pending, stop :=
            ConsumeLine(env, p, line.value, report, seen, summaries, records, pending);
          kinds := kinds[1..];
          running := !stop;
        }
      }
    }
  }

  method ConcludeReport(p: Params, report: Report, seen: set<string>, summaries: nat, records: nat,
        pending: Option<Option<string>>, eof: bool)
    returns (response: Response)
    modifies report
    ensures response == Conclude(p, State(old(report.Value()), seen, summaries, records, pending), eof)
  {
    if !eof || summaries != 1 || pending.None? {
      report.Quarantine("missing-summary");
    }
    var cursor := p.cursor;
    if eof && summaries == 1 && pending.Some? && report.quarantined == report.producerQuarantines {
      if pending.value.Some? && pending.value == p.cursor {
        report.Quarantine("cursor-unchanged");
      } else {
        cursor := pending.value;
      }
    }
    response := Respond(report.Value(), cursor);
  }

  method ConsumeLine(env: Env, p: Scope, line: seq<Byte>, report: Report,
        seen: set<string>, summaries: nat, records: nat,
                     pending: Option<Option<string>>)
    returns (seen': set<string>, summaries': nat, records': nat, pending': Option<Option<string>>, stop: bool)
    modifies report
    ensures (State(report.Value(), seen', summaries', records', pending'), stop)
         == Advance(State(old(report.Value()), seen, summaries, records, pending), Classify(env, p, line))
  {
    seen', summaries', records', pending', stop := seen, summaries, records, pending, false;
    if |line| > MAX_LINE_BYTES {
      report.Quarantine("line-too-large");
      stop := true;
      return;
    }
    match env.parse(line) {
      case InvalidUtf8 => report.Quarantine("invalid-utf8");
      case Blank =>
      case InvalidJson => report.Quarantine("invalid-json");
      case NotObject => report.Quarantine("record-invalid");
      case Document(m) =>
        if summaries > 0 {
          report.Quarantine(if GetString(m, "type") == Some("summary") then "duplicate-summary"
                            else "trailing-after-summary");
        } else if !ValidEnvelope(m) {
          report.Quarantine("schema-unsupported");
        } else if GetString(m, "type") == Some("record") {
          var refusal := RefusalOf(env, p, m);
          seen', records', stop :=
            CountRecord(report, seen, summaries, records, pending, SegmentDigest(m, "ciphertext_sha256"),
                        refusal, OrEmpty(KeyOf(m)));
        } else if GetString(m, "type") == Some("quarantine") {
          var (accepted, reason) := QuarantineReason(env, p, m);
          var index := DigestField(m, "index_key");
          if index.None? {
            index := DigestField(m, "ciphertext_sha256");
          }
          report.ConsumeQuarantine(accepted, reason, index);
        } else if GetString(m, "type") == Some("summary") {
          summaries' := summaries + 1;
          match SummaryVerdict(ClaimOf(env, m), report.Value()) {
            case Refused(reason) => report.Quarantine(reason);
            case Announced(next) => pending' := Some(next);
          }
        } else {
          report.Quarantine("record-type-unsupported");
        }
    }
  }

  method CountRecord(report: Report, seen: set<string>, summaries: nat, records: nat, pending: Option<Option<string>>,
                     index: Option<string>, refusal: Option<string>, key: string)
    returns (seen': set<string>, records': nat, stop: bool)
    modifies report
    ensures (State(report.Value(), seen', summaries, records', pending), stop)
         == TakeRecord(State(old(report.Value()), seen, summaries, records, pending), index, refusal, key)
  {
    seen', stop := seen, false;
    records' := records + 1;
    report.recordsSeen := report.recordsSeen + 1;
    if index.Some? {
      report.observed := report.observed + {index.value};
    }
    if records' > MAX_RECORDS {
      report.Quarantine("record-limit");
      stop := true;
      return;
    }
    seen' := report.ImportOrSkip(refusal, key, seen);
  }
}
