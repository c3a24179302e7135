/** The apply path of the ChatGPT importer (`src/chatgpt_export_import.rs`) as a crash protocol: rows are staged in a
    transaction, the pending manifest is written inside it, the transaction commits, the manifest is renamed into
    place.  A run may fail or the process may die at any step. */
module Manifest {
  import opened Basics

  /** A message that passed selection and screening; `ref` identifies its source row and its turn row. */
  datatype Message = Message(ref: string, content: string)

  datatype Db = Db(sources: seq<string>, turns: seq<Message>)

  /** Every turn row was inserted together with its source row. */
  ghost predicate ValidDb(db: Db) {
    forall t :: t in db.turns ==> t.ref in db.sources
  }

  datatype Export = Export(payload: string, selected: seq<string>, messages: seq<Message>, rejected: nat)

  datatype ManifestDoc = ManifestDoc(batch: Export, at: int, created: nat, skippedExisting: nat)

  datatype File = Torn | Whole(doc: ManifestDoc)

  /** What survives a crash.  `committed` is history: the manifest of each run whose transaction committed. */
  datatype Disk = Disk(db: Db, pending: Option<File>, published: Option<File>, committed: seq<ManifestDoc>)

  datatype Point = Staging(k: nat) | Creating | Writing | Syncing | AfterPending | Committing | Renaming

  /** Where a run goes wrong, whether the process dies there, whether the step had its effect all the same, and
      whether removing the pending file works if it comes to that. */
  datatype Fault = NoFault | Fault(point: Point, crash: bool, landed: bool, removable: bool)

  datatype Outcome = Finalized | Pending | Refused | Died

  predicate Hits(f: Fault, p: Point) {
    f.Fault? && f.point == p
  }

  // ---- staging

  datatype Staged = Staged(db: Db, created: nat, skipped: nat)

  function HasTurn(db: Db, ref: string): bool {
    exists i :: 0 <= i < |db.turns| && db.turns[i].ref == ref
  }

  /** The first n messages, in order; None when a turn row is in the way. */
  function StagedBy(db: Db, messages: seq<Message>, n: nat): Option<Staged>
    requires n <= |messages|
  {
    if n == 0 then Some(Staged(db, 0, 0))
    else
      var before := StagedBy(db, messages, n - 1);
      var m := messages[n - 1];
      if before.None? then None
      else
        var s := before.value;
        if m.ref in s.db.sources then Some(s.(skipped := s.skipped + 1))
        else if HasTurn(s.db, m.ref) then None
        else Some(Staged(Db(s.db.sources + [m.ref], s.db.turns + [m]), s.created + 1, s.skipped))
  }

  function StagingStops(f: Fault, messages: seq<Message>): bool {
    f.Fault? && f.point.Staging? && f.point.k < |messages|
  }

  // ---- one run

  function Cleaned(d: Disk, f: Fault): (Disk, Outcome)
    requires f.Fault?
  {
    if f.crash then (d, Died) else (if f.removable then d.(pending := None) else d, Refused)
  }

  function Renamed(d: Disk): Disk {
    d.(pending := None, published := d.pending)
  }

  function AfterRun(d: Disk, e: Export, at: int, f: Fault): (Disk, Outcome) {
    var staged := StagedBy(d.db, e.messages, |e.messages|);
    if StagingStops(f, e.messages) then (d, if f.crash then Died else Refused)
    else if staged.None? then (d, Refused)
    else
      var doc := ManifestDoc(e, at, staged.value.created, staged.value.skipped);
      var whole := Some(Whole(doc));
      if Hits(f, Creating) then Cleaned(d.(pending := if f.landed then Some(Torn) else d.pending), f)
      else if Hits(f, Writing) || Hits(f, Syncing) then
        Cleaned(d.(pending := if f.landed then whole else Some(Torn)), f)
      else if Hits(f, AfterPending) || (Hits(f, Committing) && !(f.crash && f.landed)) then
        Cleaned(d.(pending := whole), f)
      else
        var durable := Disk(staged.value.db, whole, d.published, d.committed + [doc]);
        if Hits(f, Committing) then (durable, Died)
        else if Hits(f, Renaming) then
          (if f.crash then (if f.landed then Renamed(durable) else durable, Died) else (durable, Pending))
        else (Renamed(durable), Finalized)
  }

  /** The files and the database as the importer changes them. */
  class Importer {
    var db: Db
    var pending: Option<File>
    var published: Option<File>
    ghost var committed: seq<ManifestDoc>

    ghost function OnDisk(): Disk
      reads this
    {
      Disk(db, pending, published, committed)
    }

    constructor (ghost d: Disk, db: Db, pending: Option<File>, published: Option<File>)
      requires d.db == db && d.pending == pending && d.published == published
      ensures OnDisk() == d
    {
      this.db, this.pending, this.published, this.committed := db, pending, published, d.committed;
    }

    /** The transaction body up to the manifest; a failure or a crash leaves the database as it was. */
    method StageMessages(messages: seq<Message>, f: Fault) returns (staged: Option<Staged>)
      ensures staged == if StagingStops(f, messages) then None else StagedBy(db, messages, |messages|)
    {
      var s := Staged(db, 0, 0);
      var i := 0;
      while i < |messages|
        invariant 0 <= i <= |messages| && StagedBy(db, messages, i) == Some(s)
        invariant StagingStops(f, messages) ==> i <= f.point.k
      {
        if f.Fault? && f.point == Staging(i) {
          return None;
        }
        var m := messages[i];
        if m.ref in s.db.sources {
          s := s.(skipped := s.skipped + 1);
        } else {
          if HasTurn(s.db, m.ref) {
            StagingFails(db, messages, i + 1);
            return None;
          }
          s := Staged(Db(s.db.sources + [m.ref], s.db.turns + [m]), s.created + 1, s.skipped);
        }
        i := i + 1;
      }
      return Some(s);
    }

    /** Create (truncating), write, sync. */
    method WritePendingManifest(doc: ManifestDoc, f: Fault) returns (ok: bool)
      modifies this`pending
      ensures ok <==> !Hits(f, Creating) && !Hits(f, Writing) && !Hits(f, Syncing)
      ensures pending == if Hits(f, Creating) && !f.landed then old(pending)
                         else if !ok && (Hits(f, Creating) || !f.landed) then Some(Torn)
                         else Some(Whole(doc))
    {
      if f.Fault? && f.point == Creating {
        if f.landed {
          pending := Some(Torn);
        }
        return false;
      }
      pending := Some(Torn);
      if f.Fault? && f.point == Writing {
        if f.landed {
          pending := Some(Whole(doc));
        }
        return false;
      }
      pending := Some(Whole(doc));
      if f.Fault? && f.point == Syncing {
        if !f.landed {
          pending := Some(Torn);
        }
        return false;
      }
      return true;
    }

    method FinalizePendingManifest(f: Fault) returns (ok: bool)
      modifies this`pending, this`published
      ensures ok <==> !Hits(f, Renaming)
      ensures if Hits(f, Renaming) && !(f.crash && f.landed) then pending == old(pending) && published == old(published)
              else pending == None && published == old(pending)
    {
      if f.Fault? && f.point == Renaming && !(f.crash && f.landed) {
        return false;
      }
      published := pending;
      pending := None;
      return !(f.Fault? && f.point == Renaming);
    }

    method Apply(e: Export, at: int, f: Fault) returns (outcome: Outcome)
      modifies this
      ensures (OnDisk(), outcome) == AfterRun(old(OnDisk()), e, at, f)
    {
      var staged := StageMessages(e.messages, f);
      if staged.None? {
        return if StagingStops(f, e.messages) && f.crash then Died else Refused;
      }
      var doc := ManifestDoc(e, at, staged.value.created, staged.value.skipped);
      var written := WritePendingManifest(doc, f);
      if !written || (f.Fault? && (f.point == AfterPending || (f.point == Committing && !(f.crash && f.landed)))) {
        if f.crash {
          return Died;
        }
        if f.removable {
          pending := None;
        }
        return Refused;
      }
      db := staged.value.db;
      committed := committed + [doc];
      if f.Fault? && f.point == Committing {
        return Died;
      }
      var finalized := FinalizePendingManifest(f);
      if finalized {
        return Finalized;
      }
      return if f.crash then Died else Pending;
    }
  }

  lemma {:induction false} StagingFails(db: Db, messages: seq<Message>, n: nat)
    requires n <= |messages| && StagedBy(db, messages, n).None?
    ensures StagedBy(db, messages, |messages|).None?
    decreases |messages| - n
  {
    if n < |messages| {
      StagingFails(db, messages, n + 1);
    }
  }

  // ---- what staging does

  /** What n staged messages amount to: every message has its source row, nothing is lost, each message was created or
      skipped, and the rows grow by exactly what was created. */
  lemma {:induction false} StagingKeeps(db: Db, messages: seq<Message>, n: nat)
    requires n <= |messages| && ValidDb(db)
    ensures StagedBy(db, messages, n).Some?
    ensures var s := StagedBy(db, messages, n).value;
            && ValidDb(s.db) && db.sources <= s.db.sources && db.turns <= s.db.turns
            && s.created + s.skipped == n
            && |s.db.sources| == |db.sources| + s.created && |s.db.turns| == |db.turns| + s.created
            && forall i :: 0 <= i < n ==> messages[i].ref in s.db.sources
  {
    if n > 0 {
      StagingKeeps(db, messages, n - 1);
      var s := StagedBy(db, messages, n - 1).value;
      var m := messages[n - 1];
      assert HasTurn(s.db, m.ref) ==> m.ref in s.db.sources;
    }
  }

  /** Messages that all have their source row already add nothing. */
  lemma {:induction false} StagingAgain(db: Db, messages: seq<Message>, n: nat)
    requires n <= |messages| && Present(db, messages)
    ensures StagedBy(db, messages, n) == Some(Staged(db, 0, n))
  {
    if n > 0 {
      StagingAgain(db, messages, n - 1);
    }
  }

  predicate Present(db: Db, messages: seq<Message>) {
    forall i :: 0 <= i < |messages| ==> messages[i].ref in db.sources
  }

  // ---- which rows staging creates

  /** Message i is the first with its reference, and no earlier import brought it. */
  predicate IsNew(db: Db, messages: seq<Message>, i: nat)
    requires i < |messages|
  {
    messages[i].ref !in db.sources && forall j :: 0 <= j < i ==> messages[j].ref != messages[i].ref
  }

  /** The new ones among the first n messages, in order. */
  function NewMessages(db: Db, messages: seq<Message>, n: nat): (added: seq<Message>)
    requires n <= |messages|
    ensures |added| <= n
  {
    if n == 0 then []
    else
      var before := NewMessages(db, messages, n - 1);
      if IsNew(db, messages, n - 1) then before + [messages[n - 1]] else before
  }

  function RefsOf(messages: seq<Message>): (refs: seq<string>)
    ensures |refs| == |messages|
  {
    seq(|messages|, i requires 0 <= i < |messages| => messages[i].ref)
  }

  lemma {:induction false} NewRefs(db: Db, messages: seq<Message>, n: nat, ref: string)
    requires n <= |messages|
    ensures ref in db.sources + RefsOf(NewMessages(db, messages, n)) <==>
              ref in db.sources || exists i :: 0 <= i < n && messages[i].ref == ref
  {
    if n > 0 {
      NewRefs(db, messages, n - 1, ref);
      var before, m := NewMessages(db, messages, n - 1), messages[n - 1];
      assert RefsOf(before + [m]) == RefsOf(before) + [m.ref];
      if ref == m.ref && !IsNew(db, messages, n - 1) && ref !in db.sources {
        var j :| 0 <= j < n - 1 && messages[j].ref == ref;
      }
    }
  }

  lemma RefsOfSnoc(front: seq<Message>, m: Message)
    ensures RefsOf(front + [m]) == RefsOf(front) + [m.ref]
  {
  }

  function StagedNext(s: Staged, m: Message): Staged {
    if m.ref in s.db.sources then s.(skipped := s.skipped + 1)
    else Staged(Db(s.db.sources + [m.ref], s.db.turns + [m]), s.created + 1, s.skipped)
  }

  lemma StagedStep(db: Db, messages: seq<Message>, n: nat, s: Staged)
    requires n < |messages| && StagedBy(db, messages, n) == Some(s) && ValidDb(s.db)
    ensures StagedBy(db, messages, n + 1) == Some(StagedNext(s, messages[n]))
  {
    assert HasTurn(s.db, messages[n].ref) ==> messages[n].ref in s.db.sources;
  }

  /** The database with some messages added, one source and one turn row each. */
  function With(db: Db, added: seq<Message>): Db {
    Db(db.sources + RefsOf(added), db.turns + added)
  }

  lemma WithSnoc(db: Db, front: seq<Message>, m: Message)
    ensures With(db, front + [m]) == Db(With(db, front).sources + [m.ref], With(db, front).turns + [m])
  {
    RefsOfSnoc(front, m);
    assert db.sources + (RefsOf(front) + [m.ref]) == (db.sources + RefsOf(front)) + [m.ref];
    assert db.turns + (front + [m]) == (db.turns + front) + [m];
  }

  lemma OneMore(db: Db, before: seq<Message>, m: Message, skipped: nat)
    ensures StagedNext(Staged(With(db, before), |before|, skipped), m)
         == if m.ref in With(db, before).sources then Staged(With(db, before), |before|, skipped + 1)
            else Staged(With(db, before + [m]), |before| + 1, skipped)
  {
    WithSnoc(db, before, m);
  }

  lemma WithValid(db: Db, added: seq<Message>)
    requires ValidDb(db)
    ensures ValidDb(With(db, added))
  {
    forall t | t in With(db, added).turns ensures t.ref in With(db, added).sources {
      if t in added {
        var i :| 0 <= i < |added| && added[i] == t;
        assert RefsOf(added)[i] == t.ref;
      }
    }
  }

  lemma NewIffUnknown(db: Db, messages: seq<Message>, n: nat)
    requires n < |messages|
    ensures IsNew(db, messages, n) <==> messages[n].ref !in With(db, NewMessages(db, messages, n)).sources
  {
    NewRefs(db, messages, n, messages[n].ref);
  }

  ghost predicate Creates(db: Db, staged: Option<Staged>, added: seq<Message>, n: nat) {
    |added| <= n && staged == Some(Staged(With(db, added), |added|, n - |added|))
  }

  lemma CreatesNext(db: Db, messages: seq<Message>, n: nat, before: seq<Message>)
    requires n < |messages| && ValidDb(db) && before == NewMessages(db, messages, n)
    requires Creates(db, StagedBy(db, messages, n), before, n)
    ensures Creates(db, StagedBy(db, messages, n + 1),
                    if IsNew(db, messages, n) then before + [messages[n]] else before, n + 1)
  {
    WithValid(db, before);
    StagedStep(db, messages, n, Staged(With(db, before), |before|, n - |before|));
    NewIffUnknown(db, messages, n);
    OneMore(db, before, messages[n], n - |before|);
  }

  /** Staging adds the new messages themselves, one source and one turn row each, in order, and skips the others. */
  lemma {:induction false} StagingCreates(db: Db, messages: seq<Message>, n: nat)
    requires n <= |messages| && ValidDb(db)
    ensures Creates(db, StagedBy(db, messages, n), NewMessages(db, messages, n), n)
  {
    if n == 0 {
      assert With(db, []) == db;
    } else {
      StagingCreates(db, messages, n - 1);
      CreatesNext(db, messages, n - 1, NewMessages(db, messages, n - 1));
    }
  }

  // ---- what every run keeps

  ghost predicate Good(d: Disk) {
    && ValidDb(d.db)
    && (d.published.Some? ==> d.published.value.Whole? && d.published.value.doc in d.committed)
  }

  /** Whether a run's transaction committed. */
  predicate Commits(d: Disk, e: Export, at: int, f: Fault) {
    |AfterRun(d, e, at, f).0.committed| > |d.committed|
  }

  lemma NothingStagedKeeps(d: Disk, e: Export, at: int, f: Fault)
    requires StagingStops(f, e.messages)
    ensures AfterRun(d, e, at, f).0 == d && AfterRun(d, e, at, f).1 in {Refused, Died}
  {
  }

  /** Once everything is staged a run either commits what was staged or leaves all but the pending file as it was. */
  lemma StagedRun(d: Disk, e: Export, at: int, f: Fault, s: Staged)
    requires StagedBy(d.db, e.messages, |e.messages|) == Some(s) && !StagingStops(f, e.messages)
    ensures var doc := ManifestDoc(e, at, s.created, s.skipped);
            var (after, outcome) := AfterRun(d, e, at, f);
            if after.committed == d.committed then
              after.db == d.db && after.published == d.published && outcome in {Refused, Died}
            else
              && after.db == s.db && after.committed == d.committed + [doc] && outcome in {Finalized, Pending, Died}
              && (after.published == d.published || after.published == Some(Whole(doc)))
  {
  }

  /** One run, whatever goes wrong in it: the published manifest stays that of a committed run, rows change only by
      committing, and then all messages of the export have their rows. */
  lemma RunKeepsGood(d: Disk, e: Export, at: int, f: Fault)
    requires Good(d)
    ensures var after := AfterRun(d, e, at, f).0;
            && Good(after) && d.db.sources <= after.db.sources && d.committed <= after.committed
            && (if Commits(d, e, at, f) then Present(after.db, e.messages)
                else after.db == d.db && after.published == d.published && after.committed == d.committed)
    ensures AfterRun(d, e, at, f).1 in {Finalized, Pending} ==> Commits(d, e, at, f)
    ensures AfterRun(d, e, at, f).1 == Refused ==> !Commits(d, e, at, f)
  {
    StagingKeeps(d.db, e.messages, |e.messages|);
    if StagingStops(f, e.messages) {
      NothingStagedKeeps(d, e, at, f);
    } else {
      StagedRun(d, e, at, f, StagedBy(d.db, e.messages, |e.messages|).value);
    }
  }

  /** The manifest a run of this export over this disk writes: the export, and how many messages were new. */
  function OwnManifest(d: Disk, e: Export, at: int): ManifestDoc {
    var created := |NewMessages(d.db, e.messages, |e.messages|)|;
    ManifestDoc(e, at, created, |e.messages| - created)
  }

  /** What each outcome leaves behind.  Finalized: the rows of the new messages and the run's own manifest, published,
      with nothing pending.  Pending: the same rows, and the manifest pending.  Died: one of these, or nothing but the
      pending file touched.  Refused: rows and the published manifest as they were, and nothing pending if it could be
      removed. */
  lemma OutcomeMeans(d: Disk, e: Export, at: int, f: Fault)
    requires Good(d)
    ensures var (after, outcome) := AfterRun(d, e, at, f);
            var added := NewMessages(d.db, e.messages, |e.messages|);
            var doc := OwnManifest(d, e, at);
            var rows := With(d.db, added);
            && (outcome == Finalized ==> after == Disk(rows, None, Some(Whole(doc)), d.committed + [doc]))
            && (outcome == Pending ==> after == Disk(rows, Some(Whole(doc)), d.published, d.committed + [doc]))
            && (outcome == Refused ==>
                  && after == d.(pending := after.pending)
                  && (after.pending == d.pending || after.pending == None || !f.removable))
            && (outcome == Died ==>
                  || after == d.(pending := after.pending)
                  || after == Disk(rows, Some(Whole(doc)), d.published, d.committed + [doc])
                  || after == Disk(rows, None, Some(Whole(doc)), d.committed + [doc]))
  {
    StagingCreates(d.db, e.messages, |e.messages|);
  }

  /** A run commits exactly when nothing goes wrong before the rename: no fault at all, one behind the last message,
      one at the rename, or a death at the commit after it took effect. */
  lemma CommitsIff(d: Disk, e: Export, at: int, f: Fault)
    requires Good(d)
    ensures Commits(d, e, at, f) <==>
              f == NoFault || (f.point.Staging? && f.point.k >= |e.messages|) || f.point == Renaming
              || (f.point == Committing && f.crash && f.landed)
  {
    StagingCreates(d.db, e.messages, |e.messages|);
  }

  /** A run in which nothing fails finalizes. */
  lemma FaultlessRunFinalizes(d: Disk, e: Export, at: int)
    requires Good(d)
    ensures AfterRun(d, e, at, NoFault).1 == Finalized
  {
    StagingCreates(d.db, e.messages, |e.messages|);
  }

  /** The fault takes effect: one during staging does only if it is at a message of the export. */
  predicate Strikes(e: Export, f: Fault) {
    f.Fault? && (f.point.Staging? ==> f.point.k < |e.messages|)
  }

  /** Which outcome a run has: it dies where the process does, is pending when only the rename fails, is refused when
      anything before it does, and finalizes otherwise. */
  lemma OutcomeIff(d: Disk, e: Export, at: int, f: Fault)
    requires Good(d)
    ensures var outcome := AfterRun(d, e, at, f).1;
            && (outcome == Died <==> Strikes(e, f) && f.crash)
            && (outcome == Pending <==> Strikes(e, f) && !f.crash && f.point == Renaming)
            && (outcome == Refused <==> Strikes(e, f) && !f.crash && f.point != Renaming)
            && (outcome == Finalized <==> !Strikes(e, f))
  {
    StagingCreates(d.db, e.messages, |e.messages|);
  }

  /** The pending file of a run that does not commit: untouched by staging; removed if the run lives and can remove it;
      otherwise what its creation, its writing or the failed commit left. */
  lemma PendingLeft(d: Disk, e: Export, at: int, f: Fault)
    requires Good(d) && f.Fault? && !Commits(d, e, at, f)
    ensures var pending := AfterRun(d, e, at, f).0.pending;
            var whole := Some(Whole(OwnManifest(d, e, at)));
            && (f.point.Staging? ==> pending == d.pending)
            && (!f.point.Staging? && !f.crash && f.removable ==> pending == None)
            && (f.crash || !f.removable ==>
                  && (f.point == Creating ==> pending == if f.landed then Some(Torn) else d.pending)
                  && (f.point == Writing || f.point == Syncing ==> pending == if f.landed then whole else Some(Torn))
                  && (f.point == AfterPending || f.point == Committing ==> pending == whole))
  {
    CommitsIff(d, e, at, f);
    StagingCreates(d.db, e.messages, |e.messages|);
  }

  datatype Run = Run(batch: Export, at: int, fault: Fault)

  /** Runs one after the other. */
  function AfterRuns(d: Disk, runs: seq<Run>): Disk {
    if runs == [] then d
    else
      var r := runs[|runs| - 1];
      AfterRun(AfterRuns(d, runs[..|runs| - 1]), r.batch, r.at, r.fault).0
  }

  /** Over any sequence of runs with any faults, a published manifest is always that of a run whose transaction
      committed. */
  lemma {:induction false} PublishedIsCommitted(d: Disk, runs: seq<Run>)
    requires Good(d)
    ensures Good(AfterRuns(d, runs)) && d.db.sources <= AfterRuns(d, runs).db.sources
  {
    if runs != [] {
      var r := runs[|runs| - 1];
      PublishedIsCommitted(d, runs[..|runs| - 1]);
      RunKeepsGood(AfterRuns(d, runs[..|runs| - 1]), r.batch, r.at, r.fault);
    }
  }

  /** Whatever runs went before, a run in which nothing fails publishes its own manifest and leaves nothing pending, and
      the manifests committed before it stay on record. */
  lemma LastRunPublishes(d: Disk, runs: seq<Run>, e: Export, at: int)
    requires Good(d)
    ensures var before, after := AfterRuns(d, runs), AfterRuns(d, runs + [Run(e, at, NoFault)]);
            && after.published == Some(Whole(OwnManifest(before, e, at))) && after.pending == None
            && after.committed == before.committed + [OwnManifest(before, e, at)] && d.committed <= before.committed
  {
    assert (runs + [Run(e, at, NoFault)])[..|runs|] == runs;
    PublishedIsCommitted(d, runs);
    OutcomeIff(AfterRuns(d, runs), e, at, NoFault);
    OutcomeMeans(AfterRuns(d, runs), e, at, NoFault);
    RecordStays(d, runs);
  }

  lemma {:induction false} RecordStays(d: Disk, runs: seq<Run>)
    ensures d.committed <= AfterRuns(d, runs).committed
  {
    if runs != [] {
      RecordStays(d, runs[..|runs| - 1]);
    }
  }

  /** Sources that are there stay there. */
  lemma PresentStays(before: Db, after: Db, messages: seq<Message>)
    requires Present(before, messages) && before.sources <= after.sources
    ensures Present(after, messages)
  {
    forall i | 0 <= i < |messages| ensures messages[i].ref in after.sources {
      assert messages[i].ref in before.sources;
    }
  }

  /** An export whose messages all have their rows adds nothing, and publishes its manifest if nothing fails. */
  lemma PresentRun(d: Disk, e: Export, at: int, f: Fault)
    requires Present(d.db, e.messages)
    ensures AfterRun(d, e, at, f).0.db == d.db
    ensures f == NoFault ==> AfterRun(d, e, at, f).0.published == Some(Whole(ManifestDoc(e, at, 0, |e.messages|)))
  {
    StagingAgain(d.db, e.messages, |e.messages|);
    if StagingStops(f, e.messages) {
      NothingStagedKeeps(d, e, at, f);
    } else {
      StagedRun(d, e, at, f, Staged(d.db, 0, |e.messages|));
    }
  }

  /** Rerunning a committed export later, whatever happened in between, adds no source or turn row wherever it fails,
      and when nothing fails it publishes its manifest, with nothing created and every message skipped. */
  lemma RerunPublishes(d: Disk, first: Run, between: seq<Run>, at: int, f: Fault)
    requires Good(d) && Commits(d, first.batch, first.at, first.fault)
    ensures var now := AfterRuns(AfterRun(d, first.batch, first.at, first.fault).0, between);
            var again := AfterRun(now, first.batch, at, f).0;
            && again.db == now.db
            && (f == NoFault ==>
                  again.published == Some(Whole(ManifestDoc(first.batch, at, 0, |first.batch.messages|))))
  {
    var e := first.batch;
    var d1 := AfterRun(d, e, first.at, first.fault).0;
    RunKeepsGood(d, e, first.at, first.fault);
    PublishedIsCommitted(d1, between);
    var now := AfterRuns(d1, between);
    PresentStays(d1.db, now.db, e.messages);
    PresentRun(now, e, at, f);
  }
}
