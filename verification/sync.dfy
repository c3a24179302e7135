/** The apply path of the local sync (`src/ingest.rs`, `run_sync`) over the source and record tables. */
module Sync {
  import opened Basics

  /** A chunk after screening: `hash` is the content hash, `identity` the type, scope and content it digests. */
  datatype Piece = Denied | Accepted(hash: string, identity: string)

  /** A file after the checks that look at nothing but the file: refused whole, or ready with its source hash. */
  datatype File = Refused | Ready(path: string, hash: string, pieces: seq<Piece>)

  datatype Source = Source(path: string, hash: string)

  datatype Record = Record(path: Option<string>, hash: string, identity: string, archived: bool, current: bool)

  datatype Tables = Tables(sources: seq<Source>, records: seq<Record>)

  datatype Counts = Counts(proposed: nat, created: nat, updated: nat, skipped: nat, rejected: nat)

  const NOTHING := Counts(0, 0, 0, 0, 0)

  // ---- the store operations

  /** `upsert_record` finds a record by its hash, archived or not, or an active current one with the same content. */
  predicate Finds(r: Record, p: Piece)
    requires p.Accepted?
  {
    r.hash == p.hash || (r.identity == p.identity && !r.archived && r.current)
  }

  predicate Known(records: seq<Record>, p: Piece)
    requires p.Accepted?
  {
    exists i :: 0 <= i < |records| && Finds(records[i], p)
  }

  predicate ActiveAt(r: Record, path: string) {
    r.path == Some(path) && !r.archived
  }

  predicate HasActive(records: seq<Record>, path: string) {
    exists i :: 0 <= i < |records| && ActiveAt(records[i], path)
  }

  predicate Stale(r: Record, path: string, keep: seq<string>) {
    ActiveAt(r, path) && r.hash !in keep
  }

  function Archived(records: seq<Record>, path: string, keep: seq<string>): (r: seq<Record>)
    ensures |r| == |records|
  {
    seq(|records|, i requires 0 <= i < |records| =>
      if Stale(records[i], path, keep) then records[i].(archived := true) else records[i])
  }

  function StaleCount(records: seq<Record>, path: string, keep: seq<string>, n: nat): nat
    requires n <= |records|
  {
    if n == 0 then 0 else StaleCount(records, path, keep, n - 1) + if Stale(records[n - 1], path, keep) then 1 else 0
  }

  // ---- what one run does

  datatype Writing = Writing(records: seq<Record>, kept: seq<string>, created: nat, skipped: nat, rejected: nat)

  /** After the first n chunks of a file. */
  function Written(records: seq<Record>, path: string, pieces: seq<Piece>, n: nat): Writing
    requires n <= |pieces|
  {
    if n == 0 then Writing(records, [], 0, 0, 0)
    else
      var w := Written(records, path, pieces, n - 1);
      var p := pieces[n - 1];
      if p.Denied? then w.(rejected := w.rejected + 1)
      else if Known(w.records, p) then w.(kept := w.kept + [p.hash], skipped := w.skipped + 1)
      else Writing(w.records + [Record(Some(path), p.hash, p.identity, false, true)], w.kept + [p.hash],
                   w.created + 1, w.skipped, w.rejected)
  }

  function AppliedFile(t: Tables, c: Counts, f: File): (Tables, Counts) {
    match f
    case Refused => (t, c.(rejected := c.rejected + 1))
    case Ready(path, hash, pieces) =>
      var proposed := c.proposed + |pieces|;
      if Source(path, hash) in t.sources then (t, c.(proposed := proposed, skipped := c.skipped + |pieces|))
      else
        var w := Written(t.records, path, pieces, |pieces|);
        var had := HasActive(t.records, path);
        var stale := if had then StaleCount(w.records, path, w.kept, |w.records|) else 0;
        (Tables(t.sources + [Source(path, hash)], if had then Archived(w.records, path, w.kept) else w.records),
         Counts(proposed, c.created + w.created, c.updated + stale, c.skipped + w.skipped, c.rejected + w.rejected))
  }

  function Applied(t: Tables, files: seq<File>, n: nat): (Tables, Counts)
    requires n <= |files|
  {
    if n == 0 then (t, NOTHING)
    else
      var before := Applied(t, files, n - 1);
      AppliedFile(before.0, before.1, files[n - 1])
  }

  function Run(t: Tables, files: seq<File>): (Tables, Counts) {
    Applied(t, files, |files|)
  }

  class Store {
    var sources: seq<Source>
    var records: seq<Record>

    function Now(): Tables
      reads this
    {
      Tables(sources, records)
    }

    method UpsertSource(path: string, hash: string) returns (created: bool)
      modifies this`sources
      ensures created == (Source(path, hash) !in old(sources))
      ensures sources == if created then old(sources) + [Source(path, hash)] else old(sources)
    {
      created := Source(path, hash) !in sources;
      if created {
        sources := sources + [Source(path, hash)];
      }
    }

    method UpsertRecord(path: string, p: Piece) returns (created: bool)
      requires p.Accepted?
      modifies this`records
      ensures created == !Known(old(records), p)
      ensures records == if created then old(records) + [Record(Some(path), p.hash, p.identity, false, true)]
                         else old(records)
    {
      for i := 0 to |records|
        invariant records == old(records) && forall k :: 0 <= k < i ==> !Finds(records[k], p)
      {
        if Finds(records[i], p) {
          return false;
        }
      }
      records := records + [Record(Some(path), p.hash, p.identity, false, true)];
      return true;
    }

    method ArchiveStalePathRecords(path: string, keep: seq<string>) returns (archived: nat)
      modifies this`records
      ensures records == Archived(old(records), path, keep)
      ensures archived == StaleCount(old(records), path, keep, |old(records)|)
    {
      archived := 0;
      ghost var before := records;
      for i := 0 to |records|
        invariant |records| == |before| && archived == StaleCount(before, path, keep, i)
        invariant forall k :: 0 <= k < i ==> records[k] == Archived(before, path, keep)[k]
        invariant forall k :: i <= k < |records| ==> records[k] == before[k]
      {
        if ActiveAt(records[i], path) && records[i].hash !in keep {
          records := records[i := records[i].(archived := true)];
          archived := archived + 1;
        }
      }
    }

    /** The chunk loop of one file. */
    method WriteChunks(path: string, pieces: seq<Piece>)
      returns (kept: seq<string>, created: nat, skipped: nat, rejected: nat)
      modifies this`records
      ensures Written(old(records), path, pieces, |pieces|) == Writing(records, kept, created, skipped, rejected)
    {
      kept, created, skipped, rejected := [], 0, 0, 0;
      for i := 0 to |pieces|
        invariant Written(old(records), path, pieces, i) == Writing(records, kept, created, skipped, rejected)
      {
        if pieces[i].Denied? {
          rejected := rejected + 1;
          continue;
        }
        kept := kept + [pieces[i].hash];
        var isNew := UpsertRecord(path, pieces[i]);
        if isNew {
          created := created + 1;
        } else {
          skipped := skipped + 1;
        }
      }
    }

    /** The body of the file loop, for a file that was not refused. */
    method ApplyFile(path: string, hash: string, pieces: seq<Piece>, c: Counts) returns (d: Counts)
      modifies this
      ensures (Now(), d) == AppliedFile(old(Now()), c, Ready(path, hash, pieces))
    {
      var alreadyImported := Source(path, hash) in sources;
      d := c.(proposed := c.proposed + |pieces|);
      var sourceCreated := UpsertSource(path, hash);
      if alreadyImported && !sourceCreated {
        d := d.(skipped := d.skipped + |pieces|);
        return;
      }
      var pathHadRecords := HasActive(records, path);
      var kept, created, skipped, rejected := WriteChunks(path, pieces);
      d := d.(created := d.created + created, skipped := d.skipped + skipped, rejected := d.rejected + rejected);
      if pathHadRecords {
        var archived := ArchiveStalePathRecords(path, kept);
        d := d.(updated := d.updated + archived);
      }
    }

    method RunSync(files: seq<File>) returns (c: Counts)
      modifies this
      ensures (Now(), c) == Run(old(Now()), files)
    {
      c := NOTHING;
      for i := 0 to |files|
        invariant Applied(old(Now()), files, i) == (Now(), c)
      {
        match files[i]
        case Refused => c := c.(rejected := c.rejected + 1);
        case Ready(path, hash, pieces) => c := ApplyFile(path, hash, pieces, c);
      }
    }
  }

  // ---- accounting

  function RefusedCount(files: seq<File>, n: nat): nat
    requires n <= |files|
  {
    if n == 0 then 0 else RefusedCount(files, n - 1) + if files[n - 1].Refused? then 1 else 0
  }

  lemma {:induction false} WrittenAccounts(records: seq<Record>, path: string, pieces: seq<Piece>, n: nat)
    requires n <= |pieces|
    ensures var w := Written(records, path, pieces, n);
            w.created + w.skipped + w.rejected == n && records <= w.records && |w.records| == |records| + w.created
  {
    if n > 0 {
      WrittenAccounts(records, path, pieces, n - 1);
    }
  }

  /** Every proposed chunk is created, skipped or rejected, and nothing else is counted but files refused whole. */
  lemma {:induction false} EveryChunkCounted(t: Tables, files: seq<File>, n: nat)
    requires n <= |files|
    ensures var c := Applied(t, files, n).1;
            && c.created + c.skipped + c.rejected == c.proposed + RefusedCount(files, n)
            && |Applied(t, files, n).0.records| == |t.records| + c.created
  {
    if n > 0 {
      EveryChunkCounted(t, files, n - 1);
      var before := Applied(t, files, n - 1).0;
      if files[n - 1].Ready? {
        WrittenAccounts(before.records, files[n - 1].path, files[n - 1].pieces, |files[n - 1].pieces|);
      }
    }
  }

  // ---- the fixpoint

  /** Every usable file of the batch has its source row. */
  predicate Imported(t: Tables, files: seq<File>, n: nat)
    requires n <= |files|
  {
    forall i :: 0 <= i < n && files[i].Ready? ==> Source(files[i].path, files[i].hash) in t.sources
  }

  lemma {:induction false} RunImports(t: Tables, files: seq<File>, n: nat)
    requires n <= |files|
    ensures Imported(Applied(t, files, n).0, files, n) && t.sources <= Applied(t, files, n).0.sources
  {
    if n > 0 {
      RunImports(t, files, n - 1);
    }
  }

  lemma {:induction false} ImportedIsSkipped(t: Tables, files: seq<File>, n: nat)
    requires n <= |files| && Imported(t, files, |files|)
    ensures var (after, c) := Applied(t, files, n);
            after == t && c.created == 0 && c.updated == 0 && c.skipped == c.proposed
            && c.rejected == RefusedCount(files, n)
  {
    if n > 0 {
      ImportedIsSkipped(t, files, n - 1);
    }
  }

  /** Applying a batch again, after any further batches, changes no table: nothing is created or updated, every
      proposed chunk is skipped, only the files refused whole are rejected again. */
  lemma ApplyIsIdempotent(t: Tables, files: seq<File>, between: seq<File>)
    ensures var later := Run(Run(t, files).0, between).0;
            var (after, c) := Run(later, files);
            after == later && c.created == 0 && c.updated == 0 && c.skipped == c.proposed
            && c.rejected == RefusedCount(files, |files|)
  {
    var first := Run(t, files).0;
    var later := Run(first, between).0;
    RunImports(t, files, |files|);
    RunImports(first, between, |between|);
    forall i | 0 <= i < |files| && files[i].Ready? ensures Source(files[i].path, files[i].hash) in later.sources {
      assert Source(files[i].path, files[i].hash) in first.sources;
    }
    ImportedIsSkipped(later, files, |files|);
  }

  // ---- what a run changes

  function ArchivedUpTo(records: seq<Record>, n: nat): nat
    requires n <= |records|
  {
    if n == 0 then 0 else ArchivedUpTo(records, n - 1) + if records[n - 1].archived then 1 else 0
  }

  lemma {:induction false} ArchivedOfPrefix(records: seq<Record>, more: seq<Record>, n: nat)
    requires n <= |records| && records <= more
    ensures ArchivedUpTo(more, n) == ArchivedUpTo(records, n)
  {
    if n > 0 {
      ArchivedOfPrefix(records, more, n - 1);
      assert more[n - 1] == records[n - 1];
    }
  }

  lemma {:induction false} ArchivingCounts(records: seq<Record>, path: string, keep: seq<string>, n: nat)
    requires n <= |records|
    ensures ArchivedUpTo(Archived(records, path, keep), n) ==
            ArchivedUpTo(records, n) + StaleCount(records, path, keep, n)
  {
    if n > 0 {
      ArchivingCounts(records, path, keep, n - 1);
    }
  }

  lemma {:induction false} WritingArchivesNothing(records: seq<Record>, path: string, pieces: seq<Piece>, n: nat)
    requires n <= |pieces|
    ensures var w := Written(records, path, pieces, n);
            ArchivedUpTo(w.records, |w.records|) == ArchivedUpTo(records, |records|)
  {
    if n > 0 {
      var before, after := Written(records, path, pieces, n - 1), Written(records, path, pieces, n);
      WritingArchivesNothing(records, path, pieces, n - 1);
      ArchivedOfPrefix(before.records, after.records, |before.records|);
    }
  }

  lemma FileArchives(t: Tables, c: Counts, f: File)
    ensures var (after, d) := AppliedFile(t, c, f);
            ArchivedUpTo(after.records, |after.records|) - d.updated == ArchivedUpTo(t.records, |t.records|) - c.updated
  {
    if f.Ready? {
      var w := Written(t.records, f.path, f.pieces, |f.pieces|);
      WritingArchivesNothing(t.records, f.path, f.pieces, |f.pieces|);
      ArchivingCounts(w.records, f.path, w.kept, |w.records|);
    }
  }

  /** The updated count of a run is the number of records it archives. */
  lemma {:induction false} UpdatedAreArchived(t: Tables, files: seq<File>, n: nat)
    requires n <= |files|
    ensures var (after, c) := Applied(t, files, n);
            ArchivedUpTo(after.records, |after.records|) == ArchivedUpTo(t.records, |t.records|) + c.updated
  {
    if n > 0 {
      UpdatedAreArchived(t, files, n - 1);
      FileArchives(Applied(t, files, n - 1).0, Applied(t, files, n - 1).1, files[n - 1]);
    }
  }

  /** The file is of the path of an active record, without its chunk. */
  predicate Replaces(f: File, r: Record) {
    f.Ready? && r.path == Some(f.path) && !r.archived && r.hash !in HashesOf(f.pieces, |f.pieces|)
  }

  predicate ReplacedBy(files: seq<File>, n: nat, r: Record)
    requires n <= |files|
  {
    exists k :: 0 <= k < n && Replaces(files[k], r)
  }

  lemma FileKeepsRecord(t: Tables, c: Counts, f: File, i: nat)
    requires i < |t.records|
    ensures var (after, r) := (AppliedFile(t, c, f).0.records, t.records[i]);
            i < |after| && (after[i] == r || (Replaces(f, r) && after[i] == r.(archived := true)))
  {
    if f.Ready? {
      WrittenIsFresh(t.records, f.path, f.pieces, |f.pieces|);
    }
  }

  /** A run leaves every record in its place and as it was, but that it archives active records of a path that the
      batch holds in a version without their chunk; in particular no record of a path outside the batch changes. */
  lemma {:induction false} RunKeepsRecord(t: Tables, files: seq<File>, n: nat, i: nat)
    requires n <= |files| && i < |t.records|
    ensures var (after, r) := (Applied(t, files, n).0.records, t.records[i]);
            i < |after| && (after[i] == r || (ReplacedBy(files, n, r) && after[i] == r.(archived := true)))
  {
    if n > 0 {
      var before := Applied(t, files, n - 1);
      RunKeepsRecord(t, files, n - 1, i);
      FileKeepsRecord(before.0, before.1, files[n - 1], i);
    }
  }

  /** A record of the file's path that carries one of its accepted chunks. */
  predicate CutFrom(r: Record, f: File) {
    f.Ready? && exists k :: 0 <= k < |f.pieces| && Carries(r, f.path, f.pieces[k])
  }

  predicate Carries(r: Record, path: string, p: Piece) {
    p.Accepted? && r.path == Some(path) && r.hash == p.hash && r.identity == p.identity && r.current
  }

  predicate CutFromOne(r: Record, files: seq<File>, n: nat)
    requires n <= |files|
  {
    exists m :: 0 <= m < n && CutFrom(r, files[m])
  }

  lemma FileAddsItsChunks(t: Tables, c: Counts, f: File, i: nat)
    requires |t.records| <= i < |AppliedFile(t, c, f).0.records|
    ensures CutFrom(AppliedFile(t, c, f).0.records[i], f)
  {
    var more := Written(t.records, f.path, f.pieces, |f.pieces|).records;
    AddedAreNew(t.records, f.path, f.pieces, |f.pieces|, i);
    var k :| 0 <= k < |f.pieces| && MadeFrom(more[i], t.records, f.path, f.pieces[k]);
    assert Carries(AppliedFile(t, c, f).0.records[i], f.path, f.pieces[k]);
  }

  /** Every record a run adds carries an accepted chunk of a file of the batch, under that file's path. */
  lemma {:induction false} AddedComeFromBatch(t: Tables, files: seq<File>, n: nat, i: nat)
    requires n <= |files| && |t.records| <= i < |Applied(t, files, n).0.records|
    ensures CutFromOne(Applied(t, files, n).0.records[i], files, n)
  {
    if n > 0 {
      var before := Applied(t, files, n - 1);
      if i < |before.0.records| {
        AddedComeFromBatch(t, files, n - 1, i);
        FileKeepsRecord(before.0, before.1, files[n - 1], i);
        var m :| 0 <= m < n - 1 && CutFrom(before.0.records[i], files[m]);
        StillCutFrom(before.0.records[i], Applied(t, files, n).0.records[i], files[m]);
      } else {
        FileAddsItsChunks(before.0, before.1, files[n - 1], i);
      }
    }
  }

  lemma StillCutFrom(r: Record, s: Record, f: File)
    requires CutFrom(r, f) && (s == r || s == r.(archived := true))
    ensures CutFrom(s, f)
  {
    var k :| 0 <= k < |f.pieces| && Carries(r, f.path, f.pieces[k]);
    assert Carries(s, f.path, f.pieces[k]);
  }

  // ---- what a path holds afterwards

  function HashesOf(pieces: seq<Piece>, n: nat): seq<string>
    requires n <= |pieces|
  {
    if n == 0 then []
    else HashesOf(pieces, n - 1) + if pieces[n - 1].Accepted? then [pieces[n - 1].hash] else []
  }

  /** Every active record of the file's path carries the hash of one of its accepted chunks. */
  ghost predicate PathIsFresh(records: seq<Record>, f: File)
    requires f.Ready?
  {
    forall i :: 0 <= i < |records| && ActiveAt(records[i], f.path) ==> records[i].hash in HashesOf(f.pieces, |f.pieces|)
  }

  lemma {:induction false} WrittenIsFresh(records: seq<Record>, path: string, pieces: seq<Piece>, n: nat)
    requires n <= |pieces|
    ensures var w := Written(records, path, pieces, n);
            && w.kept == HashesOf(pieces, n) && records <= w.records
            && forall i :: |records| <= i < |w.records| ==> w.records[i].hash in w.kept
  {
    if n > 0 {
      WrittenIsFresh(records, path, pieces, n - 1);
    }
  }

  lemma FreshParts(records: seq<Record>, more: seq<Record>, f: File)
    requires f.Ready? && records <= more && PathIsFresh(records, f)
    requires forall i :: |records| <= i < |more| ==> more[i].hash in HashesOf(f.pieces, |f.pieces|)
    ensures PathIsFresh(more, f)
  {
    assert forall i :: 0 <= i < |records| ==> more[i] == records[i];
  }

  /** After applying a usable file its path holds only chunks of that version, except when this exact version had been
      imported before: then it is as fresh or stale as it was. */
  lemma FreshUnlessImported(t: Tables, c: Counts, f: File)
    requires f.Ready?
    ensures PathIsFresh(AppliedFile(t, c, f).0.records, f) <==>
            Source(f.path, f.hash) !in t.sources || PathIsFresh(t.records, f)
  {
    if Source(f.path, f.hash) !in t.sources {
      var w := Written(t.records, f.path, f.pieces, |f.pieces|);
      WrittenIsFresh(t.records, f.path, f.pieces, |f.pieces|);
      if HasActive(t.records, f.path) {
        assert PathIsFresh(Archived(w.records, f.path, w.kept), f);
      } else {
        FreshParts(t.records, w.records, f);
      }
    }
  }

  // ---- whether the version just applied is the one the store answers with

  /** A record that is not archived carries the chunk. */
  predicate Carried(records: seq<Record>, p: Piece)
    requires p.Accepted?
  {
    exists i :: 0 <= i < |records| && Finds(records[i], p) && !records[i].archived
  }

  ghost predicate ChunksActive(records: seq<Record>, f: File)
    requires f.Ready?
  {
    forall k :: 0 <= k < |f.pieces| && f.pieces[k].Accepted? ==> Carried(records, f.pieces[k])
  }

  /** A content hash is computed from the identity, so equal identities have equal hashes. */
  ghost predicate Digests(pieces: seq<Piece>) {
    forall k, m :: 0 <= k < |pieces| && 0 <= m < |pieces| ==> HashedAlike(pieces[k], pieces[m])
  }

  predicate HashedAlike(p: Piece, q: Piece) {
    p.Accepted? && q.Accepted? && p.identity == q.identity ==> p.hash == q.hash
  }

  predicate Survives(r: Record, f: File, p: Piece)
    requires f.Ready? && p.Accepted?
  {
    Finds(r, p) && !r.archived && !Stale(r, f.path, HashesOf(f.pieces, |f.pieces|))
  }

  predicate NewHere(records: seq<Record>, q: Piece, p: Piece)
    requires p.Accepted?
  {
    q.Accepted? && q.hash == p.hash && !Known(records, q)
  }

  /** What the tables must hold before the call for a chunk to be carried after it: an active record
      that the call does not archive, or no record at all that passes for a chunk of its hash. */
  ghost predicate WillBeCarried(records: seq<Record>, f: File, p: Piece)
    requires f.Ready? && p.Accepted?
  {
    || (exists i :: 0 <= i < |records| && Survives(records[i], f, p))
    || (exists k :: 0 <= k < |f.pieces| && NewHere(records, f.pieces[k], p))
  }

  function RecordOf(path: string, p: Piece): Record
    requires p.Accepted?
  {
    Record(Some(path), p.hash, p.identity, false, true)
  }

  predicate MadeFrom(r: Record, records: seq<Record>, path: string, p: Piece) {
    p.Accepted? && r == RecordOf(path, p) && !Known(records, p)
  }

  ghost predicate MadeFromOne(r: Record, records: seq<Record>, path: string, pieces: seq<Piece>, n: nat)
    requires n <= |pieces|
  {
    exists k :: 0 <= k < n && MadeFrom(r, records, path, pieces[k])
  }

  /** Every record the chunk loop adds is made from a chunk no record passed for. */
  lemma {:induction false} AddedAreNew(records: seq<Record>, path: string, pieces: seq<Piece>, n: nat, i: nat)
    requires n <= |pieces| && |records| <= i < |Written(records, path, pieces, n).records|
    ensures MadeFromOne(Written(records, path, pieces, n).records[i], records, path, pieces, n)
  {
    WrittenIsFresh(records, path, pieces, n);
    if n > 0 {
      var before := Written(records, path, pieces, n - 1).records;
      WrittenIsFresh(records, path, pieces, n - 1);
      if i < |before| {
        AddedAreNew(records, path, pieces, n - 1, i);
      } else {
        KnownEarlier(records, before, pieces[n - 1]);
        assert MadeFrom(Written(records, path, pieces, n).records[i], records, path, pieces[n - 1]);
      }
    }
  }

  lemma KnownEarlier(records: seq<Record>, more: seq<Record>, p: Piece)
    requires p.Accepted? && records <= more
    ensures Known(records, p) ==> Known(more, p)
  {
    forall i | 0 <= i < |records| ensures more[i] == records[i] {
    }
  }

  lemma FoundEarlier(records: seq<Record>, more: seq<Record>, p: Piece, i: nat)
    requires p.Accepted? && records <= more && i < |more| && Finds(more[i], p)
    ensures i < |records| ==> Known(records, p)
  {
    if i < |records| {
      assert records[i] == more[i];
    }
  }

  predicate AddedHash(records: seq<Record>, more: seq<Record>, hash: string) {
    exists i :: |records| <= i < |more| && more[i].hash == hash
  }

  /** A chunk no record passed for leaves a record with its hash, made from it or from one like it. */
  lemma {:induction false} NewIsAdded(records: seq<Record>, path: string, pieces: seq<Piece>, n: nat, k: nat)
    requires k < n <= |pieces| && Digests(pieces) && pieces[k].Accepted? && !Known(records, pieces[k])
    ensures AddedHash(records, Written(records, path, pieces, n).records, pieces[k].hash)
  {
    var before, after := Written(records, path, pieces, n - 1).records, Written(records, path, pieces, n).records;
    WrittenIsFresh(records, path, pieces, n - 1);
    if k < n - 1 {
      NewIsAdded(records, path, pieces, n - 1, k);
      var i :| |records| <= i < |before| && before[i].hash == pieces[k].hash;
      assert after[i] == before[i];
    } else if Known(before, pieces[k]) {
      var i :| 0 <= i < |before| && Finds(before[i], pieces[k]);
      FoundEarlier(records, before, pieces[k], i);
      AddedAreNew(records, path, pieces, n - 1, i);
      assert after[i] == before[i];
    } else {
      assert after[|before|].hash == pieces[k].hash;
    }
  }

  /** A record after the call: archived if it was stale, otherwise as the chunk loop left it. */
  lemma AfterAt(t: Tables, c: Counts, f: File, i: nat)
    requires f.Ready? && Source(f.path, f.hash) !in t.sources
    requires i < |Written(t.records, f.path, f.pieces, |f.pieces|).records|
    ensures var w := Written(t.records, f.path, f.pieces, |f.pieces|);
            var after := AppliedFile(t, c, f).0.records;
            && |after| == |w.records| && w.kept == HashesOf(f.pieces, |f.pieces|)
            && after[i] == if Stale(w.records[i], f.path, w.kept) then w.records[i].(archived := true) else w.records[i]
  {
    var w := Written(t.records, f.path, f.pieces, |f.pieces|);
    WrittenIsFresh(t.records, f.path, f.pieces, |f.pieces|);
    if !HasActive(t.records, f.path) && i < |t.records| {
      assert w.records[i] == t.records[i] && !ActiveAt(t.records[i], f.path);
    }
  }

  lemma CarriedIffSurvives(t: Tables, c: Counts, f: File, p: Piece)
    requires f.Ready? && Source(f.path, f.hash) !in t.sources && p.Accepted?
    ensures var more := Written(t.records, f.path, f.pieces, |f.pieces|).records;
            Carried(AppliedFile(t, c, f).0.records, p) <==> exists i :: 0 <= i < |more| && Survives(more[i], f, p)
  {
    var more := Written(t.records, f.path, f.pieces, |f.pieces|).records;
    var after := AppliedFile(t, c, f).0.records;
    WrittenIsFresh(t.records, f.path, f.pieces, |f.pieces|);
    forall i | 0 <= i < |more|
      ensures |after| == |more| && (Finds(after[i], p) && !after[i].archived <==> Survives(more[i], f, p))
    {
      AfterAt(t, c, f, i);
    }
    if more == [] {
      assert after == [];
    }
  }

  lemma SurvivesIff(records: seq<Record>, f: File, p: Piece, more: seq<Record>)
    requires f.Ready? && Digests(f.pieces) && p in f.pieces && p.Accepted?
    requires more == Written(records, f.path, f.pieces, |f.pieces|).records
    ensures (exists i :: 0 <= i < |more| && Survives(more[i], f, p)) <==> WillBeCarried(records, f, p)
  {
    WrittenIsFresh(records, f.path, f.pieces, |f.pieces|);
    forall i | 0 <= i < |more| && Survives(more[i], f, p) ensures WillBeCarried(records, f, p) {
      if i < |records| {
        assert more[i] == records[i];
      } else {
        AddedAreNew(records, f.path, f.pieces, |f.pieces|, i);
        var k :| 0 <= k < |f.pieces| && MadeFrom(more[i], records, f.path, f.pieces[k]);
        assert NewHere(records, f.pieces[k], p);
      }
    }
    forall i | 0 <= i < |records| && Survives(records[i], f, p) ensures Survives(more[i], f, p) {
      assert more[i] == records[i];
    }
    forall k | 0 <= k < |f.pieces| && NewHere(records, f.pieces[k], p)
      ensures exists i :: 0 <= i < |more| && Survives(more[i], f, p)
    {
      NewIsAdded(records, f.path, f.pieces, |f.pieces|, k);
      var i :| |records| <= i < |more| && more[i].hash == p.hash;
      AddedAreNew(records, f.path, f.pieces, |f.pieces|, i);
      assert Survives(more[i], f, p);
    }
  }

  /** After a version that was not imported before is applied, one of its chunks is carried by an active record
      if and only if an active record for it survives the call or no record passed for a chunk of its hash. */
  lemma CarriedIff(t: Tables, c: Counts, f: File, p: Piece)
    requires f.Ready? && Source(f.path, f.hash) !in t.sources && Digests(f.pieces) && p in f.pieces && p.Accepted?
    ensures Carried(AppliedFile(t, c, f).0.records, p) <==> WillBeCarried(t.records, f, p)
  {
    CarriedIffSurvives(t, c, f, p);
    SurvivesIff(t.records, f, p, Written(t.records, f.path, f.pieces, |f.pieces|).records);
  }

  /** The store answers with this version: the path holds nothing else and every chunk is carried. */
  ghost predicate IsCurrent(records: seq<Record>, f: File)
    requires f.Ready?
  {
    PathIsFresh(records, f) && ChunksActive(records, f)
  }

  /** The exact condition under which applying a file makes its version the current one. */
  lemma CurrentIff(t: Tables, c: Counts, f: File)
    requires f.Ready? && Digests(f.pieces)
    ensures IsCurrent(AppliedFile(t, c, f).0.records, f) <==>
            if Source(f.path, f.hash) in t.sources then IsCurrent(t.records, f)
            else forall k :: 0 <= k < |f.pieces| && f.pieces[k].Accepted? ==> WillBeCarried(t.records, f, f.pieces[k])
  {
    FreshUnlessImported(t, c, f);
    if Source(f.path, f.hash) !in t.sources {
      forall k | 0 <= k < |f.pieces| && f.pieces[k].Accepted?
        ensures Carried(AppliedFile(t, c, f).0.records, f.pieces[k]) <==> WillBeCarried(t.records, f, f.pieces[k])
      {
        CarriedIff(t, c, f, f.pieces[k]);
      }
    }
  }

  const OLD_FILE := Ready("notes.md", "v1", [Accepted("a", "A")])
  const NEW_FILE := Ready("notes.md", "v2", [Accepted("b", "B")])

  const OLD_RECORD := Record(Some("notes.md"), "a", "A", false, true)
  const NEW_RECORD := Record(Some("notes.md"), "b", "B", false, true)
  const AFTER_OLD := Tables([Source("notes.md", "v1")], [OLD_RECORD])
  const AFTER_NEW :=
    Tables([Source("notes.md", "v1"), Source("notes.md", "v2")], [OLD_RECORD.(archived := true), NEW_RECORD])

  lemma OneFile(t: Tables, f: File)
    ensures Run(t, [f]) == AppliedFile(t, NOTHING, f)
  {
    assert Applied(t, [f], 0) == (t, NOTHING);
  }

  lemma FirstFile(t: Tables, path: string, hash: string, p: Piece)
    requires t.sources == [] && t.records == [] && p.Accepted?
    ensures AppliedFile(t, NOTHING, Ready(path, hash, [p])).0 ==
            Tables([Source(path, hash)], [Record(Some(path), p.hash, p.identity, false, true)])
  {
    assert Written(t.records, path, [p], 0) == Writing([], [], 0, 0, 0);
    assert !Known(t.records, p) && !HasActive(t.records, path);
    assert Written(t.records, path, [p], 1).records == [Record(Some(path), p.hash, p.identity, false, true)];
  }

  lemma FirstSync()
    ensures Run(Tables([], []), [OLD_FILE]).0 == AFTER_OLD
  {
    var t := Tables([], []);
    OneFile(t, OLD_FILE);
    FirstFile(t, "notes.md", "v1", Accepted("a", "A"));
  }

  lemma SecondSync()
    ensures Run(AFTER_OLD, [NEW_FILE]).0 == AFTER_NEW
  {
    OneFile(AFTER_OLD, NEW_FILE);
    assert "a" != "b" && "A" != "B" && "v1" != "v2";
    assert Written([OLD_RECORD], "notes.md", NEW_FILE.pieces, 0).records == [OLD_RECORD];
    var w := Written([OLD_RECORD], "notes.md", NEW_FILE.pieces, 1);
    assert w.records == [OLD_RECORD, NEW_RECORD] && w.kept == ["b"];
    assert ActiveAt([OLD_RECORD][0], "notes.md");
    assert Archived(w.records, "notes.md", ["b"]) == AFTER_NEW.records;
  }

  lemma ThirdSync()
    ensures Run(AFTER_NEW, [OLD_FILE]).0 == AFTER_NEW
  {
    OneFile(AFTER_NEW, OLD_FILE);
    assert AFTER_NEW.sources[0] == Source("notes.md", "v1");
  }

  /** Bringing an earlier version of a file back is not noticed: its record stays archived and the later version's
      record stays active. */
  lemma RevertIsIgnored()
    ensures Run(Run(Run(Tables([], []), [OLD_FILE]).0, [NEW_FILE]).0, [OLD_FILE]).0 == AFTER_NEW
    ensures !PathIsFresh(AFTER_NEW.records, OLD_FILE)
  {
    FirstSync();
    SecondSync();
    ThirdSync();
    assert "a" != "b";
    assert HashesOf(OLD_FILE.pieces, 0) == [];
    assert ActiveAt(AFTER_NEW.records[1], "notes.md") && AFTER_NEW.records[1].hash !in HashesOf(OLD_FILE.pieces, 1);
  }

  const THIRD_FILE := Ready("notes.md", "v3", [Accepted("a", "A"), Accepted("b", "B")])

  lemma OldChunkIsDropped()
    ensures !WillBeCarried(AFTER_NEW.records, THIRD_FILE, Accepted("a", "A"))
  {
    assert "a" != "b" && "A" != "B";
    assert Finds(AFTER_NEW.records[0], Accepted("a", "A"));
  }

  /** A third version that brings an archived chunk back is imported, and its path holds nothing else, but no active
      record carries that chunk. */
  lemma BroughtBackChunkStaysArchived()
    ensures Source("notes.md", "v3") !in AFTER_NEW.sources
    ensures PathIsFresh(Run(AFTER_NEW, [THIRD_FILE]).0.records, THIRD_FILE)
    ensures !Carried(Run(AFTER_NEW, [THIRD_FILE]).0.records, Accepted("a", "A"))
  {
    assert "a" != "b" && "A" != "B" && "v3" != "v1" && "v3" != "v2";
    OneFile(AFTER_NEW, THIRD_FILE);
    FreshUnlessImported(AFTER_NEW, NOTHING, THIRD_FILE);
    OldChunkIsDropped();
    assert THIRD_FILE.pieces[0] == Accepted("a", "A");
    CarriedIff(AFTER_NEW, NOTHING, THIRD_FILE, Accepted("a", "A"));
  }
}
