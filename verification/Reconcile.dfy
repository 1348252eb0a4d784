/**
 * Read-only reconciliation (src/backup/backup.reconciliation.ts): the cursor loop over all document
 * versions, what it reports on the states the protocol can reach, and how it agrees with the other
 * two observers.
 */
module Reconcile {
  import opened Wrappers
  import opened Tables
  import opened Protocol
  import opened Safety
  import opened Monitor

  const PAGE_SIZE := 100

  datatype Version = Version(id: string, fileUrl: string, uploadedAt: int)

  /** What the world answers while one version is examined: the clock, and the source HEAD. */
  datatype Head = Present | Gone | Unreadable
  datatype Observation = Observation(now: int, head: Head)

  datatype Report = Report(
    missingRequests: nat,
    overdueRequests: nat,
    invalidVerifiedMetadata: nat,
    missingSources: nat,
    sourceCheckFailures: nat,
    conflictingGenerations: nat)

  datatype Stopped = ReconciliationStopped

  // ----- one version -----

  ghost function Lookup(db: Database, bucket: string, vid: string): (found: Option<Id>)
    ensures found.Some? ==> found.value in db.requests && IsFor(db.requests[found.value], bucket, vid)
  {
    if exists id :: id in db.requests && IsFor(db.requests[id], bucket, vid)
    then var id :| id in db.requests && IsFor(db.requests[id], bucket, vid); Some(id)
    else None
  }

  /** What is found is a request of this bucket for a document version, and for this one. */
  lemma FoundIsDocument(db: Database, bucket: string, vid: string)
    ensures Lookup(db, bucket, vid).Some? ==>
      && Lookup(db, bucket, vid).value in db.requests
      && var source := db.requests[Lookup(db, bucket, vid).value].source;
         source.sourceBucket == bucket && source.referenceType == "DOCUMENT_VERSION" && source.referenceId == vid
  {
  }

  lemma LookupIs(db: Database, bucket: string, vid: string, id: Id)
    requires UniqueReferences(db) && id in db.requests && IsFor(db.requests[id], bucket, vid)
    ensures Lookup(db, bucket, vid) == Some(id)
  {
  }

  method FindUnique(db: Database, bucket: string, vid: string) returns (found: Option<Id>)
    requires UniqueReferences(db)
    ensures found == Lookup(db, bucket, vid)
  {
    if exists id | id in db.requests :: IsFor(db.requests[id], bucket, vid) {
      var id :| id in db.requests && IsFor(db.requests[id], bucket, vid);
      LookupIs(db, bucket, vid, id);
      return Some(id);
    }
    return None;
  }

  function VerifiedGens(db: Database, id: Id): set<Id> {
    set g | g in db.generations && db.generations[g].requestId == id && db.generations[g].verifiedAt.Some?
  }

  /** The `complete` filter; an empty string is falsy, and the two keys never are. */
  predicate CompleteMetadata(g: Generation) {
    && g.sha256.Some? && IsHex64(g.sha256.value) && g.observedSize.Some?
    && g.sourceETag.Some? && g.sourceETag.value != ""
  }

  function CompleteGens(db: Database, id: Id): set<Id> {
    set g | g in VerifiedGens(db, id) && CompleteMetadata(db.generations[g])
  }

  function DistinctHashes(db: Database, id: Id): set<Option<string>> {
    set g | g in VerifiedGens(db, id) :: db.generations[g].sha256
  }

  predicate Matching(db: Database, found: Option<Id>, v: Version) {
    found.Some? && found.value in db.requests && db.requests[found.value].source.sourceKey == v.fileUrl
  }

  predicate NeedsCheck(db: Database, found: Option<Id>, v: Version) {
    !Matching(db, found, v) || !db.requests[found.value].state.Verified? || CompleteGens(db, found.value) == {}
  }

  /** What one version adds to the report. */
  function Findings(db: Database, found: Option<Id>, v: Version, o: Observation): Report
    requires found.Some? ==> found.value in db.requests
  {
    var matching := Matching(db, found, v);
    var check := NeedsCheck(db, found, v);
    Report(
      One(!matching),
      One(check && o.now - v.uploadedAt > OVERDUE_MS),
      One(found.Some? && db.requests[found.value].state.Verified? &&
          (!matching || CompleteGens(db, found.value) == {} ||
           |CompleteGens(db, found.value)| != |VerifiedGens(db, found.value)|)),
      One(check && o.head.Gone?),
      One(check && o.head.Unreadable?),
      One(found.Some? && |DistinctHashes(db, found.value)| > 1))
  }

  /**
   * What the two columns about generations say of any table whatever: a VERIFIED request names another
   * object, has no verified generation or an incomplete one; and two verified generations have different
   * digests.
   */
  lemma GenerationColumns(db: Database, id: Id, v: Version, o: Observation)
    requires id in db.requests
    ensures Findings(db, Some(id), v, o).invalidVerifiedMetadata == One(
      && db.requests[id].state == Verified
      && (|| db.requests[id].source.sourceKey != v.fileUrl
          || VerifiedGens(db, id) == {}
          || exists g :: g in VerifiedGens(db, id) && !CompleteMetadata(db.generations[g])))
    ensures Findings(db, Some(id), v, o).conflictingGenerations == One(
      exists g, h :: g in VerifiedGens(db, id) && h in VerifiedGens(db, id)
                     && db.generations[g].sha256 != db.generations[h].sha256)
  {
    CompleteOrNot(db, id);
    HashesDiffer(db, id);
    hide VerifiedGens, CompleteGens, DistinctHashes, CompleteMetadata;
  }

  lemma HashesDiffer(db: Database, id: Id)
    ensures |DistinctHashes(db, id)| > 1 <==>
      exists g, h :: g in VerifiedGens(db, id) && h in VerifiedGens(db, id)
                     && db.generations[g].sha256 != db.generations[h].sha256
  {
    var verified, hashes := VerifiedGens(db, id), DistinctHashes(db, id);
    forall g | g in verified ensures db.generations[g].sha256 in hashes {}
    if |hashes| > 1 {
      var a :| a in hashes;
      assert |hashes - {a}| == |hashes| - 1;
      var b :| b in hashes - {a};
      var g :| g in verified && db.generations[g].sha256 == a;
      var h :| h in verified && db.generations[h].sha256 == b;
    }
    if g, h :| g in verified && h in verified && db.generations[g].sha256 != db.generations[h].sha256 {
      var two := {db.generations[g].sha256, db.generations[h].sha256};
      assert two <= hashes && |two| == 2;
      SubsetSize(two, hashes);
    }
  }

  lemma SubsetSize<T>(a: set<T>, b: set<T>)
    requires a <= b
    ensures |a| <= |b|
  {
    assert b == a + (b - a);
    assert |b| == |a| + |b - a|;
  }

  lemma CompleteOrNot(db: Database, id: Id)
    ensures CompleteGens(db, id) == {} || |CompleteGens(db, id)| != |VerifiedGens(db, id)| <==>
      VerifiedGens(db, id) == {} || exists g :: g in VerifiedGens(db, id) && !CompleteMetadata(db.generations[g])
  {
    var complete, verified := CompleteGens(db, id), VerifiedGens(db, id);
    assert complete <= verified;
    if g :| g in verified && g !in complete {
      SubsetSize(complete, verified - {g});
      assert |verified - {g}| == |verified| - 1;
    } else {
      assert complete == verified;
    }
  }

  function Plus(a: Report, b: Report): Report {
    Report(a.missingRequests + b.missingRequests, a.overdueRequests + b.overdueRequests,
           a.invalidVerifiedMetadata + b.invalidVerifiedMetadata, a.missingSources + b.missingSources,
           a.sourceCheckFailures + b.sourceCheckFailures, a.conflictingGenerations + b.conflictingGenerations)
  }

  const EMPTY := Report(0, 0, 0, 0, 0, 0)

  /** The reference report: one pass over the first n rows of the table, version by version. */
  ghost function OnePass(db: Database, bucket: string, table: seq<Version>, observe: nat -> Observation, n: nat): Report
    requires n <= |table|
  {
    if n == 0 then EMPTY
    else
      Plus(OnePass(db, bucket, table, observe, n - 1),
           Findings(db, Lookup(db, bucket, table[n - 1].id), table[n - 1], observe(n - 1)))
  }

  // ----- the cursor loop -----

  /** A primary key: distinct ids, none of them empty. */
  predicate ProperIds(table: seq<Version>) {
    && (forall i, j | 0 <= i < j < |table| :: table[i].id != table[j].id)
    && (forall i | 0 <= i < |table| :: table[i].id != "")
  }

  /** The cursor before position n: none at the start, otherwise the id of the row there. */
  predicate CursorAt(table: seq<Version>, cursor: Option<string>, n: nat) {
    n <= |table| && cursor == if n == 0 then None else Some(table[n - 1].id)
  }

  /**
   * `findMany` ordered by id, where `table` lists the rows in that order: the first hundred, or the
   * hundred after the row the cursor names.
   */
  method FindPage(table: seq<Version>, cursor: Option<string>, ghost n: nat) returns (page: seq<Version>)
    requires ProperIds(table) && CursorAt(table, cursor, n)
    ensures page == table[n..Upto(table, n)]
  {
    var start := 0;
    if cursor.Some? && cursor.value != "" {
      while table[start].id != cursor.value
        invariant start < n
        invariant forall i | 0 <= i < start :: table[i].id != cursor.value
        decreases |table| - start
      {
        start := start + 1;
      }
      start := start + 1;
    }
    page := table[start..Upto(table, start)];
  }

  function Upto(table: seq<Version>, start: nat): (end: nat)
    requires start <= |table|
    ensures start <= end <= |table|
  {
    if start + PAGE_SIZE <= |table| then start + PAGE_SIZE else |table|
  }

  /** The body of the loop: look the version's request up and add what it shows. */
  method Examine(db: Database, bucket: string, v: Version, o: Observation, before: Report) returns (report: Report)
    requires UniqueReferences(db)
    ensures report == Plus(before, Findings(db, Lookup(db, bucket, v.id), v, o))
  {
    var found := FindUnique(db, bucket, v.id);
    report := Plus(before, Findings(db, found, v, o));
  }

  /** So each version examined in turn takes the one-pass report one row further. */
  lemma OnePassStep(db: Database, bucket: string, table: seq<Version>, observe: nat -> Observation, n: nat,
                    v: Version, before: Report, report: Report)
    requires n < |table| && v == table[n] && before == OnePass(db, bucket, table, observe, n)
    requires report == Plus(before, Findings(db, Lookup(db, bucket, v.id), v, observe(n)))
    ensures report == OnePass(db, bucket, table, observe, n + 1)
  {
  }

  /** The first n times it asked whether to go on, the answer was yes. */
  ghost predicate Permitted(canContinue: nat -> bool, n: nat) {
    forall k: nat | k < n :: canContinue(k)
  }

  /** The inner loop: the versions of one page, asking before each whether to go on. */
  method ScanPage(db: Database, bucket: string, versions: seq<Version>, ghost table: seq<Version>, start: nat,
                  before: Report, asked: nat, observe: nat -> Observation, canContinue: nat -> bool)
    returns (result: Result<Report, Stopped>, n: nat)
    requires UniqueReferences(db)
    requires start + |versions| <= |table| && versions == table[start..start + |versions|]
    requires before == OnePass(db, bucket, table, observe, start) && Permitted(canContinue, asked + start)
    ensures start <= n <= start + |versions|
    ensures result.Ok? ==> n == start + |versions| && result.value == OnePass(db, bucket, table, observe, n)
    ensures result.Ok? ==> Permitted(canContinue, asked + n)
    ensures result.Err? ==> n < start + |versions| && !canContinue(asked + n)
  {
    var report := before;
    n := start;
    while n < start + |versions|
      invariant start <= n <= start + |versions|
      invariant Permitted(canContinue, asked + n)
      invariant report == OnePass(db, bucket, table, observe, n)
    {
      if !canContinue(asked + n) {
        return Err(ReconciliationStopped), n;
      }
      var v := versions[n - start];
      ghost var before := report;
      report := Examine(db, bucket, v, observe(n), report);
      OnePassStep(db, bucket, table, observe, n, v, before, report);
      n := n + 1;
    }
    result := Ok(report);
  }

  /**
   * Fetches one page and scans it.  `m` is where the scan stopped, `seen` the versions it examined, and
   * `next` the cursor for the page after, if this one was not empty.
   */
  method FetchAndScan(db: Database, bucket: string, table: seq<Version>, cursor: Option<string>, n: nat,
                      before: Report, asked: nat, observe: nat -> Observation, canContinue: nat -> bool)
    returns (result: Result<Report, Stopped>, seen: seq<Version>, m: nat, next: Option<string>)
    requires UniqueReferences(db) && ProperIds(table) && CursorAt(table, cursor, n)
    requires before == OnePass(db, bucket, table, observe, n) && Permitted(canContinue, asked + n)
    ensures n <= m <= Upto(table, n) && table[..n] + seen == table[..m]
    ensures result.Err? ==> m < Upto(table, n) && !canContinue(asked + m)
    ensures result.Ok? ==> m == Upto(table, n) && result.value == OnePass(db, bucket, table, observe, m)
    ensures result.Ok? ==> Permitted(canContinue, asked + m) && (next.Some? <==> n < m)
    ensures result.Ok? && next.Some? ==> CursorAt(table, next, m)
  {
    var versions := FindPage(table, cursor, n);
    result, m := ScanPage(db, bucket, versions, table, n, before, asked, observe, canContinue);
    seen := versions[..m - n];
    next := if |versions| == 0 then None else Some(versions[|versions| - 1].id);
    PageExtends(table, n, versions, m);
  }

  /** One turn of the outer loop: ask, fetch and scan.  `poll` is the question that was answered no, if one was. */
  method NextPage(db: Database, bucket: string, table: seq<Version>, cursor: Option<string>, n: nat,
                  before: Report, pages: nat, observe: nat -> Observation, canContinue: nat -> bool)
    returns (result: Result<Report, Stopped>, seen: seq<Version>, m: nat, next: Option<string>, ghost poll: nat)
    requires UniqueReferences(db) && ProperIds(table) && CursorAt(table, cursor, n)
    requires before == OnePass(db, bucket, table, observe, n) && Permitted(canContinue, pages + n)
    ensures n <= m <= Upto(table, n) && table[..n] + seen == table[..m]
    ensures result.Err? ==> poll <= pages + |table| && !canContinue(poll)
    ensures result.Ok? ==> m == Upto(table, n) && result.value == OnePass(db, bucket, table, observe, m)
    ensures result.Ok? ==> Permitted(canContinue, pages + 1 + m) && (next.Some? <==> n < m)
    ensures result.Ok? && next.Some? ==> CursorAt(table, next, m)
  {
    if canContinue(pages + n) {
      result, seen, m, next := FetchAndScan(db, bucket, table, cursor, n, before, pages + 1, observe, canContinue);
      poll := pages + 1 + m;
    } else {
      result, seen, m, next, poll := Err(ReconciliationStopped), [], n, None, pages + n;
    }
  }

  /** How many pages are asked for from position n on; the last one is empty. */
  function PagesFrom(n: nat, total: nat): (pages: nat)
    ensures pages >= 1
    decreases total - n
  {
    if n >= total then 1 else 1 + PagesFrom(n + PAGE_SIZE, total)
  }

  /** How often a complete pass over that many versions asks whether it may go on. */
  function Polls(total: nat): nat {
    total + PagesFrom(0, total)
  }

  lemma NextPageFrom(n: nat, total: nat)
    requires n < total
    ensures PagesFrom(n, total) == 1 + PagesFrom(if n + PAGE_SIZE <= total then n + PAGE_SIZE else total, total)
    ensures PagesFrom(n, total) >= 2
  {
  }

  /**
   * The pass visits every version exactly once, in id order, wherever the pages end; it completes if
   * and only if it is never told to stop at one of the moments it asks; and its report is then the
   * one-pass report.
   */
  method Run(db: Database, bucket: string, table: seq<Version>, observe: nat -> Observation, canContinue: nat -> bool)
    returns (result: Result<Report, Stopped>, visited: seq<Version>)
    requires UniqueReferences(db) && ProperIds(table)
    ensures visited <= table
    ensures result.Ok? <==> Permitted(canContinue, Polls(|table|))
    ensures result.Ok? ==> visited == table && result.value == OnePass(db, bucket, table, observe, |table|)
  {
    var report := EMPTY;
    var cursor: Option<string> := None;
    var pages, n := 0, 0;
    visited := [];
    while true
      invariant n <= |table| && visited == table[..n]
      invariant CursorAt(table, cursor, n)
      invariant pages + PagesFrom(n, |table|) == PagesFrom(0, |table|)
      invariant Permitted(canContinue, pages + n)
      invariant report == OnePass(db, bucket, table, observe, n)
      decreases |table| - n
    {
      var scanned, seen, m, next, poll :=
        NextPage(db, bucket, table, cursor, n, report, pages, observe, canContinue);
      visited := visited + seen;
      if scanned.Err? {
        assert poll < Polls(|table|);
        return Err(ReconciliationStopped), visited;
      }
      if next.None? {
        return Ok(report), visited;
      }
      NextPageFrom(n, |table|);
      report, cursor, pages, n := scanned.value, next, pages + 1, m;
    }
  }

  lemma PageExtends(table: seq<Version>, n: nat, page: seq<Version>, m: nat)
    requires n + |page| <= |table| && page == table[n..n + |page|] && n <= m <= n + |page|
    ensures table[..n] + page[..m - n] == table[..m]
    ensures n < m ==> page[m - n - 1] == table[m - 1]
  {
  }

  // ----- on the states the protocol can reach -----

  lemma StepKeepsUniqueReferences(cfg: Config, s: State, e: Event)
    requires Inv(cfg, s) && UniqueReferences(s.db)
    ensures UniqueReferences(Step(cfg, s, e).db)
  {
    if Enabled(cfg, s, e) && e.Act? {
      ActExtends(cfg, s, s.procs[e.w], e.a);
      assert NextDb(cfg, s, s.procs[e.w], e.a).requests.Keys == s.db.requests.Keys;
    }
  }

  /** The precondition of the pass is met by the tables of every reachable state. */
  lemma {:induction false} RunKeepsUniqueReferences(cfg: Config, run: seq<Event>)
    ensures UniqueReferences(After(cfg, INIT, run).db)
  {
    if run != [] {
      var front := run[..|run| - 1];
      RunKeepsUniqueReferences(cfg, front);
      RunKeepsInv(cfg, INIT, front);
      StepKeepsUniqueReferences(cfg, After(cfg, INIT, front), run[|run| - 1]);
    }
  }

  /** A VERIFIED request has complete metadata and one hash; any other has no verified generation at all. */
  lemma GensOfRequest(cfg: Config, s: State, id: Id)
    requires Reachable(cfg, s) && HexDigest(cfg) && id in s.db.requests
    ensures CompleteGens(s.db, id) == VerifiedGens(s.db, id)
    ensures s.db.requests[id].state.Verified? <==> VerifiedGens(s.db, id) != {}
    ensures |DistinctHashes(s.db, id)| <= 1
  {
    if s.db.requests[id].state.Verified? {
      var gid := VerifiedIsProtected(cfg, s, id);
      var g := s.db.generations[gid];
      assert IsHex64(cfg.digest(s.store[g.backupKey]));
      forall h | h in VerifiedGens(s.db, id) ensures h == gid { assert Evidences(s.db, id, h); }
      assert VerifiedGens(s.db, id) == {gid};
      assert CompleteGens(s.db, id) == {gid};
      assert DistinctHashes(s.db, id) == {g.sha256};
    } else {
      ReachableInv(cfg, s);
      forall h ensures h !in VerifiedGens(s.db, id) { CopyingHasNoEvidence(cfg, s, id, h); }
      assert VerifiedGens(s.db, id) == {};
      assert CompleteGens(s.db, id) == {};
      assert DistinctHashes(s.db, id) == {};
    }
  }

  // ----- the three observers -----

  /** A request of this version that also names its object: the LEFT JOIN of `backupMetrics`. */
  predicate Joined(db: Database, bucket: string, v: Version, id: Id) {
    id in db.requests && IsFor(db.requests[id], bucket, v.id) && db.requests[id].source.sourceKey == v.fileUrl
  }

  /** `protected` in the document query of `backupMetrics`: a joined VERIFIED request with a complete generation. */
  ghost predicate DocumentProtected(db: Database, bucket: string, v: Version) {
    exists id: Id, g: Id :: Joined(db, bucket, v, id) && db.requests[id].state.Verified?
                    && g in VerifiedGens(db, id) && CompleteHash(db.generations[g])
  }

  lemma JoinedIsFound(db: Database, bucket: string, v: Version)
    requires UniqueReferences(db)
    ensures var found := Lookup(db, bucket, v.id);
      && (Matching(db, found, v) ==> Joined(db, bucket, v, found.value))
      && forall id: Id | Joined(db, bucket, v, id) :: found == Some(id) && Matching(db, found, v)
  {
    forall id: Id | Joined(db, bucket, v, id) ensures Lookup(db, bucket, v.id) == Some(id) {
      LookupIs(db, bucket, v.id, id);
    }
  }

  /**
   * The reconciliation, the document metrics and the queue metrics see the same protection: the first
   * two agree outright, the third differs only on requests stamped before they were finalized.
   */
  lemma ObserversAgree(cfg: Config, s: State, v: Version)
    requires Reachable(cfg, s) && HexDigest(cfg)
    ensures var found := Lookup(s.db, cfg.bucket, v.id);
      && (DocumentProtected(s.db, cfg.bucket, v) <==> !NeedsCheck(s.db, found, v))
      && (Matching(s.db, found, v) ==>
          (Covered(s.db, found.value) <==>
           DocumentProtected(s.db, cfg.bucket, v) && StampedInTime(s.db, found.value)))
  {
    var found := Lookup(s.db, cfg.bucket, v.id);
    ReachableReferences(cfg, s);
    JoinedIsFound(s.db, cfg.bucket, v);
    if Matching(s.db, found, v) {
      GensOfRequest(cfg, s, found.value);
      CoveredIff(cfg, s, found.value);
      if VerifiedGens(s.db, found.value) != {} {
        var g :| g in CompleteGens(s.db, found.value);
        assert CompleteHash(s.db.generations[g]);
      }
    }
  }

  lemma ReachableReferences(cfg: Config, s: State)
    requires Reachable(cfg, s)
    ensures UniqueReferences(s.db)
  {
    var run :| s == After(cfg, INIT, run);
    RunKeepsUniqueReferences(cfg, run);
  }

  // ----- the reconciliation and the enqueueing meet -----

  /**
   * The row that `enqueueDocumentBackup` inserts for a version (`BackupDatabase.Enqueue`) is the one the
   * reconciliation finds for that version, and the version does not count as missing.
   */
  lemma EnqueuedIsFound(db: Database, id: Id, bucket: string, versionId: string, fileUrl: string, fileSize: int,
                        uploadedAt: int, now: int, o: Observation)
    requires UniqueReferences(db) && id !in db.requests
    requires forall other | other in db.requests :: !IsFor(db.requests[other], bucket, versionId)
    ensures
      var source := Source(bucket, fileUrl, "DOCUMENT_VERSION", versionId, Some(fileSize), uploadedAt);
      var after := db.(requests := db.requests[id := NewRequest(source, now)]);
      var v := Version(versionId, fileUrl, uploadedAt);
      && Lookup(after, bucket, versionId) == Some(id) && Matching(after, Some(id), v)
      && Findings(after, Some(id), v, o).missingRequests == 0
  {
    var source := Source(bucket, fileUrl, "DOCUMENT_VERSION", versionId, Some(fileSize), uploadedAt);
    var after := db.(requests := db.requests[id := NewRequest(source, now)]);
    assert after.requests[id].source == source;
    assert IsFor(after.requests[id], bucket, versionId);
  }

  /**
   * And whatever happens afterwards, it is found again: the version never counts as missing, and once its
   * request is VERIFIED it adds nothing to the report at all.
   */
  lemma EnqueuedStaysFound(cfg: Config, s: State, run: seq<Event>, id: Id, v: Version, o: Observation)
    requires Reachable(cfg, s) && id in s.db.requests
    requires var source := s.db.requests[id].source;
      && source.sourceBucket == cfg.bucket && source.sourceKey == v.fileUrl
      && source.referenceType == "DOCUMENT_VERSION" && source.referenceId == v.id
    ensures var db := After(cfg, s, run).db;
      && id in db.requests && Lookup(db, cfg.bucket, v.id) == Some(id)
      && Findings(db, Some(id), v, o).missingRequests == 0
      && (HexDigest(cfg) && db.requests[id].state.Verified? ==> Findings(db, Some(id), v, o) == EMPTY)
  {
    var t := After(cfg, s, run);
    ReachableInv(cfg, s);
    RunExtends(cfg, s, run);
    ReachableAfter(cfg, s, run);
    ReachableReferences(cfg, t);
    hide Inv, After, Reachable, Leads, HexDigest;
    assert IsFor(t.db.requests[id], cfg.bucket, v.id);
    LookupIs(t.db, cfg.bucket, v.id, id);
    if HexDigest(cfg) && t.db.requests[id].state.Verified? { GensOfRequest(cfg, t, id); }
  }

  // ----- what the report means -----

  /** The rows, by position, that each column is meant to count, said without the request that was looked up. */
  ghost function Unrequested(db: Database, bucket: string, table: seq<Version>, n: nat): set<nat>
    requires n <= |table|
  {
    set i: nat | i < n && !exists id: Id :: Joined(db, bucket, table[i], id)
  }

  ghost function Overdue(db: Database, bucket: string, table: seq<Version>, observe: nat -> Observation, n: nat)
    : set<nat>
    requires n <= |table|
  {
    set i: nat | i < n && !DocumentProtected(db, bucket, table[i]) && observe(i).now - table[i].uploadedAt > OVERDUE_MS
  }

  /** The unprotected rows whose source HEAD went like this. */
  ghost function Unsourced(db: Database, bucket: string, table: seq<Version>, observe: nat -> Observation, head: Head,
                           n: nat)
    : set<nat>
    requires n <= |table|
  {
    set i: nat | i < n && !DocumentProtected(db, bucket, table[i]) && observe(i).head == head
  }

  /** The rows with a VERIFIED request that names another object. */
  ghost function Mismatched(db: Database, bucket: string, table: seq<Version>, n: nat): set<nat>
    requires n <= |table|
  {
    set i: nat | i < n && exists id: Id :: id in db.requests && IsFor(db.requests[id], bucket, table[i].id)
                                       && db.requests[id].state.Verified?
                                       && db.requests[id].source.sourceKey != table[i].fileUrl
  }

  /** What the report is meant to say of the first n rows. */
  ghost function Columns(db: Database, bucket: string, table: seq<Version>, observe: nat -> Observation, n: nat): Report
    requires n <= |table|
  {
    Report(
      |Unrequested(db, bucket, table, n)|,
      |Overdue(db, bucket, table, observe, n)|,
      |Mismatched(db, bucket, table, n)|,
      |Unsourced(db, bucket, table, observe, Gone, n)|,
      |Unsourced(db, bucket, table, observe, Unreadable, n)|,
      0)
  }

  /** And of the last of them alone. */
  ghost function LastColumns(db: Database, bucket: string, table: seq<Version>, observe: nat -> Observation, n: nat)
    : Report
    requires 0 < n <= |table|
  {
    Report(
      One(n - 1 in Unrequested(db, bucket, table, n)),
      One(n - 1 in Overdue(db, bucket, table, observe, n)),
      One(n - 1 in Mismatched(db, bucket, table, n)),
      One(n - 1 in Unsourced(db, bucket, table, observe, Gone, n)),
      One(n - 1 in Unsourced(db, bucket, table, observe, Unreadable, n)),
      0)
  }

  lemma OneMore(front: set<nat>, all: set<nat>, n: nat)
    requires n > 0 && forall i | i in all :: i < n
    requires front == set i | i in all && i < n - 1
    ensures |all| == |front| + One(n - 1 in all)
  {
    if n - 1 in all { assert all == front + {n - 1}; } else { assert all == front; }
  }

  /** One more row adds one to a column if the row is of that kind, and nothing otherwise. */
  lemma ColumnsGrow(db: Database, bucket: string, table: seq<Version>, observe: nat -> Observation, n: nat)
    requires 0 < n <= |table|
    ensures Columns(db, bucket, table, observe, n) ==
      Plus(Columns(db, bucket, table, observe, n - 1), LastColumns(db, bucket, table, observe, n))
  {
    OneMore(Unrequested(db, bucket, table, n - 1), Unrequested(db, bucket, table, n), n);
    OneMore(Overdue(db, bucket, table, observe, n - 1), Overdue(db, bucket, table, observe, n), n);
    OneMore(Mismatched(db, bucket, table, n - 1), Mismatched(db, bucket, table, n), n);
    UnsourcedGrows(db, bucket, table, observe, Gone, n);
    UnsourcedGrows(db, bucket, table, observe, Unreadable, n);
  }

  lemma UnsourcedGrows(db: Database, bucket: string, table: seq<Version>, observe: nat -> Observation, head: Head,
                       n: nat)
    requires 0 < n <= |table|
    ensures |Unsourced(db, bucket, table, observe, head, n)|
         == |Unsourced(db, bucket, table, observe, head, n - 1)|
            + One(n - 1 in Unsourced(db, bucket, table, observe, head, n))
  {
    OneMore(Unsourced(db, bucket, table, observe, head, n - 1), Unsourced(db, bucket, table, observe, head, n), n);
  }

  lemma NoRowsNoColumns(db: Database, bucket: string, table: seq<Version>, observe: nat -> Observation)
    ensures Columns(db, bucket, table, observe, 0) == EMPTY
  {
    assert Unrequested(db, bucket, table, 0) == Overdue(db, bucket, table, observe, 0) == {};
    assert Mismatched(db, bucket, table, 0) == Unsourced(db, bucket, table, observe, Gone, 0) == {};
    assert Unsourced(db, bucket, table, observe, Unreadable, 0) == {};
  }

  /**
   * On a reachable state each column of the report is the number of rows it is meant to count:
   * versions that no request of that reference and object covers; unprotected versions older than
   * fifteen minutes, with a missing source, and with an unreadable one; versions whose verified request
   * names another object; and no conflicting generations at all.
   */
  lemma {:induction false} ReportColumns(cfg: Config, s: State, table: seq<Version>, observe: nat -> Observation,
                                         n: nat)
    requires Reachable(cfg, s) && HexDigest(cfg) && n <= |table|
    ensures OnePass(s.db, cfg.bucket, table, observe, n) == Columns(s.db, cfg.bucket, table, observe, n)
    decreases n
  {
    hide Reachable, HexDigest, Findings, Columns, LastColumns;
    if n == 0 {
      NoRowsNoColumns(s.db, cfg.bucket, table, observe);
    } else {
      ReportColumns(cfg, s, table, observe, n - 1);
      ColumnsGrow(s.db, cfg.bucket, table, observe, n);
      LastFindings(cfg, s, table, observe, n);
    }
  }

  lemma LastFindings(cfg: Config, s: State, table: seq<Version>, observe: nat -> Observation, n: nat)
    requires Reachable(cfg, s) && HexDigest(cfg) && 0 < n <= |table|
    ensures Findings(s.db, Lookup(s.db, cfg.bucket, table[n - 1].id), table[n - 1], observe(n - 1))
         == LastColumns(s.db, cfg.bucket, table, observe, n)
  {
    var db, bucket, v := s.db, cfg.bucket, table[n - 1];
    var found := Lookup(db, bucket, v.id);
    ReachableReferences(cfg, s);
    JoinedIsFound(db, bucket, v);
    ObserversAgree(cfg, s, v);
    if found.Some? { GensOfRequest(cfg, s, found.value); }
    forall id | id in db.requests && IsFor(db.requests[id], bucket, v.id) ensures found == Some(id) {
      LookupIs(db, bucket, v.id, id);
    }
  }
}
