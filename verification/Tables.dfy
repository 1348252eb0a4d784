/**
 * The two database tables of the object backup and the statements the repository runs on them
 * (src/backup/backup.repository.ts).  Every statement is one atomic update, so it is a function from
 * tables to tables; module Repository proves the methods that perform them, and module Protocol
 * interleaves them.  Instants are milliseconds.
 */
module Tables {
  import opened Wrappers

  type Id = nat
  type Uuid = nat
  type Bytes = seq<bv8>

  const LEASE_MS := 600000
  const MAX_ATTEMPTS := 10
  const CANDIDATE_LIMIT := 25

  datatype RequestState = Pending | Copying | Verified | Failed | SourceMissing | Retired

  /** The `code` of a BackupError; `Unknown` is the BACKUP_FAILED every other exception becomes. */
  datatype Code =
    | SizeMismatch | SourceChanged | ChecksumMismatch | ManifestMismatch
    | LeaseLost | GenerationMismatch | GenerationExists
    | NoSource | NoBackup | InvalidKey | RequestFailed | ObjectTooLarge | Unavailable
    | InvalidIdentity | NoDestination | Unknown

  /** The columns of a request that no statement of the protocol writes. */
  datatype Source = Source(
    sourceBucket: string,
    sourceKey: string,
    referenceType: string,
    referenceId: string,
    expectedSize: Option<int>,
    finalizedAt: int)

  datatype Request = Request(
    source: Source,
    state: RequestState,
    attempts: nat,
    nextAttemptAt: int,
    leaseUntil: Option<int>,
    leaseOwner: Option<Uuid>,
    failureCode: Option<Code>)

  /** The two keys derived from a request and a capture; module Storage proves their printed forms distinct. */
  datatype Key = ObjectKey(request: Id, capture: Uuid) | ManifestKey(request: Id, capture: Uuid)

  /** The last five columns are NULL until `verify` fills them in. */
  datatype Generation = Generation(
    requestId: Id,
    captureId: Uuid,
    backupBucket: string,
    backupKey: Key,
    manifestKey: Key,
    createdAt: int,
    sourceETag: Option<string>,
    sourceLastModified: Option<string>,
    observedSize: Option<int>,
    sha256: Option<string>,
    verifiedAt: Option<int>)

  /** The `data` argument of `verify`. */
  datatype Evidence = Evidence(
    sourceETag: string,
    sourceLastModified: string,
    observedSize: int,
    sha256: string,
    verifiedAt: int)

  datatype Database = Database(requests: map<Id, Request>, generations: map<Id, Generation>)

  predicate Resting(r: Request) {
    r.state.Pending? || r.state.Failed? || r.state.SourceMissing?
  }

  /** The `eligible` filter; a NULL lease satisfies no comparison. */
  predicate Eligible(r: Request, bucket: string, now: int) {
    && r.source.sourceBucket == bucket
    && (|| (Resting(r) && r.nextAttemptAt <= now && r.attempts < MAX_ATTEMPTS)
        || (r.state.Copying? && r.leaseUntil.Some? && r.leaseUntil.value <= now))
  }

  /** Resting with its ordinary retries used up. */
  predicate Exhausted(r: Request) {
    Resting(r) && r.attempts >= MAX_ATTEMPTS
  }

  function Claimed(r: Request, owner: Uuid, now: int): Request {
    r.(state := Copying, leaseOwner := Some(owner), leaseUntil := Some(now + LEASE_MS),
       attempts := r.attempts + 1, failureCode := None)
  }

  predicate Wins(db: Database, bucket: string, id: Id, now: int) {
    id in db.requests && Eligible(db.requests[id], bucket, now)
  }

  /** The compare-and-set: one UPDATE whose WHERE repeats the whole eligibility filter. */
  function ClaimCas(db: Database, bucket: string, id: Id, owner: Uuid, now: int): Database {
    if Wins(db, bucket, id, now)
    then db.(requests := db.requests[id := Claimed(db.requests[id], owner, now)])
    else db
  }

  /** What `findMany` may answer: the first 25 eligible rows by `finalizedAt`, ties in any order. */
  predicate CandidateList(db: Database, bucket: string, now: int, cands: seq<Id>) {
    && |cands| <= CANDIDATE_LIMIT
    && (forall i | 0 <= i < |cands| :: Wins(db, bucket, cands[i], now))
    && (forall i, j | 0 <= i < j < |cands| :: cands[i] != cands[j])
    && (forall i, j | 0 <= i < j < |cands| ::
          cands[i] in db.requests && cands[j] in db.requests &&
          db.requests[cands[i]].source.finalizedAt <= db.requests[cands[j]].source.finalizedAt)
    && (forall id | id in db.requests && Eligible(db.requests[id], bucket, now) && id !in cands ::
          && |cands| == CANDIDATE_LIMIT
          && forall i | 0 <= i < |cands| ::
               cands[i] in db.requests &&
               db.requests[cands[i]].source.finalizedAt <= db.requests[id].source.finalizedAt)
  }

  function NewGeneration(request: Id, capture: Uuid, bucket: string, createdAt: int): Generation {
    Generation(request, capture, bucket, ObjectKey(request, capture), ManifestKey(request, capture),
               createdAt, None, None, None, None, None)
  }

  function WithEvidence(g: Generation, e: Evidence): Generation {
    g.(sourceETag := Some(e.sourceETag), sourceLastModified := Some(e.sourceLastModified),
       observedSize := Some(e.observedSize), sha256 := Some(e.sha256), verifiedAt := Some(e.verifiedAt))
  }

  /** The WHERE of the first update of `verify`; a null owner is compared with IS NULL. */
  predicate Fenced(r: Request, owner: Option<Uuid>, now: int) {
    r.state.Copying? && r.leaseOwner == owner && r.leaseUntil.Some? && r.leaseUntil.value > now
  }

  datatype Verdict = Committed | Lost | Mismatch

  function VerifyVerdict(db: Database, id: Id, owner: Option<Uuid>, gid: Id, now: int): Verdict {
    if id !in db.requests || !Fenced(db.requests[id], owner, now) then Lost
    else if gid !in db.generations || db.generations[gid].requestId != id then Mismatch
    else Committed
  }

  /** The `verify` transaction: both updates, or neither. */
  function Verify(db: Database, id: Id, owner: Option<Uuid>, gid: Id, e: Evidence, now: int): Database {
    if VerifyVerdict(db, id, owner, gid, now) != Committed then db
    else Database(
      db.requests[id := db.requests[id].(
        state := Verified, leaseOwner := None, leaseUntil := None, failureCode := None)],
      db.generations[gid := WithEvidence(db.generations[gid], e)])
  }

  /** `Math.min(300, 30 * 2 ** Math.min(attempts - 1, 4))` seconds; 2 ** -1 is a half. */
  function Backoff(attempts: nat): (seconds: nat)
    ensures attempts >= 1 ==> 30 <= seconds <= 300
  {
    if attempts == 0 then 15
    else if attempts == 1 then 30
    else if attempts == 2 then 60
    else if attempts == 3 then 120
    else if attempts == 4 then 240
    else 300
  }

  predicate FailMatches(db: Database, id: Id, owner: Option<Uuid>) {
    id in db.requests && db.requests[id].state.Copying? && db.requests[id].leaseOwner == owner
  }

  /** The update of `fail`; `attempts` is that of the row the worker read when it claimed. */
  function Fail(db: Database, id: Id, owner: Option<Uuid>, attempts: nat, code: Code, now: int): Database {
    if !FailMatches(db, id, owner) then db
    else db.(requests := db.requests[id := db.requests[id].(
      state := if code.NoSource? then SourceMissing else Failed,
      failureCode := Some(code), leaseUntil := None, leaseOwner := None,
      nextAttemptAt := now + Backoff(attempts) * 1000)])
  }

  /** `enqueueDocumentBackup`: a row with the schema's defaults. */
  function NewRequest(source: Source, now: int): Request {
    Request(source, Pending, 0, now, None, None, None)
  }

  /** The unique index on (sourceBucket, referenceType, referenceId). */
  predicate SameReference(a: Source, b: Source) {
    a.sourceBucket == b.sourceBucket && a.referenceType == b.referenceType && a.referenceId == b.referenceId
  }

  /** A request for this document version. */
  predicate IsFor(r: Request, bucket: string, vid: string) {
    r.source.sourceBucket == bucket && r.source.referenceType == "DOCUMENT_VERSION" && r.source.referenceId == vid
  }

  predicate UniqueReferences(db: Database) {
    forall i, j | i in db.requests && j in db.requests && i != j ::
      !SameReference(db.requests[i].source, db.requests[j].source)
  }
}
