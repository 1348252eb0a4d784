/**
 * `BackupRepository` and `enqueueDocumentBackup` as they update rows in place
 * (src/backup/backup.repository.ts, src/backup/backup.request.ts): each method is proved to perform
 * exactly the atomic statement that the protocol interleaves, and what that means for the row's next claim.
 */
module Repository {
  import opened Wrappers
  import opened Tables

  datatype EnqueueOutcome = Inserted | NoBucket | Duplicate

  predicate HasReference(requests: map<Id, Request>, bucket: string, referenceType: string, referenceId: string) {
    exists id | id in requests ::
      && requests[id].source.sourceBucket == bucket
      && requests[id].source.referenceType == referenceType
      && requests[id].source.referenceId == referenceId
  }

  class BackupDatabase {
    var requests: map<Id, Request>
    var generations: map<Id, Generation>

    function Value(): Database
      reads this
    {
      Database(requests, generations)
    }

    constructor ()
      ensures Value() == Database(map[], map[])
    {
      requests := map[];
      generations := map[];
    }

    /**
     * Inserts the request inside the caller's transaction; without a bucket it does nothing, and the
     * unique index refuses a second request for a reference.
     */
    method Enqueue(id: Id, bucket: Option<string>, versionId: string, fileUrl: string, fileSize: int, uploadedAt: int,
                   now: int)
      returns (outcome: EnqueueOutcome)
      requires id !in requests
      modifies this
      ensures generations == old(generations)
      ensures outcome.NoBucket? <==> bucket.None? || bucket.value == ""
      ensures outcome.Duplicate? <==>
        bucket.Some? && bucket.value != "" && HasReference(old(requests), bucket.value, "DOCUMENT_VERSION", versionId)
      ensures !outcome.Inserted? ==> requests == old(requests)
      ensures outcome.Inserted? ==>
        && requests == old(requests)[id := NewRequest(
             Source(bucket.value, fileUrl, "DOCUMENT_VERSION", versionId, Some(fileSize), uploadedAt), now)]
        && (forall t :: Wins(Value(), bucket.value, id, t) <==> t >= now)
        && IsFor(requests[id], bucket.value, versionId)
        && requests[id].source.sourceKey == fileUrl && requests[id].source.expectedSize == Some(fileSize)
        && requests[id].source.finalizedAt == uploadedAt && requests[id].state == Pending
      ensures old(UniqueReferences(Value())) ==> UniqueReferences(Value())
    {
      if bucket.None? || bucket.value == "" {
        return NoBucket;
      }
      if HasReference(requests, bucket.value, "DOCUMENT_VERSION", versionId) {
        return Duplicate;
      }
      var source := Source(bucket.value, fileUrl, "DOCUMENT_VERSION", versionId, Some(fileSize), uploadedAt);
      requests := requests[id := Request(source, Pending, 0, now, None, None, None)];
      outcome := Inserted;
    }

    /** The conditional update of `claim`: a row won is out of reach for ten minutes, a row lost is as it was. */
    method ClaimUpdate(id: Id, bucket: string, owner: Uuid, now: int) returns (count: nat)
      modifies this
      ensures Value() == ClaimCas(old(Value()), bucket, id, owner, now)
      ensures count == (if Wins(old(Value()), bucket, id, now) then 1 else 0)
      ensures count == 1 ==> forall t :: Wins(Value(), bucket, id, t) <==> t >= now + LEASE_MS
      ensures count == 0 ==> Value() == old(Value())
    {
      count := 0;
      if id in requests && Eligible(requests[id], bucket, now) {
        var r := requests[id];
        requests := requests[id := r.(
          state := Copying,
          leaseOwner := Some(owner),
          leaseUntil := Some(now + 600000),
          attempts := r.attempts + 1,
          failureCode := None)];
        count := 1;
      }
    }

    method CreateGeneration(gid: Id, request: Id, capture: Uuid, bucket: string, at: int)
      requires gid !in generations
      modifies this
      ensures Value() ==
        old(Value()).(generations := old(generations)[gid := NewGeneration(request, capture, bucket, at)])
      ensures var g := generations[gid];
        && g.requestId == request && g.captureId == capture && g.backupBucket == bucket && g.createdAt == at
        && g.backupKey == ObjectKey(request, capture) && g.manifestKey == ManifestKey(request, capture)
      ensures forall g :: g in generations && generations[g].verifiedAt.Some?
                          <==> g in old(generations) && old(generations)[g].verifiedAt.Some?
    {
      generations := generations[gid := Generation(
        request, capture, bucket, ObjectKey(request, capture), ManifestKey(request, capture), at,
        None, None, None, None, None)];
    }

    /** First update of the `verify` transaction. */
    method VerifyRequestRow(id: Id, owner: Option<Uuid>, now: int) returns (count: nat)
      modifies this`requests
      ensures count == (if id in old(requests) && Fenced(old(requests)[id], owner, now) then 1 else 0)
      ensures count == 0 ==> requests == old(requests)
      ensures count == 1 ==> requests == old(requests)[id := old(requests)[id].(
        state := Verified, leaseOwner := None, leaseUntil := None, failureCode := None)]
    {
      count := 0;
      if id in requests && Fenced(requests[id], owner, now) {
        requests := requests[id := requests[id].(
          state := Verified, leaseOwner := None, leaseUntil := None, failureCode := None)];
        count := 1;
      }
    }

    /** Second update of the `verify` transaction. */
    method VerifyGenerationRow(gid: Id, id: Id, e: Evidence) returns (count: nat)
      modifies this`generations
      ensures count == (if gid in old(generations) && old(generations)[gid].requestId == id then 1 else 0)
      ensures count == 0 ==> generations == old(generations)
      ensures count == 1 ==> generations == old(generations)[gid := WithEvidence(old(generations)[gid], e)]
    {
      count := 0;
      if gid in generations && generations[gid].requestId == id {
        generations := generations[gid := generations[gid].(
          sourceETag := Some(e.sourceETag), sourceLastModified := Some(e.sourceLastModified),
          observedSize := Some(e.observedSize), sha256 := Some(e.sha256), verifiedAt := Some(e.verifiedAt))];
        count := 1;
      }
    }

    /**
     * The interactive transaction: a throw after the first update rolls it back, so both updates
     * happen or neither.  A request that is verified can never be claimed again.
     */
    method VerifyTransaction(id: Id, owner: Option<Uuid>, gid: Id, e: Evidence, now: int)
      returns (verdict: Verdict)
      modifies this
      ensures verdict == VerifyVerdict(old(Value()), id, owner, gid, now)
      ensures Value() == Verify(old(Value()), id, owner, gid, e, now)
      ensures verdict != Committed ==> Value() == old(Value())
      ensures verdict == Committed ==>
        && gid in generations && WithEvidence(generations[gid], e) == generations[gid]
        && forall b, t :: !Wins(Value(), b, id, t)
    {
      var saved := requests;
      var updated := VerifyRequestRow(id, owner, now);
      if updated != 1 {
        return Lost;
      }
      var generationUpdated := VerifyGenerationRow(gid, id, e);
      if generationUpdated != 1 {
        requests := saved;
        return Mismatch;
      }
      verdict := Committed;
    }

    /** A row that is rested can be claimed again exactly when its back-off is over and it has attempts left. */
    method FailUpdate(id: Id, owner: Option<Uuid>, attempts: nat, code: Code, now: int)
      modifies this
      ensures Value() == Fail(old(Value()), id, owner, attempts, code, now)
      ensures !FailMatches(old(Value()), id, owner) ==> Value() == old(Value())
      ensures FailMatches(old(Value()), id, owner) ==>
        && id in requests
        && var r := requests[id];
        && forall t :: Wins(Value(), r.source.sourceBucket, id, t) <==>
                         r.attempts < MAX_ATTEMPTS && t >= now + Backoff(attempts) * 1000
    {
      var seconds := DelaySeconds(attempts);
      if id in requests && requests[id].state.Copying? && requests[id].leaseOwner == owner {
        requests := requests[id := requests[id].(
          state := if code == NoSource then SourceMissing else Failed,
          failureCode := Some(code),
          leaseUntil := None,
          leaseOwner := None,
          nextAttemptAt := now + seconds * 1000)];
      }
    }
  }

  function Power2(n: nat): nat {
    if n == 0 then 1 else 2 * Power2(n - 1)
  }

  /** `Math.min(300, 30 * 2 ** Math.min(attempts - 1, 4))`, where 2 ** -1 is a half. */
  method DelaySeconds(attempts: nat) returns (seconds: nat)
    ensures seconds == Backoff(attempts)
  {
    if attempts == 0 {
      return 15;
    }
    var exponent := if attempts - 1 < 4 then attempts - 1 else 4;
    var doubled := 30 * Power2(exponent);
    seconds := if doubled < 300 then doubled else 300;
    BackoffIsPower(attempts);
  }

  /** The table of delays is the capped doubling, and the delays never decrease. */
  lemma BackoffIsPower(attempts: nat)
    ensures attempts >= 1 ==>
      (var doubled := 30 * Power2(if attempts - 1 < 4 then attempts - 1 else 4);
       Backoff(attempts) == if doubled < 300 then doubled else 300)
    ensures Backoff(attempts) <= Backoff(attempts + 1)
  {
    assert Power2(0) == 1 && Power2(1) == 2 && Power2(2) == 4 && Power2(3) == 8 && Power2(4) == 16;
  }
}
