/**
 * The queue monitor (src/backup/backup.queue-metrics.ts, src/backup/backup.operations.ts:10-23): what
 * its counts say about the states the protocol can reach.
 */
module Monitor {
  import opened Wrappers
  import opened Tables
  import opened Protocol
  import opened Safety

  const OVERDUE_MS := 900000

  /** The pattern `^[a-f0-9]{64}$`. */
  predicate IsHex64(s: string) {
    |s| == 64 && forall i | 0 <= i < |s| :: ('a' <= s[i] <= 'f' || '0' <= s[i] <= '9')
  }

  /** Sixty-four lower-case hexadecimal digits. */
  lemma HexDigits(s: string)
    ensures IsHex64(s) <==> |s| == 64 && forall i | 0 <= i < |s| :: s[i] in "0123456789abcdef"
  {
    forall i | 0 <= i < |s|
      ensures s[i] in "0123456789abcdef" <==> 'a' <= s[i] <= 'f' || '0' <= s[i] <= '9'
    {
      IsHexDigit(s[i]);
    }
  }

  lemma IsHexDigit(c: char)
    ensures c in "0123456789abcdef" <==> 'a' <= c <= 'f' || '0' <= c <= '9'
  {
    var digits := "0123456789abcdef";
    if '0' <= c <= '9' { assert digits[c as int - '0' as int] == c; }
    if 'a' <= c <= 'f' { assert digits[c as int - 'a' as int + 10] == c; }
  }

  // ----- the query -----

  predicate CompleteHash(g: Generation) {
    g.sha256.Some? && IsHex64(g.sha256.value) && g.observedSize.Some? && g.sourceETag.Some?
  }

  function ValidGens(db: Database, id: Id): set<Id> requires id in db.requests {
    set g | g in db.generations && db.generations[g].requestId == id && db.generations[g].verifiedAt.Some?
            && CompleteHash(db.generations[g])
            && db.generations[g].verifiedAt.value >= db.requests[id].source.finalizedAt
  }

  function InvalidGens(db: Database, id: Id): set<Id> requires id in db.requests {
    set g | g in db.generations && db.generations[g].requestId == id && db.generations[g].verifiedAt.Some?
            && !(CompleteHash(db.generations[g])
                 && db.generations[g].verifiedAt.value >= db.requests[id].source.finalizedAt)
  }

  /** `count(DISTINCT sha256)`: NULL is not counted. */
  function Hashes(db: Database, id: Id): set<string> {
    set g | g in db.generations && db.generations[g].requestId == id && db.generations[g].verifiedAt.Some?
            && db.generations[g].sha256.Some? :: db.generations[g].sha256.value
  }

  predicate CoverageOk(db: Database, id: Id) requires id in db.requests {
    |ValidGens(db, id)| > 0 && |InvalidGens(db, id)| == 0 && |Hashes(db, id)| == 1
  }

  /** A verified generation of the request. */
  predicate Verifies(db: Database, id: Id, g: Id) {
    g in db.generations && db.generations[g].requestId == id && db.generations[g].verifiedAt.Some?
  }

  /**
   * The three counts of the query together say, of any table whatever: there is a verified generation, and
   * each one is complete, stamped no earlier than the document was finalized, and of the same digest.
   */
  lemma CoverageIff(db: Database, id: Id)
    requires id in db.requests
    ensures CoverageOk(db, id) <==>
      && (exists g :: Verifies(db, id, g))
      && (forall g | Verifies(db, id, g) ::
            && CompleteHash(db.generations[g])
            && db.generations[g].verifiedAt.value >= db.requests[id].source.finalizedAt)
      && (forall g, h | Verifies(db, id, g) && Verifies(db, id, h) ::
            db.generations[g].sha256 == db.generations[h].sha256)
  {
    var valid, invalid, hashes := ValidGens(db, id), InvalidGens(db, id), Hashes(db, id);
    forall g ensures Verifies(db, id, g) <==> g in valid || g in invalid {}
    if |valid| > 0 && |invalid| == 0 {
      var x :| x in valid;
      var hash := db.generations[x].sha256.value;
      assert hash in hashes;
      forall g | Verifies(db, id, g) ensures g in valid && db.generations[g].sha256.value in hashes {}
      if |hashes| == 1 {
        assert |hashes - {hash}| == 0;
        forall h | h in hashes ensures h == hash { assert h !in hashes - {hash}; }
      }
      if forall g | Verifies(db, id, g) :: db.generations[g].sha256 == Some(hash) { assert hashes == {hash}; }
    } else if exists g :: Verifies(db, id, g) {
      var g :| Verifies(db, id, g);
      if invalid != {} { var h :| h in invalid; assert Verifies(db, id, h); }
    }
  }

  /** The `protected` column of the coverage query. */
  predicate Covered(db: Database, id: Id) requires id in db.requests {
    db.requests[id].state.Verified? && CoverageOk(db, id)
  }

  function Rows(db: Database, bucket: string): set<Id> {
    set id | id in db.requests && db.requests[id].source.sourceBucket == bucket
  }

  function InState(db: Database, bucket: string, state: RequestState): set<Id> {
    set id | id in Rows(db, bucket) && db.requests[id].state == state
  }

  function Uncovered(db: Database, bucket: string): set<Id> {
    set id | id in Rows(db, bucket) && !Covered(db, id)
  }

  datatype Metrics = Metrics(
    total: nat, pending: nat, copying: nat, unprotected: nat, oldestAgeSeconds: nat,
    failed: nat, missing: nat, exhausted: nat, active: nat, expired: nat, invalidLease: nat,
    verified: nat, invalidVerified: nat, overdue: nat, measured: nat)

  /** `max(0, floor((now - min(finalizedAt)) / 1000))` over the given rows, 0 when there are none. */
  ghost function OldestAgeSeconds(db: Database, ids: set<Id>, now: int): nat
    requires ids <= db.requests.Keys
  {
    if ids == {} then 0
    else
      var id :| id in ids;
      var rest := OldestAgeSeconds(db, ids - {id}, now);
      var age := Age(db.requests[id].source.finalizedAt, now);
      if age > rest then age else rest
  }

  /** Euclidean division by a positive number is the floor. */
  function Age(finalizedAt: int, now: int): nat {
    if now - finalizedAt >= 0 then (now - finalizedAt) / 1000 else 0
  }

  /** The age is the whole seconds that have passed, and none before then. */
  lemma AgeIs(finalizedAt: int, now: int)
    ensures now - finalizedAt < (Age(finalizedAt, now) + 1) * 1000
    ensures Age(finalizedAt, now) > 0 ==> Age(finalizedAt, now) * 1000 <= now - finalizedAt
  {
  }

  predicate AsOldAs(db: Database, id: Id, seconds: nat, now: int) {
    id in db.requests && seconds * 1000 <= now - db.requests[id].source.finalizedAt
  }

  /** The oldest age: no row of the set is older, and unless it is 0 some row is that old. */
  lemma {:induction false} OldestIsMaximum(db: Database, ids: set<Id>, now: int)
    requires ids <= db.requests.Keys
    ensures forall id | id in ids :: !AsOldAs(db, id, OldestAgeSeconds(db, ids, now) + 1, now)
    ensures OldestAgeSeconds(db, ids, now) > 0 ==>
      exists id :: id in ids && AsOldAs(db, id, OldestAgeSeconds(db, ids, now), now)
  {
    if ids != {} {
      var x :| x in ids && OldestAgeSeconds(db, ids, now) ==
        (var rest := OldestAgeSeconds(db, ids - {x}, now);
         var age := Age(db.requests[x].source.finalizedAt, now);
         if age > rest then age else rest);
      var oldest, rest := OldestAgeSeconds(db, ids, now), OldestAgeSeconds(db, ids - {x}, now);
      OldestIsMaximum(db, ids - {x}, now);
      AgeIs(db.requests[x].source.finalizedAt, now);
      forall id | id in ids ensures !AsOldAs(db, id, oldest + 1, now) {
        if id != x { assert id in ids - {x} && !AsOldAs(db, id, rest + 1, now); }
      }
      if oldest > 0 {
        if oldest == rest {
          var y :| y in ids - {x} && AsOldAs(db, y, rest, now);
          assert y in ids && AsOldAs(db, y, oldest, now);
        } else {
          assert AsOldAs(db, x, oldest, now);
        }
      }
    }
  }

  ghost function QueueMetrics(db: Database, bucket: string, now: int): Metrics {
    var rows := Rows(db, bucket);
    Metrics(
      |rows|,
      |InState(db, bucket, Pending)|,
      |InState(db, bucket, Copying)|,
      |Uncovered(db, bucket)|,
      OldestAgeSeconds(db, Uncovered(db, bucket), now),
      |InState(db, bucket, Failed)|,
      |InState(db, bucket, SourceMissing)|,
      |ExhaustedRows(db, bucket)|,
      |ActiveRows(db, bucket, now)|,
      |ExpiredRows(db, bucket, now)|,
      |InvalidLeaseRows(db, bucket)|,
      |InState(db, bucket, Verified)|,
      |InvalidVerifiedRows(db, bucket)|,
      |OverdueRows(db, bucket, now)|,
      |MeasuredRows(db, bucket)|)
  }

  function ExhaustedRows(db: Database, bucket: string): set<Id> {
    set id | id in Rows(db, bucket) && Exhausted(db.requests[id])
  }

  function ActiveRows(db: Database, bucket: string, now: int): set<Id> {
    set id | id in Rows(db, bucket) && db.requests[id].state.Copying? && db.requests[id].leaseUntil.Some?
             && db.requests[id].leaseUntil.value > now && db.requests[id].leaseOwner.Some?
  }

  function ExpiredRows(db: Database, bucket: string, now: int): set<Id> {
    set id | id in Rows(db, bucket) && db.requests[id].state.Copying? && db.requests[id].leaseUntil.Some?
             && db.requests[id].leaseUntil.value <= now
  }

  function InvalidLeaseRows(db: Database, bucket: string): set<Id> {
    set id | id in Rows(db, bucket) && db.requests[id].state.Copying?
             && (db.requests[id].leaseUntil.None? || db.requests[id].leaseOwner.None?)
  }

  function InvalidVerifiedRows(db: Database, bucket: string): set<Id> {
    set id | id in Rows(db, bucket) && db.requests[id].state.Verified? && !CoverageOk(db, id)
  }

  function OverdueRows(db: Database, bucket: string, now: int): set<Id> {
    set id | id in Uncovered(db, bucket) && db.requests[id].source.finalizedAt < now - OVERDUE_MS
  }

  function MeasuredRows(db: Database, bucket: string): set<Id> {
    set id | id in Rows(db, bucket) && Covered(db, id)
  }

  predicate OperationallyUnhealthy(m: Metrics) {
    m.oldestAgeSeconds > 900 ||
    m.failed > 0 || m.missing > 0 || m.exhausted > 0 || m.expired > 0 || m.invalidLease > 0 ||
    m.invalidVerified > 0 || m.overdue > 0
  }

  // ----- what `protected` means on reachable states -----

  /** SHA-256 in lower-case hexadecimal. */
  ghost predicate HexDigest(cfg: Config) {
    forall b :: IsHex64(cfg.digest(b))
  }

  /** The one verified generation of the request was stamped no earlier than the document was finalized. */
  predicate StampedInTime(db: Database, id: Id) requires id in db.requests {
    forall g | g in db.generations && Evidences(db, id, g) ::
      db.generations[g].verifiedAt.value >= db.requests[id].source.finalizedAt
  }

  /**
   * On every reachable state the monitor's `protected` is exactly: VERIFIED, and stamped no earlier
   * than finalization.  Everything else the query checks holds by the protocol.
   */
  lemma CoveredIff(cfg: Config, s: State, id: Id)
    requires Reachable(cfg, s) && HexDigest(cfg) && id in s.db.requests
    ensures Covered(s.db, id) <==> s.db.requests[id].state.Verified? && StampedInTime(s.db, id)
  {
    if s.db.requests[id].state.Verified? {
      var gid := VerifiedIsProtected(cfg, s, id);
      var g := s.db.generations[gid];
      assert Protected(cfg, s, g);
      assert IsHex64(cfg.digest(s.store[g.backupKey]));
      assert CompleteHash(g);
      forall h | h in s.db.generations && s.db.generations[h].requestId == id && s.db.generations[h].verifiedAt.Some?
        ensures h == gid
      {
        assert Evidences(s.db, id, h);
      }
      assert Hashes(s.db, id) == {g.sha256.value} by {
        assert g.sha256.value in Hashes(s.db, id);
      }
      if StampedInTime(s.db, id) {
        assert ValidGens(s.db, id) == {gid};
        assert InvalidGens(s.db, id) == {};
      } else {
        assert InvalidGens(s.db, id) == {gid};
      }
    }
  }

  // ----- the agreement -----

  lemma ReachableRows(cfg: Config, s: State)
    requires Reachable(cfg, s)
    ensures RowsOk(s.db)
  {
    ReachableInv(cfg, s);
  }

  lemma SumOfTwo(a: set<Id>, b: set<Id>, c: set<Id>)
    requires a !! b && c == a + b
    ensures |c| == |a| + |b|
  {
  }

  lemma LeaseCounts(db: Database, bucket: string, now: int)
    requires RowsOk(db)
    ensures InvalidLeaseRows(db, bucket) == {}
    ensures |InState(db, bucket, Copying)| == |ActiveRows(db, bucket, now)| + |ExpiredRows(db, bucket, now)|
  {
    forall id | id in Rows(db, bucket) ensures RowOk(db.requests[id]) {}
    SumOfTwo(ActiveRows(db, bucket, now), ExpiredRows(db, bucket, now), InState(db, bucket, Copying));
  }

  function InStates(db: Database, bucket: string, states: set<RequestState>): set<Id> {
    set id | id in Rows(db, bucket) && db.requests[id].state in states
  }

  lemma CountOneMore(db: Database, bucket: string, states: set<RequestState>, x: RequestState)
    requires x !in states
    ensures |InStates(db, bucket, states + {x})| == |InStates(db, bucket, states)| + |InState(db, bucket, x)|
  {
    SumOfTwo(InStates(db, bucket, states), InState(db, bucket, x), InStates(db, bucket, states + {x}));
  }

  lemma StateCounts(db: Database, bucket: string)
    requires RowsOk(db)
    ensures |Rows(db, bucket)| == |InState(db, bucket, Pending)| + |InState(db, bucket, Copying)|
      + |InState(db, bucket, Failed)| + |InState(db, bucket, SourceMissing)| + |InState(db, bucket, Verified)|
  {
    CountOneMore(db, bucket, {}, Pending);
    CountOneMore(db, bucket, {} + {Pending}, Copying);
    CountOneMore(db, bucket, {} + {Pending} + {Copying}, Failed);
    CountOneMore(db, bucket, {} + {Pending} + {Copying} + {Failed}, SourceMissing);
    CountOneMore(db, bucket, {} + {Pending} + {Copying} + {Failed} + {SourceMissing}, Verified);
    assert InStates(db, bucket, {}) == {};
    assert Rows(db, bucket) ==
           InStates(db, bucket, {} + {Pending} + {Copying} + {Failed} + {SourceMissing} + {Verified}) by {
      forall id | id in Rows(db, bucket) ensures RowOk(db.requests[id]) {}
    }
  }

  lemma CoverageCounts(db: Database, bucket: string, now: int)
    ensures var m := QueueMetrics(db, bucket, now);
      m.measured + m.invalidVerified == m.verified && m.unprotected == m.total - m.measured
  {
    VerifiedSplit(db, bucket);
    CoveredSplit(db, bucket);
  }

  lemma VerifiedSplit(db: Database, bucket: string)
    ensures |InState(db, bucket, Verified)| == |MeasuredRows(db, bucket)| + |InvalidVerifiedRows(db, bucket)|
  {
    SumOfTwo(MeasuredRows(db, bucket), InvalidVerifiedRows(db, bucket), InState(db, bucket, Verified));
  }

  lemma CoveredSplit(db: Database, bucket: string)
    ensures |Rows(db, bucket)| == |MeasuredRows(db, bucket)| + |Uncovered(db, bucket)|
  {
    SumOfTwo(MeasuredRows(db, bucket), Uncovered(db, bucket), Rows(db, bucket));
  }

  /**
   * The monitor agrees with the protocol on every reachable state: the counts partition the queue,
   * every COPYING row has a lease that is either active or expired, and a VERIFIED row counts as
   * invalid exactly when its evidence was stamped before the document was finalized.
   */
  lemma MonitorAgrees(cfg: Config, s: State, now: int)
    requires Reachable(cfg, s) && HexDigest(cfg)
    ensures var m := QueueMetrics(s.db, cfg.bucket, now);
      && m.invalidLease == 0 && m.copying == m.active + m.expired
      && m.total == m.pending + m.copying + m.failed + m.missing + m.verified
      && m.measured + m.invalidVerified == m.verified
      && m.unprotected == m.total - m.measured
      && (m.invalidVerified == 0 <==>
            forall id | id in Rows(s.db, cfg.bucket) && s.db.requests[id].state.Verified? :: StampedInTime(s.db, id))
  {
    ReachableRows(cfg, s);
    LeaseCounts(s.db, cfg.bucket, now);
    StateCounts(s.db, cfg.bucket);
    CoverageCounts(s.db, cfg.bucket, now);
    var bad := InvalidVerifiedRows(s.db, cfg.bucket);
    forall id | id in Rows(s.db, cfg.bucket) && s.db.requests[id].state.Verified?
      ensures id in bad <==> !StampedInTime(s.db, id)
    {
      CoveredIff(cfg, s, id);
    }
    if bad != {} { var id :| id in bad; }
  }

  // ----- how rows move between the columns -----

  lemma OneMoves(a: set<Id>, b: set<Id>, id: Id)
    requires forall x | x != id :: x in a <==> x in b
    ensures |b| + One(id in a) == |a| + One(id in b)
  {
    if id in a {
      if id in b { assert a == b; } else { assert a == b + {id}; }
    } else {
      if id in b { assert b == a + {id}; } else { assert a == b; }
    }
  }

  /** Only this row of the bucket may have changed, and only in what the protocol writes. */
  predicate OneChanged(db: Database, after: Database, bucket: string, id: Id) {
    && id in Rows(db, bucket) && after.requests.Keys == db.requests.Keys
    && (forall other | other in db.requests && other != id :: after.requests[other] == db.requests[other])
    && after.requests[id].source == db.requests[id].source
  }

  /** What a state has gained. */
  ghost function Change(db: Database, after: Database, bucket: string, state: RequestState): int {
    |InState(after, bucket, state)| - |InState(db, bucket, state)|
  }

  /** A row that leaves one state for another: one less there, one more here, and nothing else moves. */
  lemma RowMoves(db: Database, after: Database, bucket: string, id: Id, state: RequestState)
    requires OneChanged(db, after, bucket, id)
    ensures Change(db, after, bucket, state) ==
      One(after.requests[id].state == state) - One(db.requests[id].state == state)
  {
    OneMoves(InState(db, bucket, state), InState(after, bucket, state), id);
  }

  /** The six columns that a change of state can touch. */
  datatype Flow = Flow(total: int, pending: int, copying: int, failed: int, missing: int, verified: int)

  /** What the columns of the answer have gained. */
  ghost function Gained(db: Database, after: Database, bucket: string, now: int): Flow {
    var m, n := QueueMetrics(db, bucket, now), QueueMetrics(after, bucket, now);
    Flow(n.total - m.total, n.pending - m.pending, n.copying - m.copying, n.failed - m.failed,
         n.missing - m.missing, n.verified - m.verified)
  }

  lemma GainedIs(db: Database, after: Database, bucket: string, now: int)
    ensures Gained(db, after, bucket, now) ==
      Flow(|Rows(after, bucket)| - |Rows(db, bucket)|, Change(db, after, bucket, Pending),
           Change(db, after, bucket, Copying), Change(db, after, bucket, Failed),
           Change(db, after, bucket, SourceMissing), Change(db, after, bucket, Verified))
  {
    hide Rows, InState, Uncovered, ExhaustedRows, ActiveRows, ExpiredRows, InvalidLeaseRows, InvalidVerifiedRows,
         OverdueRows, MeasuredRows;
  }

  lemma AllMove(db: Database, after: Database, bucket: string, id: Id, now: int)
    requires OneChanged(db, after, bucket, id)
    ensures var from, to := db.requests[id].state, after.requests[id].state;
      Gained(db, after, bucket, now) ==
        Flow(0, One(to == Pending) - One(from == Pending), One(to == Copying) - One(from == Copying),
             One(to == Failed) - One(from == Failed), One(to == SourceMissing) - One(from == SourceMissing),
             One(to == Verified) - One(from == Verified))
  {
    assert Rows(after, bucket) == Rows(db, bucket);
    GainedIs(db, after, bucket, now);
    hide Rows, InState, QueueMetrics, Gained, Change, OneChanged;
    RowMoves(db, after, bucket, id, Pending);
    RowMoves(db, after, bucket, id, Copying);
    RowMoves(db, after, bucket, id, Failed);
    RowMoves(db, after, bucket, id, SourceMissing);
    RowMoves(db, after, bucket, id, Verified);
  }

  /** A failure moves its row from `copying` to `missing` if the source was gone, and to `failed` otherwise. */
  lemma FailureMoves(db: Database, bucket: string, id: Id, owner: Option<Uuid>, attempts: nat, code: Code, at: int,
                     now: int)
    requires FailMatches(db, id, owner) && id in Rows(db, bucket)
    ensures Gained(db, Fail(db, id, owner, attempts, code, at), bucket, now) ==
      if code == NoSource then Flow(0, 0, -1, 0, 1, 0) else Flow(0, 0, -1, 1, 0, 0)
  {
    hide QueueMetrics, Gained;
    assert OneChanged(db, Fail(db, id, owner, attempts, code, at), bucket, id);
    AllMove(db, Fail(db, id, owner, attempts, code, at), bucket, id, now);
    hide Rows, OneChanged;
  }

  /** A claim moves its row to `copying` from wherever it was; taking over an expired lease moves nothing. */
  lemma ClaimMoves(db: Database, bucket: string, id: Id, owner: Uuid, at: int, now: int)
    requires Wins(db, bucket, id, at)
    ensures Gained(db, ClaimCas(db, bucket, id, owner, at), bucket, now) ==
      match db.requests[id].state
      case Pending => Flow(0, -1, 1, 0, 0, 0)
      case Failed => Flow(0, 0, 1, -1, 0, 0)
      case SourceMissing => Flow(0, 0, 1, 0, -1, 0)
      case _ => Flow(0, 0, 0, 0, 0, 0)
  {
    hide QueueMetrics, Gained;
    assert OneChanged(db, ClaimCas(db, bucket, id, owner, at), bucket, id);
    AllMove(db, ClaimCas(db, bucket, id, owner, at), bucket, id, now);
    hide Rows, OneChanged;
  }

  /** A commit moves its row from `copying` to `verified`. */
  lemma CommitMoves(db: Database, bucket: string, id: Id, owner: Option<Uuid>, gid: Id, e: Evidence, at: int, now: int)
    requires VerifyVerdict(db, id, owner, gid, at).Committed? && id in Rows(db, bucket)
    ensures Gained(db, Verify(db, id, owner, gid, e, at), bucket, now) == Flow(0, 0, -1, 0, 0, 1)
  {
    hide QueueMetrics, Gained;
    assert OneChanged(db, Verify(db, id, owner, gid, e, at), bucket, id);
    AllMove(db, Verify(db, id, owner, gid, e, at), bucket, id, now);
    hide Rows, OneChanged;
  }

  /** A new request counts once, as `pending`. */
  lemma EnqueueMoves(db: Database, bucket: string, id: Id, source: Source, at: int, now: int)
    requires id !in db.requests && source.sourceBucket == bucket
    ensures Gained(db, db.(requests := db.requests[id := NewRequest(source, at)]), bucket, now) ==
      Flow(1, 1, 0, 0, 0, 0)
  {
    hide QueueMetrics, Gained, Rows, InState, Change;
    NewRowMoves(db, db.(requests := db.requests[id := NewRequest(source, at)]), bucket, id, now);
  }

  lemma NewRowMoves(db: Database, after: Database, bucket: string, id: Id, now: int)
    requires id !in db.requests && after.requests.Keys == db.requests.Keys + {id}
    requires forall other | other in db.requests :: after.requests[other] == db.requests[other]
    requires after.requests[id].source.sourceBucket == bucket
    ensures var to := after.requests[id].state;
      Gained(db, after, bucket, now) ==
        Flow(1, One(Pending == to), One(Copying == to), One(Failed == to), One(SourceMissing == to),
             One(Verified == to))
  {
    hide QueueMetrics, Gained;
    GainedIs(db, after, bucket, now);
    assert Rows(after, bucket) == Rows(db, bucket) + {id};
    hide Rows, InState, Change;
    InStateOfNew(db, after, bucket, id, Pending);
    InStateOfNew(db, after, bucket, id, Copying);
    InStateOfNew(db, after, bucket, id, Failed);
    InStateOfNew(db, after, bucket, id, SourceMissing);
    InStateOfNew(db, after, bucket, id, Verified);
  }

  lemma InStateOfNew(db: Database, after: Database, bucket: string, id: Id, state: RequestState)
    requires id !in db.requests && after.requests.Keys == db.requests.Keys + {id}
    requires forall other | other in db.requests :: after.requests[other] == db.requests[other]
    requires after.requests[id].source.sourceBucket == bucket
    ensures Change(db, after, bucket, state) == One(state == after.requests[id].state)
  {
    OneMoves(InState(db, bucket, state), InState(after, bucket, state), id);
  }

  /** What does not touch the rows of the bucket moves nothing. */
  lemma NothingMoves(db: Database, after: Database, bucket: string, now: int)
    requires Rows(after, bucket) == Rows(db, bucket)
    requires forall id | id in Rows(db, bucket) :: after.requests[id] == db.requests[id]
    ensures Gained(db, after, bucket, now) == Flow(0, 0, 0, 0, 0, 0)
  {
    assert InState(after, bucket, Pending) == InState(db, bucket, Pending);
    assert InState(after, bucket, Copying) == InState(db, bucket, Copying);
    assert InState(after, bucket, Failed) == InState(db, bucket, Failed);
    assert InState(after, bucket, SourceMissing) == InState(db, bucket, SourceMissing);
    assert InState(after, bucket, Verified) == InState(db, bucket, Verified);
    hide Rows, InState, QueueMetrics, Gained;
    GainedIs(db, after, bucket, now);
  }

  // ----- what the health verdict means -----

  /** A row that raises no alarm: protected, or on its way and finalized at most fifteen minutes ago. */
  predicate OnTrack(db: Database, id: Id, now: int) requires id in db.requests {
    var r := db.requests[id];
    || Covered(db, id)
    || ((r.state.Pending? || (r.state.Copying? && r.leaseUntil.Some? && r.leaseUntil.value > now))
        && r.source.finalizedAt >= now - OVERDUE_MS)
  }

  lemma {:induction false} OldestBounds(db: Database, ids: set<Id>, now: int)
    requires ids <= db.requests.Keys
    ensures OldestAgeSeconds(db, ids, now) > 900 ==>
      exists id :: id in ids && db.requests[id].source.finalizedAt < now - OVERDUE_MS
  {
    if ids != {} {
      var id :| id in ids && OldestAgeSeconds(db, ids, now) ==
        (var rest := OldestAgeSeconds(db, ids - {id}, now);
         var age := Age(db.requests[id].source.finalizedAt, now);
         if age > rest then age else rest);
      OldestBounds(db, ids - {id}, now);
      if Age(db.requests[id].source.finalizedAt, now) > 900 {
        assert db.requests[id].source.finalizedAt < now - OVERDUE_MS;
      }
    }
  }

  /** The rows that some alarm counts. */
  function Alarms(db: Database, bucket: string, now: int): set<Id> {
    InState(db, bucket, Failed) + InState(db, bucket, SourceMissing) + ExhaustedRows(db, bucket)
    + ExpiredRows(db, bucket, now) + InvalidLeaseRows(db, bucket) + InvalidVerifiedRows(db, bucket)
    + OverdueRows(db, bucket, now)
  }

  /** The age threshold adds nothing to the overdue count. */
  lemma UnhealthyIffAlarms(db: Database, bucket: string, now: int)
    ensures OperationallyUnhealthy(QueueMetrics(db, bucket, now)) <==> Alarms(db, bucket, now) != {}
  {
    OldestBounds(db, Uncovered(db, bucket), now);
    if OldestAgeSeconds(db, Uncovered(db, bucket), now) > 900 {
      var id :| id in Uncovered(db, bucket) && db.requests[id].source.finalizedAt < now - OVERDUE_MS;
      assert id in OverdueRows(db, bucket, now);
      assert id in Alarms(db, bucket, now);
    }
    var m := QueueMetrics(db, bucket, now);
    assert m.overdue == |OverdueRows(db, bucket, now)|;
  }

  lemma AlarmIff(db: Database, bucket: string, id: Id, now: int)
    requires id in Rows(db, bucket) && RowOk(db.requests[id])
    ensures id in Alarms(db, bucket, now) <==> !OnTrack(db, id, now)
  {
    var r := db.requests[id];
    if r.state.Copying? || r.state.Pending? {
      assert id in Uncovered(db, bucket);
    }
  }

  /** The monitor is silent exactly when every request of the queue is on track. */
  lemma HealthyIffOnTrack(cfg: Config, s: State, now: int)
    requires Reachable(cfg, s)
    ensures !OperationallyUnhealthy(QueueMetrics(s.db, cfg.bucket, now)) <==>
      forall id | id in Rows(s.db, cfg.bucket) :: OnTrack(s.db, id, now)
  {
    ReachableRows(cfg, s);
    UnhealthyIffAlarms(s.db, cfg.bucket, now);
    AlarmsAreOffTrack(s.db, cfg.bucket, now);
  }

  lemma AlarmsAreOffTrack(db: Database, bucket: string, now: int)
    requires RowsOk(db)
    ensures Alarms(db, bucket, now) == {} <==> forall id | id in Rows(db, bucket) :: OnTrack(db, id, now)
  {
    forall id | id in Rows(db, bucket) ensures id in Alarms(db, bucket, now) <==> !OnTrack(db, id, now) {
      AlarmIff(db, bucket, id, now);
    }
    AlarmsAreRows(db, bucket, now);
  }

  lemma AlarmsAreRows(db: Database, bucket: string, now: int)
    ensures Alarms(db, bucket, now) <= Rows(db, bucket)
  {
  }
}
