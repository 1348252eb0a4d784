/**
 * The code of one process (src/backup/backup.repository.ts, src/backup/backup.runner.ts and the drain
 * loop of src/backup/backup.operations.ts) against a shared world in which every other process, the
 * clock and the signals may act at each `await`.  Every storage answer, clock reading, fresh id and
 * interleaving is arbitrary, so what the methods ensure holds for all of them; and every step the
 * code takes is one enabled event of the protocol, so the world always remains a reachable state.
 */
module Runner {
  import opened Wrappers
  import opened Tables
  import opened Execution
  import opened Repository
  import opened Protocol
  import opened Safety
  import opened Fencing
  import opened Lease
  import opened Captures
  import opened Witness

  const BATCH_LIMIT := 100

  // ----- counting the claims of one process -----

  predicate ClaimBy(cfg: Config, s: State, e: Event, w: ProcId) {
    && Enabled(cfg, s, e) && e.Act? && e.w == w && e.a.Cas?
    && Wins(s.db, cfg.bucket, s.procs[w].phase.rest[0], s.procs[w].phase.now)
  }

  ghost function Claims(cfg: Config, run: seq<Event>, w: ProcId): nat {
    if run == [] then 0
    else
      var front := run[..|run| - 1];
      Claims(cfg, front, w) + (if ClaimBy(cfg, After(cfg, INIT, front), run[|run| - 1], w) then 1 else 0)
  }

  /** The events that are not this process's own steps, and do not end it. */
  predicate Foreign(e: Event, w: ProcId) {
    !(e.Act? && e.w == w) && !(e.Crash? && e.w == w) && !(e.Spawn? && e.w == w)
  }

  /** A lone process: time passes, signals arrive, requests are enqueued, and the source changes. */
  predicate Ambience(e: Event) {
    e.Tick? || e.Signal? || e.Enqueue? || e.Overwrite? || e.Delete?
  }

  /** Nothing happened to the tables but that requests were enqueued. */
  predicate OnlyEnqueued(d: Database, e: Database) {
    && e.generations == d.generations
    && forall id | id in d.requests :: id in e.requests && e.requests[id] == d.requests[id]
  }

  /** Resting after a failure with this code, unless it has been verified. */
  predicate RestsWith(db: Database, rid: Id, code: Code) {
    && rid in db.requests
    && var r := db.requests[rid];
    && (r.state.Verified? ||
        (Resting(r) && r.failureCode == Some(code) && r.leaseOwner.None? &&
         (r.state.SourceMissing? <==> code.NoSource?)))
  }

  datatype Outcome = Drained | Verified(rid: Id, gid: Id) | Failed(rid: Id, code: Code)

  class World {
    const cfg: Config
    const database: BackupDatabase
    var state: State
    ghost var trace: seq<Event>

    ghost predicate Valid()
      reads this, database
    {
      state == After(cfg, INIT, trace) && database.Value() == state.db
    }

    /** The process is alive in a consistent world and has reached the given phase. */
    ghost predicate At(w: ProcId, phase: Phase)
      reads this, database
    {
      Valid() && w in state.procs && state.procs[w].phase == phase
    }

    constructor (cfg: Config)
      ensures Valid() && fresh(database) && this.cfg == cfg && state == INIT && trace == []
    {
      this.cfg := cfg;
      database := new BackupDatabase();
      state := INIT;
      trace := [];
    }

    // ----- the environment -----

    method Do(e: Event)
      requires Valid()
      modifies this, database
      ensures Valid() && trace == old(trace) + [e] && state == Step(cfg, old(state), e)
    {
      state := Step(cfg, state, e);
      trace := trace + [e];
      assert trace[..|trace| - 1] == old(trace);
      database.requests, database.generations := state.db.requests, state.db.generations;
    }

    /** An `await`: any number of foreign events, or only ambient ones if the process is alone. */
    method Yield(w: ProcId, alone: bool)
      requires Valid() && w in state.procs
      modifies this, database
      ensures At(w, old(state.procs[w].phase))
      ensures old(trace) <= trace && Claims(cfg, trace, w) == Claims(cfg, old(trace), w)
      ensures old(state.issued) <= state.issued
      ensures alone ==> OnlyEnqueued(old(state.db), state.db)
    {
      var batch: seq<Event> := *;
      var i := 0;
      while i < |batch|
        invariant At(w, old(state.procs[w].phase))
        invariant old(trace) <= trace && Claims(cfg, trace, w) == Claims(cfg, old(trace), w)
        invariant old(state.issued) <= state.issued
        invariant alone ==> OnlyEnqueued(old(state.db), state.db)
      {
        if Foreign(batch[i], w) && (alone ==> Ambience(batch[i])) {
          ForeignKeeps(cfg, state, batch[i], w);
          ClaimsAppend(cfg, trace, batch[i], w);
          Do(batch[i]);
        }
        i := i + 1;
      }
    }

    /** One step of the process itself. */
    method Own(w: ProcId, a: Action)
      requires Valid() && w in state.procs && ActionReady(cfg, state, state.procs[w], a)
      modifies this, database
      ensures At(w, NextPhase(cfg, old(state), old(state.procs[w]), a))
      ensures state == Perform(cfg, old(state), w, a)
      ensures old(trace) <= trace
      ensures Claims(cfg, trace, w) == Claims(cfg, old(trace), w) +
        (if a.Cas? && Wins(old(state.db), cfg.bucket, old(state.procs[w].phase).rest[0], old(state.procs[w].phase).now)
         then 1 else 0)
    {
      ClaimsAppend(cfg, trace, Act(w, a), w);
      Do(Act(w, a));
    }

    /** The same of a step whose statement the database has just executed. */
    method Executed(w: ProcId, a: Action)
      requires state == After(cfg, INIT, trace) && w in state.procs && ActionReady(cfg, state, state.procs[w], a)
      requires database.Value() == NextDb(cfg, state, state.procs[w], a)
      modifies this
      ensures At(w, NextPhase(cfg, old(state), old(state.procs[w]), a))
      ensures state == Perform(cfg, old(state), w, a)
      ensures old(trace) <= trace
      ensures Claims(cfg, trace, w) == Claims(cfg, old(trace), w) +
        (if a.Cas? && Wins(old(state.db), cfg.bucket, old(state.procs[w].phase).rest[0], old(state.procs[w].phase).now)
         then 1 else 0)
    {
      ClaimsAppend(cfg, trace, Act(w, a), w);
      state := Perform(cfg, state, w, a);
      trace := trace + [Act(w, a)];
      assert trace[..|trace| - 1] == old(trace);
    }

    method ReadClock() returns (c: int)
      ensures Reading(cfg, state.clock, c)
    {
      c := *;
      if !Reading(cfg, state.clock, c) {
        c := state.clock;
      }
    }

    /** `control.canClaim`, and the instant the clock showed. */
    method CanClaimNow(w: ProcId) returns (allowed: bool, c: int)
      requires w in state.procs
      ensures Reading(cfg, state.clock, c) && (allowed <==> CanClaim(state.procs[w].control, c))
    {
      c := ReadClock();
      var control := new ExecutionControl.Of(state.procs[w].control);
      allowed := control.CanClaimNow(c);
      assert CanClaim(control.Value(), c) <==> allowed;
    }

    /** `randomUUID`: any number never issued before. */
    method FreshUuid() returns (u: Uuid)
      ensures u !in state.issued
    {
      u := *;
      if u in state.issued {
        ghost var v := FreshExists(state.issued);
        assert v !in state.issued;
        u :| u !in state.issued;
      }
    }

    method AnyAmbientCode() returns (code: Code)
      ensures Ambient(code)
    {
      code := *;
      if !Ambient(code) {
        code := Unknown;
      }
    }

    // ----- one storage or database call each: the environment acts, then the answer comes -----

    /** The compare-and-set of `claim`; `won` is whether its count is one. */
    method CompareAndSet(w: ProcId, now: int, rest: seq<Id>, owner: Uuid, alone: bool) returns (won: bool)
      requires At(w, Issued(now, rest, owner)) && rest != []
      modifies this, database
      ensures At(w, if won then Won(rest[0], owner, now) else Trying(now, rest[1..]))
      ensures old(trace) <= trace && Claims(cfg, trace, w) == Claims(cfg, old(trace), w) + (if won then 1 else 0)
      ensures won ==> !VerifiedIn(old(state.db), rest[0])
      ensures alone && rest[0] in old(state.db).requests ==> (won <==> Wins(old(state.db), cfg.bucket, rest[0], now))
      ensures alone && !won ==> OnlyEnqueued(old(state.db), state.db)
    {
      Yield(w, alone);
      VerifiedStays(cfg, old(trace), trace);
      var count := database.ClaimUpdate(rest[0], cfg.bucket, owner, now);
      won := count == 1;
      Executed(w, Cas);
    }

    /** The separate re-read of the row that was won. */
    method Reread(w: ProcId, rid: Id, owner: Uuid, now: int, alone: bool) returns (request: Request)
      requires At(w, Won(rid, owner, now))
      modifies this, database
      ensures At(w, Held(rid, owner, now, request, Fresh))
      ensures old(trace) <= trace && Claims(cfg, trace, w) == Claims(cfg, old(trace), w)
    {
      Yield(w, alone);
      RowsRemain(cfg, trace, state, w);
      request := state.db.requests[rid];
      Own(w, Action.Reread);
    }

    /** The process is at the given stage of its claim. */
    ghost predicate Working(w: ProcId)
      reads this, database
    {
      Valid() && w in state.procs && state.procs[w].phase.Held?
    }

    /** Any call may throw a code of its own. */
    method Throws(w: ProcId) returns (code: Code)
      requires Working(w) && !state.procs[w].phase.work.Failing?
      modifies this, database
      ensures Raisable(cfg, code)
      ensures At(w, old(state.procs[w].phase).(work := Failing(code)))
      ensures old(trace) <= trace && Claims(cfg, trace, w) == Claims(cfg, old(trace), w)
    {
      code := AnyAmbientCode();
      Own(w, Throw(code));
    }

    /** HEAD of the source object: the version that is current when the answer comes. */
    method HeadSource(w: ProcId, key: string) returns (r: Result<Identity, Code>)
      requires Working(w) && (state.procs[w].phase.work.Fresh? || state.procs[w].phase.work.Fetched?)
      requires key == state.procs[w].phase.request.source.sourceKey
      modifies this, database
      ensures r.Err? ==> Raisable(cfg, r.error)
      ensures r.Ok? ==> key in state.current && state.current[key] == r.value
      ensures old(trace) <= trace && Claims(cfg, trace, w) == Claims(cfg, old(trace), w)
      ensures var ph := old(state.procs[w].phase);
        At(w, ph.(work :=
          if r.Err? then Failing(r.error)
          else if ph.work.Fresh? then AfterFirstHead(ph.request, r.value)
          else AfterSecondHead(ph.work.before, ph.work.bytes, r.value)))
    {
      Yield(w, false);
      var fails: bool := *;
      if fails {
        var code := Throws(w);
        return Err(code);
      }
      r := HeadAnswer(state, key);
      if state.procs[w].phase.work.Fresh? {
        Own(w, HeadBefore);
      } else {
        Own(w, HeadAfter);
      }
    }

    /** GET with `If-Match`: the bytes of the current version, if it still has the ETag. */
    method ReadSource(w: ProcId, key: string, etag: string) returns (r: Result<Bytes, Code>)
      requires Working(w) && state.procs[w].phase.work.Headed?
      requires key == state.procs[w].phase.request.source.sourceKey && etag == state.procs[w].phase.work.before.etag
      modifies this, database
      ensures r.Err? ==> Raisable(cfg, r.error)
      ensures r.Ok? ==> r == GetAnswer(state, key, etag)
      ensures old(trace) <= trace && Claims(cfg, trace, w) == Claims(cfg, old(trace), w)
      ensures var ph := old(state.procs[w].phase);
        At(w, ph.(work := if r.Err? then Failing(r.error) else Fetched(ph.work.before, r.value)))
    {
      Yield(w, false);
      var fails: bool := *;
      if fails {
        var code := Throws(w);
        return Err(code);
      }
      r := GetAnswer(state, key, etag);
      Own(w, Get);
    }

    method CreateGeneration(w: ProcId, rid: Id) returns (r: Result<(Id, Generation), Code>)
      requires Working(w) && state.procs[w].phase.work.Captured? && state.procs[w].phase.rid == rid
      modifies this, database
      ensures r.Err? ==> Raisable(cfg, r.error)
      ensures old(trace) <= trace && Claims(cfg, trace, w) == Claims(cfg, old(trace), w)
      ensures var ph := old(state.procs[w].phase);
        At(w, ph.(work := if r.Err? then Failing(r.error)
                          else Generated(Capture(ph.work.before, ph.work.bytes, r.value.0, r.value.1))))
    {
      Yield(w, false);
      var gid: Id := *;
      if gid in state.db.generations {
        var code := Throws(w);
        return Err(code);
      }
      var capture := FreshUuid();
      var at := ReadClock();
      database.CreateGeneration(gid, rid, capture, cfg.destination, at);
      Executed(w, Create(gid, capture, at));
      r := Ok((gid, NewGeneration(rid, capture, cfg.destination, at)));
    }

    /**
     * A conditional PUT.  The key was absent; what lands there may differ from the bytes sent, and the
     * answer may be lost although the object was, or will be, written.
     */
    method PutNew(w: ProcId, key: Key, bytes: Bytes) returns (r: Result<(), Code>)
      requires Working(w) && (state.procs[w].phase.work.Generated? || state.procs[w].phase.work.Restored?)
      requires (key, bytes) ==
        Payload(cfg, state.procs[w].phase,
                if state.procs[w].phase.work.Generated? then Put(true, bytes) else PutManifest(true, bytes))
      modifies this, database
      ensures old(trace) <= trace && Claims(cfg, trace, w) == Claims(cfg, old(trace), w)
      ensures r.Err? ==> Raisable(cfg, r.error)
      ensures r.Ok? ==> key in state.store
      ensures var ph := old(state.procs[w].phase);
        At(w, ph.(work := if r.Err? then Failing(r.error)
                          else if ph.work.Generated? then Uploaded(ph.work.c) else Sealed(ph.work.c, ph.work.at)))
    {
      Yield(w, false);
      var fails: bool := *;
      if fails {
        var code := Throws(w);
        return Err(code);
      }
      var acknowledged: bool := *;
      var landed: Bytes := *;
      ReachableHere(cfg, trace, state);
      PutIsNeverRefused(cfg, state, w);
      if state.procs[w].phase.work.Generated? {
        Own(w, Put(acknowledged, landed));
      } else {
        Own(w, PutManifest(acknowledged, landed));
      }
      r := if acknowledged then Ok(()) else Err(Unavailable);
    }

    /** GET of a destination object, and the instant the clock shows once it has arrived. */
    method ReadBackup(w: ProcId, key: Key) returns (r: Result<Bytes, Code>, at: int)
      requires Working(w) && (state.procs[w].phase.work.Uploaded? || state.procs[w].phase.work.Sealed?)
      requires var c := state.procs[w].phase.work.c;
        key == if state.procs[w].phase.work.Uploaded? then c.gen.backupKey else c.gen.manifestKey
      modifies this, database
      ensures old(trace) <= trace && Claims(cfg, trace, w) == Claims(cfg, old(trace), w)
      ensures r.Err? ==> Raisable(cfg, r.error)
      ensures r.Ok? ==> key in state.store && r.value == state.store[key]
      ensures var ph := old(state.procs[w].phase);
        At(w, ph.(work := if r.Err? then Failing(r.error)
                          else if ph.work.Uploaded? then AfterReadBack(cfg, ph.work.c, r.value, at)
                          else AfterManifest(cfg, ph.request.source, ph.work.c, ph.work.at, r.value)))
    {
      Yield(w, false);
      at := ReadClock();
      var fails: bool := *;
      if fails {
        var code := Throws(w);
        return Err(code), at;
      }
      r := BackupAnswer(state, key);
      if state.procs[w].phase.work.Uploaded? {
        Own(w, ReadBack(at));
      } else {
        Own(w, ReadManifest);
      }
    }

    /** The `verify` transaction.  Its answer may be lost too. */
    method VerifyRequest(w: ProcId, rid: Id, gid: Id, e: Evidence) returns (r: Result<(), Code>)
      requires Working(w) && state.procs[w].phase.work.Confirmed?
      requires state.procs[w].phase.rid == rid && state.procs[w].phase.work.c.gid == gid
      requires e == EvidenceOf(cfg, state.procs[w].phase.work.c, state.procs[w].phase.work.at)
      modifies this, database
      ensures old(trace) <= trace && Claims(cfg, trace, w) == Claims(cfg, old(trace), w)
      ensures r.Ok? ==> At(w, Idle) && Evidences(state.db, rid, gid)
                        && WithEvidence(state.db.generations[gid], e) == state.db.generations[gid]
      ensures r.Err? ==> At(w, old(state.procs[w].phase).(work := Failing(r.error)))
      ensures r.Err? ==> Raisable(cfg, r.error)
    {
      Yield(w, false);
      var now := ReadClock();
      var acknowledged: bool := *;
      ReachableHere(cfg, trace, state);
      CommitOutcome(cfg, state, w, Commit(now, acknowledged));
      var verdict := database.VerifyTransaction(rid, state.procs[w].phase.request.leaseOwner, gid, e, now);
      Executed(w, Commit(now, acknowledged));
      match verdict
      case Lost => r := Err(LeaseLost);
      case Mismatch => r := Err(GenerationMismatch);
      case Committed => r := if acknowledged then Ok(()) else Err(Unknown);
    }

    /** The `fail` update.  Within the clock margin it finds the row, unless a commit went through unheard. */
    method FailRequest(w: ProcId, rid: Id, code: Code)
      requires Working(w) && state.procs[w].phase.work == Failing(code) && state.procs[w].phase.rid == rid
      modifies this, database
      ensures At(w, Idle)
      ensures WellTimed(cfg) ==> RestsWith(state.db, rid, code)
      ensures old(trace) <= trace && Claims(cfg, trace, w) == Claims(cfg, old(trace), w)
    {
      Yield(w, false);
      var now := ReadClock();
      ReachableHere(cfg, trace, state);
      if WellTimed(cfg) { FailOutcome(cfg, state, w, now); }
      var request := state.procs[w].phase.request;
      database.FailUpdate(rid, request.leaseOwner, request.attempts, code, now);
      Executed(w, FailUpdate(now));
    }
  }

  /**
   * The codes a claim can fail with.  The two that would betray a broken protocol never occur, and
   * with clocks within the margin neither does the loss of the lease.
   */
  predicate Raisable(cfg: Config, code: Code) {
    !code.GenerationExists? && !code.GenerationMismatch? && (WellTimed(cfg) ==> !code.LeaseLost?)
  }

  lemma ReachableHere(cfg: Config, trace: seq<Event>, s: State)
    requires s == After(cfg, INIT, trace)
    ensures Reachable(cfg, s)
  {
  }

  /**
   * What a commit does and what the committer learns: it verifies a request that was not verified, with
   * this very evidence, or it changes nothing; within the clock margin it always succeeds.
   */
  lemma CommitOutcome(cfg: Config, s: State, w: ProcId, a: Action)
    requires Reachable(cfg, s) && w in s.procs && ActionReady(cfg, s, s.procs[w], a) && a.Commit?
    ensures var ph, t := s.procs[w].phase, Perform(cfg, s, w, a);
      var verdict := VerifyVerdict(s.db, ph.rid, ph.request.leaseOwner, ph.work.c.gid, a.now);
      && !verdict.Mismatch? && (WellTimed(cfg) ==> verdict.Committed?)
      && (if verdict.Committed? then
            && !VerifiedIn(s.db, ph.rid) && VerifiedIn(t.db, ph.rid) && Evidences(t.db, ph.rid, ph.work.c.gid)
            && var g := t.db.generations[ph.work.c.gid];
               WithEvidence(g, EvidenceOf(cfg, ph.work.c, ph.work.at)) == g
          else t.db == s.db)
  {
    HolderFacts(cfg, s, w);
    if WellTimed(cfg) {
      var run :| s == After(cfg, INIT, run);
      RunKeepsLease(cfg, run);
      CommitSucceeds(cfg, s, w, a);
    }
  }

  /** What `fail` does within the clock margin. */
  lemma FailOutcome(cfg: Config, s: State, w: ProcId, now: int)
    requires WellTimed(cfg) && Reachable(cfg, s) && w in s.procs && ActionReady(cfg, s, s.procs[w], FailUpdate(now))
    ensures RestsWith(NextDb(cfg, s, s.procs[w], FailUpdate(now)), s.procs[w].phase.rid, s.procs[w].phase.work.code)
  {
    var run :| s == After(cfg, INIT, run);
    RunKeepsLease(cfg, run);
    assert Leased(s, s.procs[w].phase) && OwnSnapshot(s.procs[w].phase);
  }

  /** Verified once, verified at every later moment of the trace; and the clock does not run back. */
  lemma VerifiedStays(cfg: Config, early: seq<Event>, later: seq<Event>)
    requires early <= later
    ensures forall id | VerifiedIn(After(cfg, INIT, early).db, id) :: VerifiedIn(After(cfg, INIT, later).db, id)
    ensures After(cfg, INIT, early).clock <= After(cfg, INIT, later).clock
  {
    var rest := later[|early|..];
    assert later == early + rest;
    AfterConcat(cfg, INIT, early, rest);
    RunKeepsInv(cfg, INIT, early);
    RunExtends(cfg, After(cfg, INIT, early), rest);
  }

  lemma ClaimsAppend(cfg: Config, run: seq<Event>, e: Event, w: ProcId)
    ensures Claims(cfg, run + [e], w) ==
      Claims(cfg, run, w) + (if ClaimBy(cfg, After(cfg, INIT, run), e, w) then 1 else 0)
  {
    assert (run + [e])[..|run + [e]| - 1] == run;
  }

  lemma ForeignKeeps(cfg: Config, s: State, e: Event, w: ProcId)
    requires Foreign(e, w) && w in s.procs
    ensures w in Step(cfg, s, e).procs && Step(cfg, s, e).procs[w].phase == s.procs[w].phase
    ensures s.issued <= Step(cfg, s, e).issued
    ensures Ambience(e) ==> OnlyEnqueued(s.db, Step(cfg, s, e).db)
  {
  }

  // ----- the candidate query -----

  /** Any row that no other one precedes. */
  method EarliestOf(db: Database, ids: set<Id>) returns (id: Id)
    requires ids != {} && ids <= db.requests.Keys
    ensures id in ids && forall j | j in ids :: db.requests[id].source.finalizedAt <= db.requests[j].source.finalizedAt
  {
    ghost var witnessed := EarliestExists(db, ids);
    id :| id in ids && forall j | j in ids :: db.requests[id].source.finalizedAt <= db.requests[j].source.finalizedAt;
  }

  /** The query always has an answer; where `finalizedAt` ties, any order may come out. */
  method FindMany(db: Database, bucket: string, now: int) returns (cands: seq<Id>)
    ensures CandidateList(db, bucket, now, cands)
  {
    var remaining := EligibleIds(db, bucket, now);
    ghost var all := remaining;
    cands := [];
    while remaining != {} && |cands| < CANDIDATE_LIMIT
      invariant |cands| <= CANDIDATE_LIMIT && Earliest(db, all, cands, remaining)
      decreases remaining
    {
      var id := EarliestOf(db, remaining);
      cands := cands + [id];
      remaining := remaining - {id};
    }
  }

  // ----- claim -----

  /** A row that is eligible and earlier than every other eligible row. */
  predicate EarliestEligible(db: Database, bucket: string, now: int, id: Id) {
    && Wins(db, bucket, id, now)
    && forall j | j in db.requests && Eligible(db.requests[j], bucket, now) ::
         db.requests[id].source.finalizedAt <= db.requests[j].source.finalizedAt
  }

  /** The process's own clock can show an instant at which it may not claim. */
  ghost predicate ToldToStop(cfg: Config, s: State, w: ProcId) {
    w in s.procs && exists c :: Reading(cfg, s.clock, c) && !CanClaim(s.procs[w].control, c)
  }

  /** Nothing in the table can be claimed. */
  predicate NothingEligible(db: Database, bucket: string, now: int) {
    forall id | id in db.requests :: !Eligible(db.requests[id], bucket, now)
  }

  /** The process has re-read the request it won. */
  ghost predicate HasClaim(world: World, w: ProcId, rid: Id, request: Request)
    reads world, world.database
  {
    && world.Valid() && w in world.state.procs
    && world.state.procs[w].phase.Held?
    && world.state.procs[w].phase.rid == rid
    && world.state.procs[w].phase.request == request
    && world.state.procs[w].phase.work.Fresh?
  }

  /** One candidate: generate an owner, run the compare-and-set, and re-read the row if it won. */
  method TryCandidate(world: World, w: ProcId, c: int, now: int, rest: seq<Id>, alone: bool)
    returns (request: Option<Request>)
    requires world.At(w, Trying(now, rest)) && rest != []
    requires Reading(world.cfg, world.state.clock, c) && CanClaim(world.state.procs[w].control, c)
    modifies world, world.database
    ensures old(world.trace) <= world.trace
    ensures Claims(world.cfg, world.trace, w) ==
      Claims(world.cfg, old(world.trace), w) + (if request.Some? then 1 else 0)
    ensures request.None? ==> world.At(w, Trying(now, rest[1..]))
    ensures request.Some? ==> HasClaim(world, w, rest[0], request.value) && !VerifiedIn(old(world.state.db), rest[0])
    ensures alone && rest[0] in old(world.state.db).requests ==>
      (request.Some? <==> Wins(old(world.state.db), world.cfg.bucket, rest[0], now))
    ensures alone && request.None? ==> OnlyEnqueued(old(world.state.db), world.state.db)
  {
    var owner := world.FreshUuid();
    world.Own(w, Issue(c, owner));
    var won := world.CompareAndSet(w, now, rest, owner, alone);
    if won {
      var row := world.Reread(w, rest[0], owner, now, alone);
      request := Some(row);
    } else {
      request := None;
    }
  }

  /** The candidates in order, until one is won, all are lost, or `canClaim` says no. */
  method TryCandidates(world: World, w: ProcId, now: int, cands: seq<Id>, alone: bool)
    returns (request: Option<Request>, rid: Id, refused: bool)
    requires world.At(w, Trying(now, cands))
    requires CandidateList(world.state.db, world.cfg.bucket, now, cands)
    modifies world, world.database
    ensures old(world.trace) <= world.trace
    ensures Claims(world.cfg, world.trace, w) ==
      Claims(world.cfg, old(world.trace), w) + (if request.Some? then 1 else 0)
    ensures request.None? ==> world.At(w, Idle)
    ensures request.Some? ==>
      !refused && HasClaim(world, w, rid, request.value) && !VerifiedIn(old(world.state.db), rid)
    ensures alone && request.Some? ==> cands != [] && rid == cands[0]
    ensures refused ==> ToldToStop(world.cfg, world.state, w)
    ensures cands == [] ==> world.state.db == old(world.state.db)
    ensures alone && request.None? && !refused ==> cands == []
  {
    var rest := cands;
    var c := world.ReadClock();
    rid, refused := 0, false;
    while rest != []
      invariant world.At(w, Trying(now, rest)) && !refused
      invariant old(world.trace) <= world.trace
      invariant Claims(world.cfg, world.trace, w) == Claims(world.cfg, old(world.trace), w)
      invariant alone ==> OnlyEnqueued(old(world.state.db), world.state.db) && rest == cands
      invariant cands == [] ==> world.state.db == old(world.state.db)
      decreases |rest|
    {
      var allowed;
      allowed, c := world.CanClaimNow(w);
      if !allowed {
        world.Own(w, GiveUp(c));
        return None, rid, true;
      }
      rid := rest[0];
      VerifiedStays(world.cfg, old(world.trace), world.trace);
      request := TryCandidate(world, w, c, now, rest, alone);
      if request.Some? {
        return;
      }
      rest := rest[1..];
    }
    world.Own(w, GiveUp(c));
    request := None;
  }

  /**
   * `BackupRepository.claim`: take the candidates in order until a compare-and-set wins.  `refused`
   * tells that `canClaim` said no, at the start or between two candidates; `now` is read as it starts, and
   * `listed` is the database the candidates were listed from.
   *
   * A lone process, while requests keep arriving, takes an eligible request with minimal `finalizedAt`
   * of those listed, and comes back empty-handed, unless it was told to stop, only if none is eligible.
   */
  method Claim(world: World, w: ProcId, alone: bool)
    returns (request: Option<Request>, rid: Id, now: int, refused: bool, ghost listed: Database)
    requires world.At(w, Idle)
    modifies world, world.database
    ensures old(world.trace) <= world.trace && Reading(world.cfg, old(world.state.clock), now)
    ensures Claims(world.cfg, world.trace, w) ==
      Claims(world.cfg, old(world.trace), w) + (if request.Some? then 1 else 0)
    ensures request.None? ==> world.At(w, Idle)
    ensures request.Some? ==>
      !refused && HasClaim(world, w, rid, request.value) && !VerifiedIn(old(world.state.db), rid)
    ensures refused ==> ToldToStop(world.cfg, world.state, w)
    ensures alone ==> OnlyEnqueued(old(world.state.db), listed)
    ensures alone && request.Some? ==> EarliestEligible(listed, world.cfg.bucket, now, rid)
    ensures alone && request.None? && !refused ==>
      world.state.db == listed && NothingEligible(listed, world.cfg.bucket, now)
  {
    listed := world.state.db;
    now := world.ReadClock();
    var allowed, c := world.CanClaimNow(w);
    if !allowed {
      return None, 0, now, true, listed;
    }
    world.Own(w, Begin(c, now));
    world.Yield(w, alone);
    listed := world.state.db;
    var cands := FindMany(world.state.db, world.cfg.bucket, now);
    world.Own(w, List(cands));
    VerifiedStays(world.cfg, old(world.trace), world.trace);
    request, rid, refused := TryCandidates(world, w, now, cands, alone);
    if cands != [] {
      FirstIsEarliest(listed, world.cfg.bucket, now, cands);
    } else {
      NoneListedNoneEligible(listed, world.cfg.bucket, now, cands);
    }
  }

  lemma FirstIsEarliest(db: Database, bucket: string, now: int, cands: seq<Id>)
    requires CandidateList(db, bucket, now, cands) && cands != []
    ensures EarliestEligible(db, bucket, now, cands[0])
  {
  }

  lemma NoneListedNoneEligible(db: Database, bucket: string, now: int, cands: seq<Id>)
    requires CandidateList(db, bucket, now, cands) && cands == []
    ensures NothingEligible(db, bucket, now)
  {
  }

  lemma CapturedHere(cfg: Config, trace: seq<Event>, s: State, w: ProcId)
    requires s == After(cfg, INIT, trace) && w in s.procs && s.procs[w].phase.Held? && s.procs[w].phase.work.Captured?
    ensures var ph := s.procs[w].phase; CaptureIsVersion(s, ph.request, ph.work.before, ph.work.bytes)
  {
    RunKeepsInv(cfg, INIT, trace);
    assert PhaseOk(cfg, s, s.procs[w].phase);
  }

  lemma RowsRemain(cfg: Config, trace: seq<Event>, s: State, w: ProcId)
    requires s == After(cfg, INIT, trace) && w in s.procs && s.procs[w].phase.Won?
    ensures s.procs[w].phase.rid in s.db.requests
  {
    RunKeepsInv(cfg, INIT, trace);
    assert PhaseOk(cfg, s, s.procs[w].phase);
  }

  // ----- runOne -----

  /**
   * Of the `try`, the two HEADs and the GET between them: the bytes of the version both HEADs named, which
   * is the current one still, or it threw.
   */
  method TakeCapture(world: World, w: ProcId, rid: Id, request: Request) returns (r: Result<(Identity, Bytes), Code>)
    requires HasClaim(world, w, rid, request)
    modifies world, world.database
    ensures old(world.trace) <= world.trace
    ensures Claims(world.cfg, world.trace, w) == Claims(world.cfg, old(world.trace), w)
    ensures r.Ok? ==> world.At(w, old(world.state.procs[w].phase).(work := Captured(r.value.0, r.value.1)))
    ensures r.Ok? ==>
      && var (before, bytes) := r.value;
      && var key := request.source.sourceKey;
      && key in world.state.current && world.state.current[key] == before
      && (key, before) in world.state.versions && world.state.versions[(key, before)] == bytes
      && |bytes| == before.size
      && (request.source.expectedSize.Some? ==> request.source.expectedSize.value == before.size)
    ensures r.Err? ==> world.At(w, old(world.state.procs[w].phase).(work := Failing(r.error)))
    ensures r.Err? ==> Raisable(world.cfg, r.error)
  {
    var head := world.HeadSource(w, request.source.sourceKey);
    if head.Err? { return Err(head.error); }
    var before := head.value;
    if request.source.expectedSize.Some? && request.source.expectedSize.value != before.size {
      return Err(SizeMismatch);
    }
    var got := world.ReadSource(w, request.source.sourceKey, before.etag);
    if got.Err? { return Err(got.error); }
    var bytes := got.value;
    head := world.HeadSource(w, request.source.sourceKey);
    if head.Err? { return Err(head.error); }
    var after := head.value;
    if before.etag != after.etag || before.lastModified != after.lastModified || before.size != after.size ||
       |bytes| != before.size {
      return Err(SourceChanged);
    }
    CapturedHere(world.cfg, world.trace, world.state, w);
    r := Ok((before, bytes));
  }

  /** Of the `try`, from the generation to the read-back: the bytes are in the store, or it threw. */
  method Upload(world: World, w: ProcId, rid: Id, before: Identity, bytes: Bytes)
    returns (r: Result<(Id, Generation), Code>, verifiedAt: int)
    requires world.Working(w) && world.state.procs[w].phase.rid == rid
    requires world.state.procs[w].phase.work == Captured(before, bytes)
    modifies world, world.database
    ensures old(world.trace) <= world.trace
    ensures Claims(world.cfg, world.trace, w) == Claims(world.cfg, old(world.trace), w)
    ensures r.Ok? ==> world.At(w, old(world.state.procs[w].phase).(
      work := Restored(Capture(before, bytes, r.value.0, r.value.1), verifiedAt)))
    ensures r.Err? ==> world.At(w, old(world.state.procs[w].phase).(work := Failing(r.error)))
    ensures r.Err? ==> Raisable(world.cfg, r.error)
  {
    verifiedAt := 0;
    var created := world.CreateGeneration(w, rid);
    if created.Err? { return Err(created.error), verifiedAt; }
    var (gid, generation) := created.value;
    var put := world.PutNew(w, generation.backupKey, bytes);
    if put.Err? { return Err(put.error), verifiedAt; }
    var restored, at := world.ReadBackup(w, generation.backupKey);
    if restored.Err? { return Err(restored.error), verifiedAt; }
    if |restored.value| != |bytes| || world.cfg.digest(restored.value) != world.cfg.digest(bytes) {
      return Err(ChecksumMismatch), verifiedAt;
    }
    r, verifiedAt := Ok((gid, generation)), at;
  }

  /** The rest of the `try`: write the manifest, read it back, commit. */
  method Seal(world: World, w: ProcId, rid: Id, request: Request, before: Identity, bytes: Bytes,
              gid: Id, generation: Generation, verifiedAt: int)
    returns (r: Result<Id, Code>)
    requires world.Working(w) && world.state.procs[w].phase.rid == rid
    requires world.state.procs[w].phase.request == request
    requires world.state.procs[w].phase.work == Restored(Capture(before, bytes, gid, generation), verifiedAt)
    modifies world, world.database
    ensures old(world.trace) <= world.trace
    ensures Claims(world.cfg, world.trace, w) == Claims(world.cfg, old(world.trace), w)
    ensures r.Ok? ==> world.At(w, Idle) && Evidences(world.state.db, rid, r.value)
    ensures r.Ok? ==> ManifestStored(world.cfg, world.state, world.state.db.generations[r.value])
    ensures r.Err? ==> world.At(w, old(world.state.procs[w].phase).(work := Failing(r.error)))
    ensures r.Err? ==> Raisable(world.cfg, r.error)
  {
    var sha256 := world.cfg.digest(bytes);
    var metadata := world.cfg.encode(ManifestOf(world.cfg, request.source, generation, before.size, before.etag,
                                                before.lastModified, sha256, verifiedAt));
    var put := world.PutNew(w, generation.manifestKey, metadata);
    if put.Err? { return Err(put.error); }
    var sealed, _ := world.ReadBackup(w, generation.manifestKey);
    if sealed.Err? { return Err(sealed.error); }
    if metadata != sealed.value {
      return Err(ManifestMismatch);
    }
    var verified := world.VerifyRequest(w, rid, gid,
      Evidence(before.etag, before.lastModified, |bytes|, sha256, verifiedAt));
    if verified.Err? { return Err(verified.error); }
    ReachableHere(world.cfg, world.trace, world.state);
    ManifestIsTrue(world.cfg, world.state, gid);
    r := Ok(gid);
  }

  /** The body of the `try`: it either commits, or throws a code and leaves the claim to `fail`. */
  method Copy(world: World, w: ProcId, rid: Id, request: Request) returns (r: Result<Id, Code>)
    requires HasClaim(world, w, rid, request)
    modifies world, world.database
    ensures old(world.trace) <= world.trace
    ensures Claims(world.cfg, world.trace, w) == Claims(world.cfg, old(world.trace), w)
    ensures r.Ok? ==> world.At(w, Idle) && Evidences(world.state.db, rid, r.value)
    ensures r.Err? ==> world.At(w, old(world.state.procs[w].phase).(work := Failing(r.error)))
    ensures r.Err? ==> Raisable(world.cfg, r.error)
  {
    var captured := TakeCapture(world, w, rid, request);
    if captured.Err? { return Err(captured.error); }
    var (before, bytes) := captured.value;
    var uploaded, verifiedAt := Upload(world, w, rid, before, bytes);
    if uploaded.Err? { return Err(uploaded.error); }
    r := Seal(world, w, rid, request, before, bytes, uploaded.value.0, uploaded.value.1, verifiedAt);
  }

  /**
   * `BackupRunner.runOne`.  Whatever happens meanwhile, it ends idle and in a reachable state, having
   * won exactly one claim unless the queue gave it none.  `Verified` means that the request, which was
   * not verified before, is now verified by the generation named.  `Failed` carries a code that can be
   * raised and, within the clock margin, leaves the row resting with that code unless it is verified.
   * To a process that is alone while it claims, `Drained` means that nothing is eligible any more, unless
   * it was told to stop.
   */
  method RunOne(world: World, w: ProcId, alone: bool) returns (outcome: Outcome, ghost now: int)
    requires world.At(w, Idle)
    modifies world, world.database
    ensures world.At(w, Idle) && old(world.trace) <= world.trace
    ensures Claims(world.cfg, world.trace, w) ==
      Claims(world.cfg, old(world.trace), w) + (if outcome.Drained? then 0 else 1)
    ensures outcome.Verified? ==>
      && Evidences(world.state.db, outcome.rid, outcome.gid)
      && VerifiedIn(world.state.db, outcome.rid) && !VerifiedIn(old(world.state.db), outcome.rid)
    ensures outcome.Failed? ==> Raisable(world.cfg, outcome.code) && !VerifiedIn(old(world.state.db), outcome.rid)
    ensures outcome.Failed? && WellTimed(world.cfg) ==> RestsWith(world.state.db, outcome.rid, outcome.code)
    ensures Reading(world.cfg, old(world.state.clock), now)
    ensures alone && outcome.Drained? ==>
      ToldToStop(world.cfg, world.state, w) || NothingEligible(world.state.db, world.cfg.bucket, now)
  {
    var request, rid, at, refused, _ := Claim(world, w, alone);
    now := at;
    if request.None? {
      return Drained, now;
    }
    var copied := Copy(world, w, rid, request.value);
    match copied
    case Ok(gid) =>
      ReachableHere(world.cfg, world.trace, world.state);
      EvidenceMeansVerified(world.cfg, world.state, rid, gid);
      outcome := Outcome.Verified(rid, gid);
    case Err(code) =>
      world.FailRequest(w, rid, code);
      outcome := Outcome.Failed(rid, code);
  }

  // ----- operate -----

  /**
   * The drain loop of `operate` in run mode: at most a hundred claims, none after the process was told to
   * stop or its claim window closed.  `verified` counts the requests, `mine`, that became verified by the
   * runs of this loop, and `failed` the other claims.  A process that is alone while it claims, and is not
   * told to stop, ends below a hundred only when nothing in the table is eligible, at the instant `now`
   * that its last claim read.
   */
  method Operate(world: World, w: ProcId, alone: bool)
    returns (verified: nat, failed: nat, ghost mine: set<Id>, ghost now: int)
    requires world.At(w, Idle)
    modifies world, world.database
    ensures world.At(w, Idle) && old(world.trace) <= world.trace
    ensures verified + failed <= BATCH_LIMIT
    ensures Claims(world.cfg, world.trace, w) == Claims(world.cfg, old(world.trace), w) + verified + failed
    ensures |mine| == verified
    ensures forall id | id in mine :: VerifiedIn(world.state.db, id) && !VerifiedIn(old(world.state.db), id)
    ensures world.cfg.timed ==>
      old(world.state.clock) - world.cfg.early <= now <= world.state.clock + world.cfg.late
    ensures alone && verified + failed < BATCH_LIMIT ==>
      ToldToStop(world.cfg, world.state, w) || NothingEligible(world.state.db, world.cfg.bucket, now)
  {
    verified, failed, mine := 0, 0, {};
    var allowed, c := world.CanClaimNow(w);
    now := c;
    while allowed && verified + failed < BATCH_LIMIT
      invariant world.At(w, Idle) && old(world.trace) <= world.trace
      invariant verified + failed <= BATCH_LIMIT
      invariant Claims(world.cfg, world.trace, w) == Claims(world.cfg, old(world.trace), w) + verified + failed
      invariant |mine| == verified
      invariant forall id | id in mine :: VerifiedIn(world.state.db, id) && !VerifiedIn(old(world.state.db), id)
      invariant !allowed ==> ToldToStop(world.cfg, world.state, w)
      invariant old(world.state.clock) <= world.state.clock
      invariant world.cfg.timed ==>
        old(world.state.clock) - world.cfg.early <= now <= world.state.clock + world.cfg.late
      decreases BATCH_LIMIT - (verified + failed)
    {
      ghost var before := world.trace;
      VerifiedStays(world.cfg, old(world.trace), before);
      var outcome;
      outcome, now := RunOne(world, w, alone);
      VerifiedStays(world.cfg, before, world.trace);
      if outcome.Drained? {
        break;
      }
      if outcome.Verified? {
        verified, mine := verified + 1, mine + {outcome.rid};
      } else {
        failed := failed + 1;
      }
      allowed, c := world.CanClaimNow(w);
    }
  }

  // ----- no claim once barred -----

  /** Told to stop, or past the claim window on every reading its clock can still show. */
  predicate Barred(cfg: Config, s: State, w: ProcId) {
    w in s.procs ==>
      s.procs[w].control.stopped || (cfg.timed && s.clock - cfg.early >= s.procs[w].control.claimDeadline)
  }

  predicate Pending(s: State, w: ProcId) {
    w in s.procs && s.procs[w].phase.Issued?
  }

  lemma BarredStep(cfg: Config, s: State, e: Event, w: ProcId)
    requires Barred(cfg, s, w) && !(e.Spawn? && e.w == w)
    ensures Barred(cfg, Step(cfg, s, e), w)
    ensures Pending(Step(cfg, s, e), w) ==> Pending(s, w) && !ClaimBy(cfg, s, e, w)
    ensures ClaimBy(cfg, s, e, w) ==> Pending(s, w)
  {
  }

  /**
   * Once a process is barred, whatever happens, it wins at most the one compare-and-set whose
   * statement it had already issued, and none if it had issued none.
   */
  lemma {:induction false} NoClaimOnceBarred(cfg: Config, run: seq<Event>, more: seq<Event>, w: ProcId)
    requires Barred(cfg, After(cfg, INIT, run), w)
    requires forall e | e in more :: !(e.Spawn? && e.w == w)
    ensures Claims(cfg, run + more, w) + One(Pending(After(cfg, INIT, run + more), w))
      <= Claims(cfg, run, w) + One(Pending(After(cfg, INIT, run), w))
    ensures Barred(cfg, After(cfg, INIT, run + more), w)
  {
    if more == [] {
      assert run + more == run;
    } else {
      var n := |more| - 1;
      assert run + more == (run + more[..n]) + [more[n]];
      NoClaimOnceBarred(cfg, run, more[..n], w);
      ClaimsAppend(cfg, run + more[..n], more[n], w);
      assert (run + more)[..|run + more| - 1] == run + more[..n];
      BarredStep(cfg, After(cfg, INIT, run + more[..n]), more[n], w);
    }
  }
}
