/**
 * The monitor's columns followed over the protocol: which event moves a row from which column to which,
 * and hence what each column holds when a run is over.
 */
module Movements {
  import opened Tables
  import opened Protocol
  import opened Recovery
  import opened Monitor

  const STILL := Flow(0, 0, 0, 0, 0, 0)

  /** What leaves a column when a row is claimed. */
  function LeavesFor(state: RequestState): Flow {
    match state
    case Pending => Flow(0, -1, 1, 0, 0, 0)
    case Failed => Flow(0, 0, 1, -1, 0, 0)
    case SourceMissing => Flow(0, 0, 1, 0, -1, 0)
    case _ => STILL
  }

  /** What an action does to the columns of the bucket: three statements change a state. */
  function Moved(cfg: Config, s: State, p: Proc, a: Action): Flow
    requires ActionReady(cfg, s, p, a)
  {
    var ph := p.phase;
    match a
    case Cas =>
      if Wins(s.db, cfg.bucket, ph.rest[0], ph.now) then LeavesFor(s.db.requests[ph.rest[0]].state) else STILL
    case Commit(at, _) =>
      if VerifyVerdict(s.db, ph.rid, ph.request.leaseOwner, ph.work.c.gid, at).Committed?
      then Flow(0, 0, -1, 0, 0, 1) else STILL
    case FailUpdate(_) =>
      if !FailMatches(s.db, ph.rid, ph.request.leaseOwner) then STILL
      else if ph.work.code == NoSource then Flow(0, 0, -1, 0, 1, 0)
      else Flow(0, 0, -1, 1, 0, 0)
    case _ => STILL
  }

  /** And what an event does: only an enqueue adds a row. */
  function Brought(cfg: Config, s: State, e: Event): Flow {
    if !Enabled(cfg, s, e) then STILL
    else if e.Act? then Moved(cfg, s, s.procs[e.w], e.a)
    else if e.Enqueue? && e.source.sourceBucket == cfg.bucket then Flow(1, 1, 0, 0, 0, 0)
    else STILL
  }

  lemma ActionMoves(cfg: Config, s: State, p: Proc, a: Action, now: int)
    requires OnlyOurs(cfg, s.db) && ActionReady(cfg, s, p, a)
    ensures Gained(s.db, NextDb(cfg, s, p, a), cfg.bucket, now) == Moved(cfg, s, p, a)
  {
    hide QueueMetrics, Gained;
    var ph := p.phase;
    if a.Cas? {
      if Wins(s.db, cfg.bucket, ph.rest[0], ph.now) {
        ClaimMoves(s.db, cfg.bucket, ph.rest[0], ph.owner, ph.now, now);
      } else {
        NothingMoves(s.db, NextDb(cfg, s, p, a), cfg.bucket, now);
      }
    } else if a.Commit? {
      CommitFlows(cfg, s, p, a, now);
    } else if a.FailUpdate? {
      FailureFlows(cfg, s, p, a, now);
    } else {
      NothingMoves(s.db, NextDb(cfg, s, p, a), cfg.bucket, now);
    }
  }

  lemma CommitFlows(cfg: Config, s: State, p: Proc, a: Action, now: int)
    requires OnlyOurs(cfg, s.db) && ActionReady(cfg, s, p, a) && a.Commit?
    ensures Gained(s.db, NextDb(cfg, s, p, a), cfg.bucket, now) == Moved(cfg, s, p, a)
  {
    hide QueueMetrics, Gained;
    var ph := p.phase;
    if VerifyVerdict(s.db, ph.rid, ph.request.leaseOwner, ph.work.c.gid, a.now).Committed? {
      CommitMoves(s.db, cfg.bucket, ph.rid, ph.request.leaseOwner, ph.work.c.gid,
                  EvidenceOf(cfg, ph.work.c, ph.work.at), a.now, now);
    } else {
      NothingMoves(s.db, NextDb(cfg, s, p, a), cfg.bucket, now);
    }
  }

  lemma FailureFlows(cfg: Config, s: State, p: Proc, a: Action, now: int)
    requires OnlyOurs(cfg, s.db) && ActionReady(cfg, s, p, a) && a.FailUpdate?
    ensures Gained(s.db, NextDb(cfg, s, p, a), cfg.bucket, now) == Moved(cfg, s, p, a)
  {
    hide QueueMetrics, Gained;
    var ph := p.phase;
    if FailMatches(s.db, ph.rid, ph.request.leaseOwner) {
      FailureMoves(s.db, cfg.bucket, ph.rid, ph.request.leaseOwner, ph.request.attempts, ph.work.code, a.now, now);
    } else {
      NothingMoves(s.db, NextDb(cfg, s, p, a), cfg.bucket, now);
    }
  }

  lemma EnvironmentMoves(cfg: Config, s: State, e: Event, now: int)
    requires Enabled(cfg, s, e) && !e.Act?
    ensures Gained(s.db, Apply(cfg, s, e).db, cfg.bucket, now) == Brought(cfg, s, e)
  {
    hide QueueMetrics, Gained;
    EnvironmentEffect(cfg, s, e);
    if e.Enqueue? && e.source.sourceBucket == cfg.bucket {
      EnqueueMoves(s.db, cfg.bucket, e.id, e.source, e.now, now);
      assert Apply(cfg, s, e).db == s.db.(requests := s.db.requests[e.id := NewRequest(e.source, e.now)]);
    } else {
      NothingMoves(s.db, Apply(cfg, s, e).db, cfg.bucket, now);
    }
  }

  lemma ReachableOurs(cfg: Config, s: State)
    requires Reachable(cfg, s)
    ensures OnlyOurs(cfg, s.db)
  {
    var run :| s == After(cfg, INIT, run);
    assert After(cfg, INIT, []) == INIT;
    assert Leads(cfg, INIT, INIT);
    RunKeepsOurs(cfg, INIT, run);
  }

  /** In every reachable state every event moves the columns exactly so. */
  lemma EventMoves(cfg: Config, s: State, e: Event, now: int)
    requires Reachable(cfg, s)
    ensures Gained(s.db, Step(cfg, s, e).db, cfg.bucket, now) == Brought(cfg, s, e)
  {
    ReachableOurs(cfg, s);
    hide QueueMetrics, Gained, Moved, OnlyOurs, Reachable, ActionReady;
    if !Enabled(cfg, s, e) {
      NothingMoves(s.db, s.db, cfg.bucket, now);
    } else if e.Act? {
      ActionMoves(cfg, s, s.procs[e.w], e.a, now);
    } else {
      EnvironmentMoves(cfg, s, e, now);
    }
  }

  function Sum(a: Flow, b: Flow): Flow {
    Flow(a.total + b.total, a.pending + b.pending, a.copying + b.copying, a.failed + b.failed,
         a.missing + b.missing, a.verified + b.verified)
  }

  /** Everything the events of a run have moved. */
  ghost function Balance(cfg: Config, run: seq<Event>): Flow {
    if run == [] then STILL
    else
      var front := run[..|run| - 1];
      Sum(Balance(cfg, front), Brought(cfg, After(cfg, INIT, front), run[|run| - 1]))
  }

  /** The columns as they are answered. */
  ghost function Answered(db: Database, bucket: string, now: int): Flow {
    var m := QueueMetrics(db, bucket, now);
    Flow(m.total, m.pending, m.copying, m.failed, m.missing, m.verified)
  }

  lemma GainedIsDifference(db: Database, after: Database, bucket: string, now: int)
    ensures Answered(after, bucket, now) == Sum(Answered(db, bucket, now), Gained(db, after, bucket, now))
  {
    hide QueueMetrics;
  }

  /** After any run each column holds what the events have moved into it less what they have moved out of it. */
  lemma {:induction false} ColumnsBalance(cfg: Config, run: seq<Event>, now: int)
    ensures Answered(After(cfg, INIT, run).db, cfg.bucket, now) == Balance(cfg, run)
  {
    if run == [] {
      EmptyTable(cfg.bucket, now);
    } else {
      var front := run[..|run| - 1];
      var s := After(cfg, INIT, front);
      ColumnsBalance(cfg, front, now);
      assert Leads(cfg, INIT, s);
      hide Answered, Gained, Brought;
      EventMoves(cfg, s, run[|run| - 1], now);
      GainedIsDifference(s.db, After(cfg, INIT, run).db, cfg.bucket, now);
    }
  }

  lemma EmptyTable(bucket: string, now: int)
    ensures Answered(INIT.db, bucket, now) == STILL
  {
    assert Rows(INIT.db, bucket) == {};
    assert InState(INIT.db, bucket, Pending) == InState(INIT.db, bucket, Copying) == {};
    assert InState(INIT.db, bucket, Failed) == InState(INIT.db, bucket, SourceMissing) == {};
    assert InState(INIT.db, bucket, Verified) == {};
  }
}
