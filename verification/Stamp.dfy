/**
 * When the monitor can count a properly VERIFIED request as invalid: exactly when some clock may run
 * behind the one that stamped `finalizedAt`.
 */
module Stamp {
  import opened Tables
  import opened Protocol
  import opened Safety
  import opened Witness
  import opened Monitor

  predicate Stamped(work: Work) {
    work.Restored? || work.Sealed? || work.Confirmed?
  }

  /** No stamp precedes the finalization of its request, nor does a finalization lie in the future. */
  ghost predicate StampInv(s: State) {
    && (forall id | id in s.db.requests :: s.db.requests[id].source.finalizedAt <= s.clock)
    && (forall g | g in s.db.generations && s.db.generations[g].verifiedAt.Some? ::
          s.db.generations[g].requestId in s.db.requests &&
          s.db.generations[g].verifiedAt.value >= s.db.requests[s.db.generations[g].requestId].source.finalizedAt)
    && (forall w | w in s.procs :: StampOk(s.procs[w].phase))
  }

  predicate StampOk(ph: Phase) {
    ph.Held? && Stamped(ph.work) ==> ph.work.at >= ph.request.source.finalizedAt
  }

  /** A stamp is the reading at the read-back, and no document was finalized after that. */
  lemma StampedWork(cfg: Config, s: State, p: Proc, a: Action)
    requires cfg.timed && cfg.early == 0 && StampOk(p.phase) && ActionReady(cfg, s, p, a)
    requires p.phase.Held? ==> p.phase.request.source.finalizedAt <= s.clock
    ensures StampOk(NextPhase(cfg, s, p, a))
  {
  }

  lemma StampedGens(cfg: Config, s: State, w: ProcId, a: Action, g: Id)
    requires cfg.timed && cfg.early == 0 && Inv(cfg, s) && StampInv(s)
    requires w in s.procs && ActionReady(cfg, s, s.procs[w], a)
    requires g in NextDb(cfg, s, s.procs[w], a).generations
    ensures var db := NextDb(cfg, s, s.procs[w], a); var gen := db.generations[g];
      gen.verifiedAt.Some? ==>
        gen.requestId in db.requests && gen.verifiedAt.value >= db.requests[gen.requestId].source.finalizedAt
  {
    ActExtends(cfg, s, s.procs[w], a);
    GenOrigin(cfg, s, s.procs[w], a, g);
    if a.Commit? {
      assert PhaseOk(cfg, s, s.procs[w].phase);
      StampedCommit(cfg, s, w, a, g);
    } else {
      hide Inv, ActionReady, NextDb, PhaseOk, GenOk;
    }
  }

  lemma StampedCommit(cfg: Config, s: State, w: ProcId, a: Action, g: Id)
    requires Inv(cfg, s) && StampInv(s) && w in s.procs && ActionReady(cfg, s, s.procs[w], a) && a.Commit?
    requires g in NextDb(cfg, s, s.procs[w], a).generations
    ensures var db := NextDb(cfg, s, s.procs[w], a); var gen := db.generations[g];
      gen.verifiedAt.Some? ==>
        gen.requestId in db.requests && gen.verifiedAt.value >= db.requests[gen.requestId].source.finalizedAt
  {
    assert PhaseOk(cfg, s, s.procs[w].phase);
    hide Inv, GenOk, WorkOk;
  }

  lemma StampAct(cfg: Config, s: State, w: ProcId, a: Action)
    requires cfg.timed && cfg.early == 0 && Inv(cfg, s) && StampInv(s)
    requires w in s.procs && ActionReady(cfg, s, s.procs[w], a)
    ensures StampInv(Perform(cfg, s, w, a))
  {
    var t := Perform(cfg, s, w, a);
    StampedSources(cfg, s, s.procs[w], a);
    assert PhaseOk(cfg, s, s.procs[w].phase);
    StampedWork(cfg, s, s.procs[w], a);
    hide Inv, ActionReady, NextDb, NextStore, NextLate, NextPhase, NextIssued;
    forall g | g in t.db.generations && t.db.generations[g].verifiedAt.Some?
      ensures t.db.generations[g].requestId in t.db.requests &&
        t.db.generations[g].verifiedAt.value >= t.db.requests[t.db.generations[g].requestId].source.finalizedAt
    {
      StampedGens(cfg, s, w, a, g);
    }
  }

  /** No action inserts a request or changes what it was enqueued with. */
  lemma StampedSources(cfg: Config, s: State, p: Proc, a: Action)
    requires ActionReady(cfg, s, p, a)
    ensures forall id | id in NextDb(cfg, s, p, a).requests ::
              id in s.db.requests && NextDb(cfg, s, p, a).requests[id].source == s.db.requests[id].source
  {
  }

  lemma StampEnvironment(cfg: Config, s: State, e: Event)
    requires cfg.timed && Inv(cfg, s) && StampInv(s) && Enabled(cfg, s, e) && !e.Act?
    ensures StampInv(Apply(cfg, s, e))
  {
    EnvironmentEffect(cfg, s, e);
    if e.Enqueue? { assert e.source.finalizedAt <= s.clock; }
    hide Inv, Enabled, Apply;
  }

  lemma StampStep(cfg: Config, s: State, e: Event)
    requires cfg.timed && cfg.early == 0 && Inv(cfg, s) && StampInv(s)
    ensures StampInv(Step(cfg, s, e))
  {
    hide Inv, StampInv, ActionReady, Perform;
    if Enabled(cfg, s, e) {
      if e.Act? { StampAct(cfg, s, e.w, e.a); } else { StampEnvironment(cfg, s, e); }
    }
  }

  lemma {:induction false} RunKeepsStamps(cfg: Config, run: seq<Event>)
    requires cfg.timed && cfg.early == 0
    ensures StampInv(After(cfg, INIT, run))
  {
    if run != [] {
      var front := run[..|run| - 1];
      RunKeepsStamps(cfg, front);
      assert Reachable(cfg, After(cfg, INIT, front));
      ReachableInv(cfg, After(cfg, INIT, front));
      StampStep(cfg, After(cfg, INIT, front), run[|run| - 1]);
    }
  }

  /** With no clock running behind, every VERIFIED request is measured and none is invalid. */
  lemma NoneInvalid(cfg: Config, s: State, now: int)
    requires cfg.timed && cfg.early == 0 && Reachable(cfg, s) && HexDigest(cfg)
    ensures var m := QueueMetrics(s.db, cfg.bucket, now);
      m.invalidVerified == 0 && m.measured == m.verified && m.unprotected == m.total - m.verified
  {
    var run :| s == After(cfg, INIT, run);
    RunKeepsStamps(cfg, run);
    MonitorAgrees(cfg, s, now);
  }

  // ----- a clock that runs behind -----

  /** The count of invalid VERIFIED requests is zero on every reachable state if and only if no clock runs behind. */
  lemma NoneInvalidIff(cfg: Config)
    requires cfg.timed && HexDigest(cfg)
    ensures cfg.early == 0 <==>
      forall s, now | Reachable(cfg, s) :: QueueMetrics(s.db, cfg.bucket, now).invalidVerified == 0
  {
    if cfg.early == 0 {
      forall s, now | Reachable(cfg, s) ensures QueueMetrics(s.db, cfg.bucket, now).invalidVerified == 0 {
        NoneInvalid(cfg, s, now);
      }
    } else {
      var at: int := 0 - cfg.early;
      var u := StampedRun(cfg, at);
      MonitorAgrees(cfg, u, 0);
      assert 0 in Rows(u.db, cfg.bucket) && !StampedInTime(u.db, 0);
      assert QueueMetrics(u.db, cfg.bucket, 0).invalidVerified != 0;
    }
  }
}
