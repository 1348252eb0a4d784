/**
 * The ten-minute lease against the eight-minute process: with clocks that disagree by less than the
 * two-minute margin, no two live processes ever hold the same request, the re-read after a claim
 * returns the claimer's own token, and LEASE_LOST is never raised; with a larger disagreement, or
 * without any bound on pauses, each of the three fails on some run.
 */
module Lease {
  import opened Wrappers
  import opened Tables
  import opened Execution
  import opened Protocol
  import opened Safety
  import opened Fencing
  import opened Witness

  predicate Claiming(ph: Phase) {
    !ph.Idle?
  }

  /** The process has won the request and has not yet finished with it. */
  predicate Holds(s: State, w: ProcId, rid: Id) {
    w in s.procs && (s.procs[w].phase.Won? || s.procs[w].phase.Held?) && s.procs[w].phase.rid == rid
  }

  ghost predicate OneHolder(s: State) {
    forall v, w, rid | Holds(s, v, rid) && Holds(s, w, rid) :: v == w
  }

  /** What the re-read returned is what this process wrote. */
  predicate OwnSnapshot(ph: Phase) {
    ph.Held? ==> ph.request.leaseOwner == Some(ph.token) && ph.request.leaseUntil == Some(ph.now + LEASE_MS)
  }

  predicate NeverLost(ph: Phase) {
    ph.Held? ==> ph.work != Failing(LeaseLost)
  }

  /** The instants a live process has seen. */
  predicate Punctual(cfg: Config, s: State, p: Proc) {
    && p.control.hardAt - HARD_EXIT_MS <= s.clock <= ExitAt(p.control)
    && (Claiming(p.phase) ==> p.control.hardAt - HARD_EXIT_MS - cfg.early <= p.phase.now <= s.clock + cfg.late)
  }

  /** The row is leased to this very claim, or this claim has verified it without learning so. */
  predicate Leased(s: State, ph: Phase) {
    (ph.Won? || ph.Held?) ==>
      && ph.rid in s.db.requests
      && var r := s.db.requests[ph.rid];
      || (r.state.Copying? && r.leaseOwner == Some(ph.token) && r.leaseUntil == Some(ph.now + LEASE_MS))
      || (r.state.Verified? && ph.Held? && ph.work.Failing?)
  }

  ghost predicate LeaseInv(cfg: Config, s: State) {
    && (forall w | w in s.procs :: Punctual(cfg, s, s.procs[w]))
    && (forall w | w in s.procs :: Leased(s, s.procs[w].phase))
    && (forall w | w in s.procs :: OwnSnapshot(s.procs[w].phase) && NeverLost(s.procs[w].phase))
    && OneHolder(s)
  }

  /** The two-minute margin between the process bound and the lease absorbs the clock disagreement. */
  predicate WellTimed(cfg: Config) {
    cfg.timed && HARD_EXIT_MS + cfg.early + cfg.late < LEASE_MS
  }

  /** No reading of any clock reaches the end of a live claim's lease. */
  lemma LeaseOutlivesProcess(cfg: Config, s: State, w: ProcId, c: int)
    requires WellTimed(cfg) && w in s.procs && Punctual(cfg, s, s.procs[w]) && Claiming(s.procs[w].phase)
    requires c <= s.clock + cfg.late
    ensures c < s.procs[w].phase.now + LEASE_MS
  {
  }

  /** A request that some live process holds is not eligible for any other. */
  lemma HeldIsNotEligible(cfg: Config, s: State, v: ProcId, rid: Id, now: int)
    requires WellTimed(cfg) && LeaseInv(cfg, s) && Holds(s, v, rid) && now <= s.clock + cfg.late
    ensures !Wins(s.db, cfg.bucket, rid, now)
  {
    assert Punctual(cfg, s, s.procs[v]) && Leased(s, s.procs[v].phase);
    LeaseOutlivesProcess(cfg, s, v, now);
  }

  lemma ClaimIsExclusive(cfg: Config, s: State, w: ProcId)
    requires WellTimed(cfg) && LeaseInv(cfg, s) && w in s.procs && ActionReady(cfg, s, s.procs[w], Cas)
    requires Wins(s.db, cfg.bucket, s.procs[w].phase.rest[0], s.procs[w].phase.now)
    ensures forall v :: !Holds(s, v, s.procs[w].phase.rest[0])
  {
    forall v ensures !Holds(s, v, s.procs[w].phase.rest[0]) {
      if Holds(s, v, s.procs[w].phase.rest[0]) {
        assert Punctual(cfg, s, s.procs[w]);
        HeldIsNotEligible(cfg, s, v, s.procs[w].phase.rest[0], s.procs[w].phase.now);
      }
    }
  }

  /** A commit finds the row still leased to the committer. */
  lemma CommitSucceeds(cfg: Config, s: State, w: ProcId, a: Action)
    requires WellTimed(cfg) && Reachable(cfg, s) && LeaseInv(cfg, s)
    requires w in s.procs && ActionReady(cfg, s, s.procs[w], a) && a.Commit?
    ensures var ph := s.procs[w].phase;
      VerifyVerdict(s.db, ph.rid, ph.request.leaseOwner, ph.work.c.gid, a.now).Committed?
  {
    assert Punctual(cfg, s, s.procs[w]) && Leased(s, s.procs[w].phase) && OwnSnapshot(s.procs[w].phase);
    LeaseOutlivesProcess(cfg, s, w, a.now);
    HolderFacts(cfg, s, w);
  }

  /** Who holds what after an action. */
  lemma HoldsOrigin(cfg: Config, s: State, w: ProcId, a: Action, v: ProcId, rid: Id)
    requires w in s.procs && ActionReady(cfg, s, s.procs[w], a)
    requires Holds(Perform(cfg, s, w, a), v, rid)
    ensures Holds(s, v, rid) ||
      (v == w && a.Cas? && rid == s.procs[w].phase.rest[0] && Wins(s.db, cfg.bucket, rid, s.procs[w].phase.now))
  {
  }

  lemma ActKeepsOneHolder(cfg: Config, s: State, w: ProcId, a: Action)
    requires WellTimed(cfg) && LeaseInv(cfg, s) && w in s.procs && ActionReady(cfg, s, s.procs[w], a)
    ensures OneHolder(Perform(cfg, s, w, a))
  {
    var t := Perform(cfg, s, w, a);
    forall u, v, rid | Holds(t, u, rid) && Holds(t, v, rid) ensures u == v {
      HoldsOrigin(cfg, s, w, a, u, rid);
      HoldsOrigin(cfg, s, w, a, v, rid);
      if a.Cas? && Wins(s.db, cfg.bucket, s.procs[w].phase.rest[0], s.procs[w].phase.now) {
        ClaimIsExclusive(cfg, s, w);
      }
    }
  }

  /** An action of one process leaves the row another one holds alone. */
  lemma OtherRowUntouched(cfg: Config, s: State, w: ProcId, a: Action, v: ProcId, rid: Id)
    requires WellTimed(cfg) && LeaseInv(cfg, s) && w in s.procs && ActionReady(cfg, s, s.procs[w], a)
    requires v != w && Holds(s, v, rid)
    ensures rid in s.db.requests && rid in NextDb(cfg, s, s.procs[w], a).requests
    ensures NextDb(cfg, s, s.procs[w], a).requests[rid] == s.db.requests[rid]
  {
    var ph := s.procs[w].phase;
    assert Leased(s, s.procs[v].phase);
    if ph.Held? {
      assert Holds(s, w, ph.rid);
    } else if a.Cas? && Wins(s.db, cfg.bucket, ph.rest[0], ph.now) {
      ClaimIsExclusive(cfg, s, w);
    }
  }

  lemma ActorLeased(cfg: Config, s: State, w: ProcId, a: Action)
    requires WellTimed(cfg) && Reachable(cfg, s) && LeaseInv(cfg, s)
    requires w in s.procs && ActionReady(cfg, s, s.procs[w], a)
    ensures var t := Perform(cfg, s, w, a);
      Leased(t, t.procs[w].phase) && OwnSnapshot(t.procs[w].phase) && NeverLost(t.procs[w].phase)
  {
    if a.Commit? { CommitSucceeds(cfg, s, w, a); } else { ActorStaysLeased(cfg, s, w, a); }
  }

  lemma ActorStaysLeased(cfg: Config, s: State, w: ProcId, a: Action)
    requires w in s.procs && ActionReady(cfg, s, s.procs[w], a) && !a.Commit?
    requires var ph := s.procs[w].phase; Leased(s, ph) && OwnSnapshot(ph) && NeverLost(ph)
    ensures var t := Perform(cfg, s, w, a);
      Leased(t, t.procs[w].phase) && OwnSnapshot(t.procs[w].phase) && NeverLost(t.procs[w].phase)
  {
    if !(a.FailUpdate? || a.Cas? || a.Create?) {
      assert NextDb(cfg, s, s.procs[w], a) == s.db;
    }
  }

  lemma ActKeepsLease(cfg: Config, s: State, w: ProcId, a: Action)
    requires WellTimed(cfg) && Reachable(cfg, s) && LeaseInv(cfg, s)
    requires w in s.procs && ActionReady(cfg, s, s.procs[w], a)
    ensures LeaseInv(cfg, Perform(cfg, s, w, a))
  {
    var t := Perform(cfg, s, w, a);
    ActKeepsOneHolder(cfg, s, w, a);
    ActorLeased(cfg, s, w, a);
    assert Punctual(cfg, s, s.procs[w]);
    forall v | v in t.procs && v != w ensures Leased(t, t.procs[v].phase) {
      var ph := s.procs[v].phase;
      assert Leased(s, ph);
      if ph.Won? || ph.Held? {
        assert Holds(s, v, ph.rid);
        OtherRowUntouched(cfg, s, w, a, v, ph.rid);
      }
    }
  }

  lemma EnvironmentKeepsLease(cfg: Config, s: State, e: Event)
    requires WellTimed(cfg) && LeaseInv(cfg, s) && Enabled(cfg, s, e) && !e.Act?
    ensures LeaseInv(cfg, Apply(cfg, s, e))
  {
    var t := Apply(cfg, s, e);
    EnvironmentEffect(cfg, s, e);
    EnvironmentPunctual(cfg, s, e);
    hide Enabled, Apply, Punctual;
    forall v, rid | Holds(t, v, rid) ensures Holds(s, v, rid) {}
    forall w | w in t.procs
      ensures Leased(t, t.procs[w].phase) && OwnSnapshot(t.procs[w].phase) && NeverLost(t.procs[w].phase)
    {
      if w in s.procs { assert Leased(s, s.procs[w].phase) && OwnSnapshot(s.procs[w].phase); }
    }
  }

  lemma EnvironmentPunctual(cfg: Config, s: State, e: Event)
    requires WellTimed(cfg) && LeaseInv(cfg, s) && Enabled(cfg, s, e) && !e.Act?
    ensures forall w | w in Apply(cfg, s, e).procs :: Punctual(cfg, Apply(cfg, s, e), Apply(cfg, s, e).procs[w])
  {
    var t := Apply(cfg, s, e);
    forall w | w in t.procs ensures Punctual(cfg, t, t.procs[w]) {
      if w in s.procs { assert Punctual(cfg, s, s.procs[w]); }
    }
  }

  lemma {:induction false} RunKeepsLease(cfg: Config, run: seq<Event>)
    requires WellTimed(cfg)
    ensures LeaseInv(cfg, After(cfg, INIT, run))
  {
    if run != [] {
      var s := After(cfg, INIT, run[..|run| - 1]);
      var e := run[|run| - 1];
      RunKeepsLease(cfg, run[..|run| - 1]);
      assert Reachable(cfg, s);
      if Enabled(cfg, s, e) {
        if e.Act? { ActKeepsLease(cfg, s, e.w, e.a); } else { EnvironmentKeepsLease(cfg, s, e); }
      }
    }
  }

  /**
   * The timing theorem.  In every reachable state of every interleaving: at most one live process
   * holds a request; what it re-read carries its own token and a lease its own clock cannot outrun;
   * and no process is failing because it lost its lease.
   */
  lemma LeaseSuffices(cfg: Config, s: State)
    requires WellTimed(cfg) && Reachable(cfg, s)
    ensures OneHolder(s)
    ensures forall w | w in s.procs :: OwnSnapshot(s.procs[w].phase) && NeverLost(s.procs[w].phase)
    ensures forall w, a | w in s.procs && ActionReady(cfg, s, s.procs[w], a) && a.Commit? ::
      Evidences(Perform(cfg, s, w, a).db, s.procs[w].phase.rid, s.procs[w].phase.work.c.gid)
  {
    var run :| s == After(cfg, INIT, run);
    RunKeepsLease(cfg, run);
    forall w, a | w in s.procs && ActionReady(cfg, s, s.procs[w], a) && a.Commit?
      ensures Evidences(Perform(cfg, s, w, a).db, s.procs[w].phase.rid, s.procs[w].phase.work.c.gid)
    {
      CommitSucceeds(cfg, s, w, a);
    }
  }

  // ----- the bound is exact -----

  /** What a slow clock can show at instant 0, and a fast one when the process started then must exit. */
  function Behind(cfg: Config): int {
    if cfg.timed then 0 - cfg.early else 0
  }

  function Ahead(cfg: Config): int {
    if cfg.timed then HARD_EXIT_MS + cfg.late else LEASE_MS
  }

  /** Without the margin the two can lie a whole lease apart. */
  lemma NoMargin(cfg: Config)
    ensures Reading(cfg, 0, Behind(cfg)) && Reading(cfg, HARD_EXIT_MS, Ahead(cfg))
    ensures !WellTimed(cfg) <==> Ahead(cfg) >= Behind(cfg) + LEASE_MS
  {
  }

  /** Process 1, whose clock is slow, wins request 0 as it starts, and is still alive when its bound comes. */
  lemma FirstHalf(cfg: Config) returns (c: State)
    ensures Reachable(cfg, c) && c.clock == HARD_EXIT_MS && c.issued == {100}
    ensures c.procs == map[1 := Proc(Installed(0, 0), Won(0, 100, Behind(cfg)))]
    ensures c.db == Database(map[0 := WitnessRequest(cfg, Behind(cfg))], map[])
  {
    var b := FirstClaim(cfg, Behind(cfg));
    ReachableStep(cfg, b, Tick(HARD_EXIT_MS));
    c := Step(cfg, b, Tick(HARD_EXIT_MS));
  }

  /** Process 2, whose clock is fast, finds the lease over and wins the request as well. */
  lemma SecondHalf(cfg: Config) returns (d: State)
    requires !WellTimed(cfg)
    ensures Reachable(cfg, d) && d.procs.Keys == {1, 2}
    ensures d.procs[1].phase == Won(0, 100, Behind(cfg)) && d.procs[2].phase == Won(0, 101, Ahead(cfg))
    ensures d.db.requests == map[0 := Claimed(WitnessRequest(cfg, Behind(cfg)), 101, Ahead(cfg))]
  {
    NoMargin(cfg);
    var c := FirstHalf(cfg);
    assert CandidateList(c.db, cfg.bucket, Ahead(cfg), [0]);
    assert Wins(c.db, cfg.bucket, 0, Ahead(cfg));
    hide Leads, CandidateList, Wins;
    d := Takes(cfg, INIT, c, 2, Ahead(cfg), [0], 101);
    assert d.db.requests == map[0 := Claimed(WitnessRequest(cfg, Behind(cfg)), 101, Ahead(cfg))];
  }

  /**
   * Without the margin a second process takes the request over while the first is still alive, and the
   * first one's re-read then adopts the second one's token, so that both hold the request under the same
   * lease.
   */
  lemma LeaseOverrun(cfg: Config) returns (s: State)
    requires !WellTimed(cfg)
    ensures Reachable(cfg, s)
    ensures Holds(s, 1, 0) && Holds(s, 2, 0)
    ensures Holding(s, 1) && Holding(s, 2)
    ensures !OwnSnapshot(s.procs[1].phase)
  {
    var d := SecondHalf(cfg);
    hide Leads;
    var e := Rereads(cfg, INIT, d, 2);
    s := Rereads(cfg, INIT, e, 1);
  }

  /**
   * Without the margin a single process, with nobody to interfere, can lose its lease: it pauses before
   * its commit until its bound comes, and its own clock then shows that the lease is over.
   */
  lemma LeaseExpiry(cfg: Config) returns (s: State)
    requires !WellTimed(cfg)
    ensures Reachable(cfg, s) && s.procs.Keys == {1}
    ensures s.procs[1].phase.Held? && s.procs[1].phase.work == Failing(LeaseLost)
  {
    NoMargin(cfg);
    var b := Confirms(cfg, Behind(cfg), 0);
    ReachableStep(cfg, b, Tick(HARD_EXIT_MS));
    var c := Step(cfg, b, Tick(HARD_EXIT_MS));
    assert c == b.(clock := HARD_EXIT_MS);
    s := Does(cfg, INIT, c, 1, Commit(Ahead(cfg), true));
  }

  /** The margin is exact: each of the guarantees holds of every run if and only if the clocks agree to within it. */
  lemma LeaseBoundIsExact(cfg: Config)
    ensures (forall s | Reachable(cfg, s) :: OneHolder(s)) <==> WellTimed(cfg)
    ensures (forall s | Reachable(cfg, s) :: forall w | w in s.procs :: OwnSnapshot(s.procs[w].phase))
       <==> WellTimed(cfg)
    ensures (forall s | Reachable(cfg, s) :: forall w | w in s.procs :: NeverLost(s.procs[w].phase))
       <==> WellTimed(cfg)
  {
    if WellTimed(cfg) {
      forall s | Reachable(cfg, s)
        ensures OneHolder(s)
        ensures forall w | w in s.procs :: OwnSnapshot(s.procs[w].phase) && NeverLost(s.procs[w].phase)
      {
        LeaseSuffices(cfg, s);
      }
    } else {
      var s := LeaseOverrun(cfg);
      assert !OneHolder(s);
      var t := LeaseExpiry(cfg);
      assert !NeverLost(t.procs[1].phase);
    }
  }
}
