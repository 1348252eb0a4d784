/**
 * Fencing by owner token, with no assumption on time: a worker whose token has been replaced can
 * neither verify nor fail its request, now or ever, however long it pauses between two steps.
 */
module Fencing {
  import opened Wrappers
  import opened Tables
  import opened Protocol
  import opened Safety

  // ----- where a token can be -----

  predicate OnRow(db: Database, owner: Uuid) {
    exists id | id in db.requests :: db.requests[id].leaseOwner == Some(owner)
  }

  predicate Snapshot(ph: Phase, owner: Uuid) {
    ph.Held? && ph.request.leaseOwner == Some(owner)
  }

  /** The token a process generated for the claim it is working on. */
  function OwnToken(ph: Phase): Option<Uuid> {
    match ph
    case Issued(_, _, owner) => Some(owner)
    case Won(_, token, _) => Some(token)
    case Held(_, token, _, _, _) => Some(token)
    case _ => None
  }

  predicate RowTokens(s: State) {
    && (forall id | id in s.db.requests ::
          s.db.requests[id].leaseOwner.Some? ==> s.db.requests[id].leaseOwner.value in s.issued)
    && (forall i, j | i in s.db.requests && j in s.db.requests ::
          s.db.requests[i].leaseOwner.Some? && s.db.requests[i].leaseOwner == s.db.requests[j].leaseOwner ==> i == j)
  }

  /** A token still on its way to the database is on no row and in no snapshot. */
  predicate PendingTokens(s: State) {
    forall w | w in s.procs && s.procs[w].phase.Issued? ::
      && !OnRow(s.db, s.procs[w].phase.owner)
      && forall v | v in s.procs :: !Snapshot(s.procs[v].phase, s.procs[w].phase.owner)
  }

  predicate OwnTokens(s: State) {
    && (forall w | w in s.procs :: OwnToken(s.procs[w].phase).Some? ==> OwnToken(s.procs[w].phase).value in s.issued)
    && (forall v, w | v in s.procs && w in s.procs && v != w ::
          OwnToken(s.procs[v].phase).Some? ==> OwnToken(s.procs[v].phase) != OwnToken(s.procs[w].phase))
  }

  /** As long as the row carries the token of a snapshot, the row is that snapshot. */
  predicate SnapshotCurrent(s: State, ph: Phase) {
    ph.Held? && ph.request.leaseOwner.Some? ==>
      && ph.request.leaseOwner.value in s.issued
      && forall id | id in s.db.requests ::
           s.db.requests[id].leaseOwner == ph.request.leaseOwner ==> id == ph.rid && s.db.requests[id] == ph.request
  }

  predicate Snapshots(s: State) {
    forall w | w in s.procs :: SnapshotCurrent(s, s.procs[w].phase)
  }

  ghost predicate TokenInv(s: State) {
    RowTokens(s) && PendingTokens(s) && OwnTokens(s) && Snapshots(s)
  }

  // ----- every event keeps the token discipline -----

  /** The only action that can put a token on a row is the compare-and-set of the process that made it. */
  lemma RowTokenOrigin(cfg: Config, s: State, p: Proc, a: Action, id: Id)
    requires ActionReady(cfg, s, p, a) && id in NextDb(cfg, s, p, a).requests
    ensures id in s.db.requests
    ensures var r := NextDb(cfg, s, p, a).requests[id];
      || r == s.db.requests[id]
      || r.leaseOwner.None?
      || (p.phase.Issued? && r.leaseOwner == Some(p.phase.owner) && id == p.phase.rest[0])
  {
  }

  lemma ActRowTokens(cfg: Config, s: State, w: ProcId, a: Action, t: State)
    requires TokenInv(s) && w in s.procs && ActionReady(cfg, s, s.procs[w], a) && t == Perform(cfg, s, w, a)
    ensures RowTokens(t)
  {
    forall id | id in t.db.requests
      ensures t.db.requests[id].leaseOwner.Some? ==> t.db.requests[id].leaseOwner.value in t.issued
    {
      RowTokenOrigin(cfg, s, s.procs[w], a, id);
    }
    forall i, j | i in t.db.requests && j in t.db.requests
      ensures t.db.requests[i].leaseOwner.Some? && t.db.requests[i].leaseOwner == t.db.requests[j].leaseOwner ==> i == j
    {
      RowTokenOrigin(cfg, s, s.procs[w], a, i);
      RowTokenOrigin(cfg, s, s.procs[w], a, j);
    }
  }

  lemma OwnTokenOrigin(cfg: Config, s: State, p: Proc, a: Action)
    requires ActionReady(cfg, s, p, a)
    ensures var q := NextPhase(cfg, s, p, a);
      && (OwnToken(q).Some? ==> OwnToken(q) == OwnToken(p.phase) || (a.Issue? && OwnToken(q) == Some(a.owner)))
      && (q.Issued? ==> a.Issue? && q.owner == a.owner)
      && (q.Held? ==>
            || (p.phase.Held? && q.request == p.phase.request && q.rid == p.phase.rid)
            || (a.Reread? && q.rid == p.phase.rid && q.request == s.db.requests[q.rid]))
  {
  }

  lemma ActOwnTokens(cfg: Config, s: State, w: ProcId, a: Action, t: State)
    requires TokenInv(s) && w in s.procs && ActionReady(cfg, s, s.procs[w], a) && t == Perform(cfg, s, w, a)
    ensures OwnTokens(t)
  {
    OwnTokenOrigin(cfg, s, s.procs[w], a);
  }

  lemma ActPendingTokens(cfg: Config, s: State, w: ProcId, a: Action, t: State)
    requires TokenInv(s) && w in s.procs && ActionReady(cfg, s, s.procs[w], a) && t == Perform(cfg, s, w, a)
    ensures PendingTokens(t)
  {
    OwnTokenOrigin(cfg, s, s.procs[w], a);
    forall v | v in t.procs && t.procs[v].phase.Issued?
      ensures !OnRow(t.db, t.procs[v].phase.owner)
      ensures forall u | u in t.procs :: !Snapshot(t.procs[u].phase, t.procs[v].phase.owner)
    {
      var owner := t.procs[v].phase.owner;
      forall id | id in t.db.requests ensures t.db.requests[id].leaseOwner != Some(owner) {
        RowTokenOrigin(cfg, s, s.procs[w], a, id);
        if t.db.requests[id] == s.db.requests[id] {
        } else if v != w && s.procs[w].phase.Issued? {
          assert OwnToken(s.procs[v].phase) != OwnToken(s.procs[w].phase);
        }
      }
      forall u | u in t.procs ensures !Snapshot(t.procs[u].phase, owner) {
        assert u in s.procs;
        if u == w && a.Reread? {
          assert s.procs[w].phase.rid in s.db.requests;
        } else if v == w {
          assert SnapshotCurrent(s, s.procs[u].phase);
        }
      }
    }
  }

  lemma ActSnapshots(cfg: Config, s: State, w: ProcId, a: Action, t: State)
    requires TokenInv(s) && w in s.procs && ActionReady(cfg, s, s.procs[w], a) && t == Perform(cfg, s, w, a)
    ensures Snapshots(t)
  {
    OwnTokenOrigin(cfg, s, s.procs[w], a);
    forall v | v in t.procs ensures SnapshotCurrent(t, t.procs[v].phase) {
      var ph := t.procs[v].phase;
      assert v in s.procs && SnapshotCurrent(s, s.procs[v].phase);
      if ph.Held? && ph.request.leaseOwner.Some? {
        forall id | id in t.db.requests && t.db.requests[id].leaseOwner == ph.request.leaseOwner
          ensures id == ph.rid && t.db.requests[id] == ph.request
        {
          RowTokenOrigin(cfg, s, s.procs[w], a, id);
          if s.procs[w].phase.Issued? { assert !Snapshot(s.procs[v].phase, s.procs[w].phase.owner); }
        }
      }
    }
  }

  lemma StepKeepsTokens(cfg: Config, s: State, e: Event)
    requires TokenInv(s)
    ensures TokenInv(Step(cfg, s, e))
  {
    hide ActionReady, Perform, TokenInv;
    if Enabled(cfg, s, e) {
      if e.Act? { ActKeepsTokens(cfg, s, e.w, e.a); } else { EnvironmentKeepsTokens(cfg, s, e); }
    }
  }

  lemma ActKeepsTokens(cfg: Config, s: State, w: ProcId, a: Action)
    requires TokenInv(s) && w in s.procs && ActionReady(cfg, s, s.procs[w], a)
    ensures TokenInv(Perform(cfg, s, w, a))
  {
    hide ActionReady, Perform, RowTokens, PendingTokens, OwnTokens, Snapshots;
    var t := Perform(cfg, s, w, a);
    ActRowTokens(cfg, s, w, a, t);
    ActPendingTokens(cfg, s, w, a, t);
    ActOwnTokens(cfg, s, w, a, t);
    ActSnapshots(cfg, s, w, a, t);
  }

  lemma EnvironmentKeepsTokens(cfg: Config, s: State, e: Event)
    requires TokenInv(s) && Enabled(cfg, s, e) && !e.Act?
    ensures TokenInv(Apply(cfg, s, e))
  {
    hide Enabled, Apply;
    var t := Apply(cfg, s, e);
    EnvironmentEffect(cfg, s, e);
    assert RowTokens(t);
    assert PendingTokens(t) && OwnTokens(t);
    assert Snapshots(t);
  }

  lemma {:induction false} RunKeepsTokens(cfg: Config, s: State, run: seq<Event>)
    requires TokenInv(s)
    ensures TokenInv(After(cfg, s, run))
  {
    if run != [] {
      RunKeepsTokens(cfg, s, run[..|run| - 1]);
      StepKeepsTokens(cfg, After(cfg, s, run[..|run| - 1]), run[|run| - 1]);
    }
  }

  lemma ReachableTokens(cfg: Config, s: State)
    requires Reachable(cfg, s)
    ensures TokenInv(s)
  {
    var run :| s == After(cfg, INIT, run);
    RunKeepsTokens(cfg, INIT, run);
  }

  // ----- the fencing theorems -----

  /** The row still carries the owner token of the row the worker re-read. */
  predicate Holding(s: State, w: ProcId) {
    && w in s.procs && s.procs[w].phase.Held?
    && s.procs[w].phase.request.leaseOwner.Some?
    && s.procs[w].phase.rid in s.db.requests
    && s.db.requests[s.procs[w].phase.rid].leaseOwner == s.procs[w].phase.request.leaseOwner
  }

  /** What a worker that holds a claim may rely on. */
  lemma HolderFacts(cfg: Config, s: State, w: ProcId)
    requires Reachable(cfg, s) && w in s.procs && s.procs[w].phase.Held?
    ensures var ph := s.procs[w].phase;
      && ph.rid in s.db.requests && RowOk(s.db.requests[ph.rid]) && ph.request.attempts >= 1
      && (Holding(s, w) ==> s.db.requests[ph.rid] == ph.request)
      && (ph.work.Confirmed? ==>
            ph.work.c.gid in s.db.generations && s.db.generations[ph.work.c.gid].requestId == ph.rid)
  {
    ReachableInv(cfg, s);
    ReachableTokens(cfg, s);
    var ph := s.procs[w].phase;
    assert PhaseOk(cfg, s, ph) && SnapshotCurrent(s, ph);
  }

  /**
   * Exactly when a commit succeeds: the worker still holds the row and its lease has not run out on
   * its own clock.  In every other case nothing changes and the worker goes on to fail with LEASE_LOST;
   * the second update of the transaction never misses.
   */
  lemma CommitIffHolding(cfg: Config, s: State, w: ProcId, a: Action)
    requires Reachable(cfg, s) && w in s.procs && ActionReady(cfg, s, s.procs[w], a) && a.Commit?
    ensures var ph := s.procs[w].phase; var t := Perform(cfg, s, w, a);
      if Holding(s, w) && ph.request.leaseUntil.Some? && a.now < ph.request.leaseUntil.value then
        && t.db.requests == s.db.requests[ph.rid := s.db.requests[ph.rid].(
             state := Verified, leaseOwner := None, leaseUntil := None)]
        && Evidences(t.db, ph.rid, ph.work.c.gid)
      else
        && t.db == s.db
        && t.procs[w].phase == ph.(work := Failing(LeaseLost))
  {
    HolderFacts(cfg, s, w);
  }

  /** Exactly when `fail` has an effect, and which row it then rests: the worker's own, as it read it. */
  lemma FailIffHolding(cfg: Config, s: State, w: ProcId, a: Action)
    requires Reachable(cfg, s) && w in s.procs && ActionReady(cfg, s, s.procs[w], a) && a.FailUpdate?
    ensures var ph := s.procs[w].phase; var t := Perform(cfg, s, w, a);
      if Holding(s, w) then
        && t.db.generations == s.db.generations
        && ph.rid in s.db.requests && s.db.requests[ph.rid] == ph.request
        && t.db.requests.Keys == s.db.requests.Keys
        && (forall id | id in s.db.requests && id != ph.rid :: t.db.requests[id] == s.db.requests[id])
        && var r := t.db.requests[ph.rid];
        && Resting(r) && r.leaseOwner.None? && r.leaseUntil.None? && r.attempts == ph.request.attempts
        && (r.state.SourceMissing? <==> ph.work.code.NoSource?)
        && 30000 <= r.nextAttemptAt - a.now <= 300000
      else t.db == s.db
  {
    HolderFacts(cfg, s, w);
  }

  /** A token that is on no row and on its way to none. */
  predicate Dead(s: State, owner: Uuid) {
    && owner in s.issued
    && !OnRow(s.db, owner)
    && forall w | w in s.procs && s.procs[w].phase.Issued? :: s.procs[w].phase.owner != owner
  }

  lemma DeadStep(cfg: Config, s: State, e: Event, owner: Uuid)
    requires Dead(s, owner)
    ensures Dead(Step(cfg, s, e), owner)
  {
    if Enabled(cfg, s, e) && e.Act? {
      var t := Perform(cfg, s, e.w, e.a);
      OwnTokenOrigin(cfg, s, s.procs[e.w], e.a);
      forall id | id in t.db.requests ensures t.db.requests[id].leaseOwner != Some(owner) {
        RowTokenOrigin(cfg, s, s.procs[e.w], e.a, id);
      }
    }
  }

  lemma {:induction false} DeadForever(cfg: Config, s: State, run: seq<Event>, owner: Uuid)
    requires Dead(s, owner)
    ensures Dead(After(cfg, s, run), owner)
  {
    if run != [] {
      DeadForever(cfg, s, run[..|run| - 1], owner);
      DeadStep(cfg, After(cfg, s, run[..|run| - 1]), run[|run| - 1], owner);
    }
  }

  /**
   * Once replaced, replaced for ever: if a worker no longer holds its row, then after any run at all
   * it does not hold it either, so that by the two lemmas above neither its commit nor its `fail` can
   * change a single row or generation.
   */
  lemma FencedForever(cfg: Config, s: State, run: seq<Event>, w: ProcId, a: Action)
    requires Reachable(cfg, s) && w in s.procs && s.procs[w].phase.Held? && !Holding(s, w)
    ensures var t := After(cfg, s, run);
      w in t.procs && t.procs[w].phase.Held? && t.procs[w].phase.request == s.procs[w].phase.request ==>
        && !Holding(t, w)
        && (ActionReady(cfg, t, t.procs[w], a) && (a.Commit? || a.FailUpdate?) ==> Perform(cfg, t, w, a).db == t.db)
  {
    var t := After(cfg, s, run);
    if w in t.procs && t.procs[w].phase.Held? && t.procs[w].phase.request == s.procs[w].phase.request {
      var owner := s.procs[w].phase.request.leaseOwner;
      if owner.Some? {
        ReachableTokens(cfg, s);
        ReachableInv(cfg, s);
        assert SnapshotCurrent(s, s.procs[w].phase) && Snapshot(s.procs[w].phase, owner.value);
        assert PhaseOk(cfg, s, s.procs[w].phase);
        assert Dead(s, owner.value);
        DeadForever(cfg, s, run, owner.value);
      }
      ReachableAfter(cfg, s, run);
      if ActionReady(cfg, t, t.procs[w], a) {
        if a.Commit? { CommitIffHolding(cfg, t, w, a); }
        if a.FailUpdate? { FailIffHolding(cfg, t, w, a); }
      }
    }
  }

  /** A successful compare-and-set replaces whatever owner the row had: it fences every earlier holder. */
  lemma ClaimFencesOthers(cfg: Config, s: State, w: ProcId, v: ProcId)
    requires Reachable(cfg, s) && v != w && v in s.procs && s.procs[v].phase.Held?
    requires w in s.procs && ActionReady(cfg, s, s.procs[w], Cas)
    requires Wins(s.db, cfg.bucket, s.procs[w].phase.rest[0], s.procs[w].phase.now)
    requires s.procs[w].phase.rest[0] == s.procs[v].phase.rid
    ensures !Holding(Perform(cfg, s, w, Cas), v)
  {
    ReachableTokens(cfg, s);
    assert !Snapshot(s.procs[v].phase, s.procs[w].phase.owner);
  }
}
