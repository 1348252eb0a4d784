/**
 * No request is ever wedged.  Whatever has happened, and whoever is holding what, a request of this
 * bucket that has attempts left can still be verified; and nothing else can.
 */
module Recovery {
  import opened Tables
  import opened Protocol
  import opened Safety
  import opened Fencing
  import opened Captures
  import opened Budget
  import opened Witness

  // ----- clearing the way -----

  /** Every process crashes. */
  lemma {:induction false} AllCrash(cfg: Config, o: State, s: State) returns (t: State)
    requires Leads(cfg, o, s)
    ensures Leads(cfg, o, t) && t == s.(procs := map[])
    decreases |s.procs|
  {
    if s.procs == map[] {
      t := s;
    } else {
      var w :| w in s.procs;
      LeadsStep(cfg, o, s, Crash(w));
      var u := Step(cfg, s, Crash(w));
      assert u.procs.Keys == s.procs.Keys - {w};
      assert |u.procs| == |u.procs.Keys| && |s.procs| == |s.procs.Keys|;
      t := AllCrash(cfg, o, u);
    }
  }

  /** Nobody is running, so any amount of time may pass. */
  lemma Waits(cfg: Config, o: State, s: State, instant: int) returns (t: State)
    requires Leads(cfg, o, s) && s.procs == map[] && s.clock <= instant
    ensures Leads(cfg, o, t) && t == s.(clock := instant)
  {
    LeadsStep(cfg, o, s, Tick(instant));
    t := Step(cfg, s, Tick(instant));
  }

  /** Nothing changed but the requests, the processes and the uuids in use. */
  predicate SameStores(s: State, t: State) {
    && t.clock == s.clock && t.current == s.current && t.versions == s.versions && t.store == s.store
    && t.db.generations == s.db.generations
  }

  /** Process 0 has just won the request. */
  predicate JustWon(s: State, t: State, id: Id, owner: Uuid) {
    && SameStores(s, t)
    && id in s.db.requests && id in t.db.requests
    && t.db.requests[id] == Claimed(s.db.requests[id], owner, s.clock)
    && t.procs == map[0 := Started(t, Won(id, owner, t.clock))]
  }

  lemma FirstTakes(cfg: Config, o: State, s: State, cands: seq<Id>) returns (t: State, owner: Uuid)
    requires Leads(cfg, o, s) && s.procs == map[]
    requires CandidateList(s.db, cfg.bucket, s.clock, cands) && cands != []
    ensures Leads(cfg, o, t) && JustWon(s, t, cands[0], owner)
    ensures t.db == ClaimCas(s.db, cfg.bucket, cands[0], owner, s.clock) && Wins(s.db, cfg.bucket, cands[0], s.clock)
  {
    assert Wins(s.db, cfg.bucket, cands[0], s.clock);
    owner := FreshExists(s.issued);
    hide Leads, CandidateList;
    t := Takes(cfg, o, s, 0, s.clock, cands, owner);
  }

  /** A worker that takes the first of the list and dies makes the list shorter. */
  lemma FirstDies(cfg: Config, o: State, s: State, cands: seq<Id>) returns (t: State)
    requires Leads(cfg, o, s) && s.procs == map[]
    requires CandidateList(s.db, cfg.bucket, s.clock, cands) && cands != []
    ensures Leads(cfg, o, t) && t.procs == map[] && SameStores(s, t)
    ensures t.db.requests.Keys == s.db.requests.Keys
    ensures forall id | id in s.db.requests && id != cands[0] :: t.db.requests[id] == s.db.requests[id]
    ensures EligibleIds(t.db, cfg.bucket, t.clock) < EligibleIds(s.db, cfg.bucket, s.clock)
  {
    var u, owner := FirstTakes(cfg, o, s, cands);
    LeadsStep(cfg, o, u, Crash(0));
    t := Step(cfg, u, Crash(0));
    hide Leads, CandidateList;
    assert cands[0] in EligibleIds(s.db, cfg.bucket, s.clock) && cands[0] !in EligibleIds(t.db, cfg.bucket, t.clock);
  }

  /** However long the queue before it, an eligible request comes to be the first of a list. */
  lemma {:induction false} IsReached(cfg: Config, o: State, s: State, id: Id) returns (t: State, owner: Uuid)
    requires Leads(cfg, o, s) && s.procs == map[] && Wins(s.db, cfg.bucket, id, s.clock)
    ensures Leads(cfg, o, t) && JustWon(s, t, id, owner)
    decreases EligibleIds(s.db, cfg.bucket, s.clock)
  {
    var cands := CandidatesExist(s.db, cfg.bucket, s.clock);
    assert cands != [];
    if cands[0] == id {
      t, owner := FirstTakes(cfg, o, s, cands);
    } else {
      var u := FirstDies(cfg, o, s, cands);
      hide Leads, CandidateList;
      t, owner := IsReached(cfg, o, u, id);
    }
  }

  // ----- one undisturbed copy -----

  /** Process 0 is alone, holds the request under a running lease, and has come this far. */
  ghost predicate Solo(cfg: Config, o: State, s: State, id: Id, work: Work) {
    && Leads(cfg, o, s)
    && 0 in s.procs && s.procs[0].phase.Held?
    && var ph := s.procs[0].phase;
    && ph.rid == id && ph.work == work
    && id in s.db.requests && ph.request == s.db.requests[id]
    && ph.request.leaseOwner.Some? && Fenced(ph.request, ph.request.leaseOwner, s.clock)
  }

  /** The source bucket holds an object of the announced and the expected size. */
  predicate SourceReady(s: State, source: Source) {
    && source.sourceKey in s.current
    && var head := s.current[source.sourceKey];
    && ValidIdentity(head)
    && (source.sourceKey, head) in s.versions && |s.versions[(source.sourceKey, head)]| == head.size
    && (source.expectedSize.Some? ==> source.expectedSize.value == head.size)
  }

  lemma Advances(cfg: Config, o: State, s: State, id: Id, work: Work, a: Action) returns (t: State)
    requires Solo(cfg, o, s, id, work) && WorkReady(cfg, s, s.db.requests[id], work, a)
    requires !a.Create? && !a.Commit? && !a.FailUpdate?
    requires ActionReady(cfg, s, s.procs[0], a)
    ensures Solo(cfg, o, t, id, NextWork(cfg, s, s.db.requests[id], work, a))
    ensures t.db == s.db && t.current == s.current && t.versions == s.versions && t.issued == s.issued
    ensures t.clock == s.clock && t.store == NextStore(cfg, s, s.procs[0], a)
  {
    t := Works(cfg, o, s, 0, a);
  }

  lemma CapturesIt(cfg: Config, o: State, s: State, id: Id) returns (t: State, before: Identity, bytes: Bytes)
    requires Solo(cfg, o, s, id, Fresh) && SourceReady(s, s.db.requests[id].source)
    ensures Solo(cfg, o, t, id, Captured(before, bytes)) && t.current == s.current && t.versions == s.versions
  {
    var key := s.db.requests[id].source.sourceKey;
    before, bytes := s.current[key], s.versions[(key, s.current[key])];
    hide Leads, Fenced;
    t := Advances(cfg, o, s, id, Fresh, HeadBefore);
    t := Advances(cfg, o, t, id, Headed(before), Get);
    t := Advances(cfg, o, t, id, Fetched(before, bytes), HeadAfter);
  }

  lemma InsertsIt(cfg: Config, o: State, s: State, id: Id, before: Identity, bytes: Bytes)
    returns (t: State, c: Capture)
    requires Solo(cfg, o, s, id, Captured(before, bytes))
    ensures Solo(cfg, o, t, id, Generated(c)) && t.current == s.current && t.versions == s.versions
  {
    var gid := FreshExists(s.db.generations.Keys);
    var capture := FreshExists(s.issued);
    t := Inserts(cfg, o, s, 0, gid, capture, s.clock);
    c := t.procs[0].phase.work.c;
  }

  lemma UploadsIt(cfg: Config, o: State, s: State, id: Id, c: Capture) returns (t: State)
    requires Reachable(cfg, o) && Solo(cfg, o, s, id, Generated(c))
    ensures Solo(cfg, o, t, id, Restored(c, t.clock)) && t.current == s.current && t.versions == s.versions
  {
    ReachableLeads(cfg, o, s);
    PutIsNeverRefused(cfg, s, 0);
    hide Leads, Reachable, Fenced;
    t := Advances(cfg, o, s, id, Generated(c), Put(true, c.bytes));
    t := Advances(cfg, o, t, id, Uploaded(c), ReadBack(t.clock));
  }

  lemma SealsIt(cfg: Config, o: State, s: State, id: Id, c: Capture, at: int) returns (t: State)
    requires Reachable(cfg, o) && Solo(cfg, o, s, id, Restored(c, at))
    ensures Solo(cfg, o, t, id, Confirmed(c, at)) && t.current == s.current && t.versions == s.versions
  {
    ReachableLeads(cfg, o, s);
    PutIsNeverRefused(cfg, s, 0);
    hide Leads, Reachable, Fenced;
    var metadata := Metadata(cfg, s.db.requests[id].source, c, at);
    t := Advances(cfg, o, s, id, Restored(c, at), PutManifest(true, metadata));
    t := Advances(cfg, o, t, id, Sealed(c, at), ReadManifest);
  }

  lemma CommitsIt(cfg: Config, o: State, s: State, id: Id, c: Capture, at: int) returns (t: State)
    requires Reachable(cfg, o) && Solo(cfg, o, s, id, Confirmed(c, at))
    ensures Leads(cfg, o, t) && VerifiedIn(t.db, id) && t.current == s.current && t.versions == s.versions
  {
    ReachableLeads(cfg, o, s);
    CommitIffHolding(cfg, s, 0, Commit(s.clock, true));
    t := Does(cfg, o, s, 0, Commit(s.clock, true));
  }

  /** A worker that nobody and nothing disturbs takes its claim all the way. */
  lemma CopiesIt(cfg: Config, o: State, s: State, id: Id) returns (t: State)
    requires Reachable(cfg, o) && Solo(cfg, o, s, id, Fresh) && SourceReady(s, s.db.requests[id].source)
    ensures Leads(cfg, o, t) && VerifiedIn(t.db, id) && t.current == s.current && t.versions == s.versions
  {
    hide *;
    var a, before, bytes := CapturesIt(cfg, o, s, id);
    var b, c := InsertsIt(cfg, o, a, id, before, bytes);
    var d := UploadsIt(cfg, o, b, id, c);
    var e := SealsIt(cfg, o, d, id, c, d.clock);
    t := CommitsIt(cfg, o, e, id, c, d.clock);
  }

  // ----- the theorem -----

  /** The row is ours and not at the end of its retries. */
  predicate Retriable(cfg: Config, r: Request) {
    r.source.sourceBucket == cfg.bucket && !Exhausted(r)
  }

  /** From when on a row can be claimed. */
  function DueAt(r: Request): int {
    if r.state.Copying? && r.leaseUntil.Some? then r.leaseUntil.value else r.nextAttemptAt
  }

  lemma DueIsEligible(cfg: Config, s: State, id: Id, now: int)
    requires Reachable(cfg, s) && id in s.db.requests && Retriable(cfg, s.db.requests[id])
    requires !s.db.requests[id].state.Verified? && DueAt(s.db.requests[id]) <= now
    ensures Wins(s.db, cfg.bucket, id, now)
  {
    ReachableInv(cfg, s);
    assert RowOk(s.db.requests[id]);
  }

  /**
   * From every reachable state a request of this bucket that is neither verified nor exhausted, and whose
   * source object is there in the right size, still has a continuation in which it becomes VERIFIED and
   * in which nobody touches the source.
   */
  lemma NeverWedged(cfg: Config, s: State, id: Id) returns (t: State)
    requires Reachable(cfg, s) && id in s.db.requests && !s.db.requests[id].state.Verified?
    requires Retriable(cfg, s.db.requests[id]) && SourceReady(s, s.db.requests[id].source)
    ensures Leads(cfg, s, t) && VerifiedIn(t.db, id) && t.current == s.current && t.versions == s.versions
  {
    var r := s.db.requests[id];
    var due := if DueAt(r) < s.clock then s.clock else DueAt(r);
    DueIsEligible(cfg, s, id, due);
    assert After(cfg, s, []) == s;
    var a := AllCrash(cfg, s, s);
    var b := Waits(cfg, s, a, due);
    var c, owner := IsReached(cfg, s, b, id);
    var d := Rereads(cfg, s, c, 0);
    t := CopiesIt(cfg, s, d, id);
  }

  // ----- and exactly which ones can -----

  /** Only rows of our bucket are ever claimed. */
  predicate OnlyOurs(cfg: Config, db: Database) {
    forall id | id in db.requests && !db.requests[id].state.Pending? ::
      db.requests[id].source.sourceBucket == cfg.bucket
  }

  lemma StepKeepsOurs(cfg: Config, s: State, e: Event)
    requires Reachable(cfg, s) && OnlyOurs(cfg, s.db)
    ensures OnlyOurs(cfg, Step(cfg, s, e).db)
  {
    var t := Step(cfg, s, e);
    ReachableInv(cfg, s);
    StepExtends(cfg, s, e);
    forall id | id in t.db.requests && !t.db.requests[id].state.Pending?
      ensures t.db.requests[id].source.sourceBucket == cfg.bucket
    {
      if id in s.db.requests { RowOrigin(cfg, s, e, id); } else { RowBirth(cfg, s, e, id); }
      hide Reachable, Inv, Step, Enabled, ClaimsRow, FailsRow, RowOk;
    }
  }

  lemma {:induction false} RunKeepsOurs(cfg: Config, s: State, run: seq<Event>)
    requires Reachable(cfg, s) && OnlyOurs(cfg, s.db)
    ensures OnlyOurs(cfg, After(cfg, s, run).db)
  {
    if run != [] {
      var front := run[..|run| - 1];
      RunKeepsOurs(cfg, s, front);
      ReachableAfter(cfg, s, front);
      StepKeepsOurs(cfg, After(cfg, s, front), run[|run| - 1]);
    }
  }

  /** What a verified row must have been like. */
  lemma VerifiedWas(cfg: Config, s: State, id: Id)
    requires Reachable(cfg, s) && VerifiedIn(s.db, id)
    ensures var source := s.db.requests[id].source; source.sourceBucket == cfg.bucket && SizePossible(source)
  {
    var run :| s == After(cfg, INIT, run);
    assert After(cfg, INIT, []) == INIT;
    assert Leads(cfg, INIT, INIT);
    RunKeepsOurs(cfg, INIT, run);
    var gid := VerifiedIsProtected(cfg, s, id);
  }

  predicate SizePossible(source: Source) {
    source.expectedSize.Some? ==> source.expectedSize.value >= 0
  }

  /** A length that no ETag of a version has. */
  lemma {:induction false} FreshLength(versions: set<(string, Identity)>) returns (n: nat)
    ensures n >= 1 && forall v | v in versions :: |v.1.etag| < n
  {
    if versions == {} {
      n := 1;
    } else {
      var v :| v in versions;
      var m := FreshLength(versions - {v});
      n := if |v.1.etag| < m then m else |v.1.etag| + 1;
      forall x | x in versions ensures |x.1.etag| < n { assert x == v || x in versions - {v}; }
    }
  }

  /** Someone puts an object of the right size into the source bucket. */
  lemma Supplies(cfg: Config, o: State, s: State, source: Source) returns (t: State)
    requires Leads(cfg, o, s) && SizePossible(source)
    ensures Leads(cfg, o, t) && SourceReady(t, source) && t.db == s.db
  {
    var n := FreshLength(s.versions.Keys);
    var size := if source.expectedSize.Some? then source.expectedSize.value else 0;
    var identity := Identity(seq(n, _ => 'e'), "modified", size);
    var e := Overwrite(source.sourceKey, identity, seq(size, _ => 0));
    assert (source.sourceKey, identity) !in s.versions.Keys by {
      assert |identity.etag| == n;
    }
    assert |identity.etag| >= 1;
    LeadsStep(cfg, o, s, e);
    t := Step(cfg, s, e);
  }

  /**
   * In every reachable state: some continuation verifies the request if and only if it is verified already,
   * or it is a request of this bucket with attempts left that does not ask for a negative size.
   */
  lemma CanBeVerifiedIff(cfg: Config, s: State, id: Id)
    requires Reachable(cfg, s) && id in s.db.requests
    ensures var r := s.db.requests[id];
      (exists t :: Leads(cfg, s, t) && VerifiedIn(t.db, id))
        <==> r.state.Verified? || (Retriable(cfg, r) && SizePossible(r.source))
  {
    var r := s.db.requests[id];
    assert After(cfg, s, []) == s;
    assert Leads(cfg, s, s);
    if r.state.Verified? {
      assert VerifiedIn(s.db, id);
    } else if Retriable(cfg, r) && SizePossible(r.source) {
      var a := Supplies(cfg, s, s, r.source);
      ReachableLeads(cfg, s, a);
      var t := NeverWedged(cfg, a, id);
      LeadsTransitive(cfg, s, a, t);
      assert Leads(cfg, s, t) && VerifiedIn(t.db, id);
    }
    forall t | Leads(cfg, s, t) && VerifiedIn(t.db, id)
      ensures r.state.Verified? || (Retriable(cfg, r) && SizePossible(r.source))
    {
      var run :| t == After(cfg, s, run);
      ReachableLeads(cfg, s, t);
      VerifiedWas(cfg, t, id);
      ReachableInv(cfg, s);
      RunExtends(cfg, s, run);
    }
  }
}
