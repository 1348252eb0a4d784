/**
 * Concrete runs of the protocol, step by step: how a worker wins a request, and how a lone one captures
 * the source, uploads, reads back and commits.  The counterexamples and the exactness results are built
 * from them.
 */
module Witness {
  import opened Wrappers
  import opened Tables
  import opened Execution
  import opened Protocol
  import opened Safety

  const KEY := "key"
  const WITNESS_HEAD := Identity("etag", "modified", 0)

  function WitnessSource(cfg: Config): Source {
    Source(cfg.bucket, KEY, "DOCUMENT_VERSION", "version", None, 0)
  }

  function Started(s: State, phase: Phase): Proc {
    Proc(Installed(s.clock, s.clock), phase)
  }

  /** Uuids are numbers here, so a finite set of them leaves one out. */
  lemma {:induction false} FreshExists(used: set<Uuid>) returns (u: Uuid)
    ensures forall v | v in used :: v < u
  {
    if used == {} {
      u := 0;
    } else {
      var v :| v in used;
      var w := FreshExists(used - {v});
      u := if v < w then w else v + 1;
      forall x | x in used ensures x < u { assert x == v || x in used - {v}; }
    }
  }

  lemma {:induction false} EarliestExists(db: Database, ids: set<Id>) returns (id: Id)
    requires ids != {} && ids <= db.requests.Keys
    ensures id in ids && forall j | j in ids :: db.requests[id].source.finalizedAt <= db.requests[j].source.finalizedAt
  {
    id :| id in ids;
    if ids != {id} {
      var other := EarliestExists(db, ids - {id});
      if db.requests[other].source.finalizedAt < db.requests[id].source.finalizedAt {
        id := other;
      } else {
        forall j | j in ids ensures db.requests[id].source.finalizedAt <= db.requests[j].source.finalizedAt {
          if j != id { assert j in ids - {id}; }
        }
      }
    }
  }

  /** The eligible rows. */
  function EligibleIds(db: Database, bucket: string, now: int): set<Id> {
    set id | id in db.requests && Eligible(db.requests[id], bucket, now)
  }

  /** `cands` are distinct, ordered by `finalizedAt`, none later than any of `remaining`; together they are `all`. */
  predicate Earliest(db: Database, all: set<Id>, cands: seq<Id>, remaining: set<Id>) {
    && remaining <= all <= db.requests.Keys
    && (forall id | id in all :: id in cands || id in remaining)
    && (forall i | 0 <= i < |cands| :: cands[i] in all && cands[i] !in remaining)
    && (forall i, j | 0 <= i < j < |cands| :: cands[i] != cands[j])
    && (forall i, j | 0 <= i < j < |cands| ::
          db.requests[cands[i]].source.finalizedAt <= db.requests[cands[j]].source.finalizedAt)
    && (forall i, id | 0 <= i < |cands| && id in remaining ::
          db.requests[cands[i]].source.finalizedAt <= db.requests[id].source.finalizedAt)
  }

  /** The query of a claim always has an answer. */
  lemma CandidatesExist(db: Database, bucket: string, now: int) returns (cands: seq<Id>)
    ensures CandidateList(db, bucket, now, cands)
  {
    var remaining := EligibleIds(db, bucket, now);
    var all := remaining;
    cands := [];
    while remaining != {} && |cands| < CANDIDATE_LIMIT
      invariant |cands| <= CANDIDATE_LIMIT && Earliest(db, all, cands, remaining)
      decreases remaining
    {
      var id := EarliestExists(db, remaining);
      cands, remaining := cands + [id], remaining - {id};
    }
  }

  /** One enabled step of a process, on a run that began at `o`. */
  lemma Does(cfg: Config, o: State, s: State, w: ProcId, a: Action) returns (t: State)
    requires Leads(cfg, o, s) && w in s.procs && ActionReady(cfg, s, s.procs[w], a)
    ensures Leads(cfg, o, t) && t == Perform(cfg, s, w, a)
  {
    LeadsStep(cfg, o, s, Act(w, a));
    t := Perform(cfg, s, w, a);
    assert t == Step(cfg, s, Act(w, a));
  }

  // ----- winning the first request of a list -----

  lemma Spawns(cfg: Config, o: State, s: State, w: ProcId, now: int) returns (t: State)
    requires Leads(cfg, o, s) && w !in s.procs && Reading(cfg, s.clock, now)
    ensures Leads(cfg, o, t) && t == s.(procs := s.procs[w := Started(s, Listing(now))])
  {
    LeadsStep(cfg, o, s, Spawn(w, s.clock));
    var a := Step(cfg, s, Spawn(w, s.clock));
    t := Does(cfg, o, a, w, Begin(s.clock, now));
    assert t.procs == s.procs[w := Started(s, Listing(now))];
  }

  /** A process starts, begins a claim and is answered a list of eligible requests. */
  lemma Lists(cfg: Config, o: State, s: State, w: ProcId, now: int, cands: seq<Id>) returns (t: State)
    requires Leads(cfg, o, s) && w !in s.procs && Reading(cfg, s.clock, now)
    requires CandidateList(s.db, cfg.bucket, now, cands)
    ensures Leads(cfg, o, t) && t == s.(procs := s.procs[w := Started(s, Trying(now, cands))])
  {
    var b := Spawns(cfg, o, s, w, now);
    hide CandidateList, Leads;
    t := Does(cfg, o, b, w, List(cands));
    assert t.procs == s.procs[w := Started(s, Trying(now, cands))];
  }

  lemma Issues(cfg: Config, o: State, s: State, w: ProcId, now: int, cands: seq<Id>, owner: Uuid) returns (t: State)
    requires Leads(cfg, o, s) && w in s.procs && s.procs[w] == Started(s, Trying(now, cands))
    requires cands != [] && owner !in s.issued
    ensures Leads(cfg, o, t)
    ensures t == s.(issued := s.issued + {owner}, procs := s.procs[w := Started(s, Issued(now, cands, owner))])
  {
    t := Does(cfg, o, s, w, Issue(s.clock, owner));
  }

  lemma Swaps(cfg: Config, o: State, s: State, w: ProcId, now: int, cands: seq<Id>, owner: Uuid) returns (t: State)
    requires Leads(cfg, o, s) && w in s.procs && s.procs[w] == Started(s, Issued(now, cands, owner))
    requires cands != [] && Wins(s.db, cfg.bucket, cands[0], now)
    ensures Leads(cfg, o, t)
    ensures t == s.(db := ClaimCas(s.db, cfg.bucket, cands[0], owner, now),
                    procs := s.procs[w := Started(s, Won(cands[0], owner, now))])
  {
    t := Does(cfg, o, s, w, Cas);
  }

  /** And wins the first of them at the current instant. */
  lemma Takes(cfg: Config, o: State, s: State, w: ProcId, now: int, cands: seq<Id>, owner: Uuid) returns (t: State)
    requires Leads(cfg, o, s) && w !in s.procs && owner !in s.issued && Reading(cfg, s.clock, now)
    requires CandidateList(s.db, cfg.bucket, now, cands) && cands != []
    ensures Leads(cfg, o, t)
    ensures t == s.(db := ClaimCas(s.db, cfg.bucket, cands[0], owner, now), issued := s.issued + {owner},
                    procs := s.procs[w := Started(s, Won(cands[0], owner, now))])
  {
    assert Wins(s.db, cfg.bucket, cands[0], now);
    hide Leads, ClaimCas, CandidateList, Wins;
    var a := Lists(cfg, o, s, w, now, cands);
    var b := Issues(cfg, o, a, w, now, cands, owner);
    t := Swaps(cfg, o, b, w, now, cands, owner);
    assert t.procs == s.procs[w := Started(s, Won(cands[0], owner, now))];
  }

  lemma Rereads(cfg: Config, o: State, s: State, w: ProcId) returns (t: State)
    requires Leads(cfg, o, s) && w in s.procs && s.procs[w].phase.Won? && s.procs[w].phase.rid in s.db.requests
    ensures Leads(cfg, o, t)
    ensures var ph := s.procs[w].phase;
      t == s.(procs := s.procs[w := s.procs[w].(phase := Held(ph.rid, ph.token, ph.now, s.db.requests[ph.rid], Fresh))])
  {
    t := Does(cfg, o, s, w, Reread);
  }

  /** One step of a worker along the pipeline that is no statement on the tables. */
  lemma Works(cfg: Config, o: State, s: State, w: ProcId, a: Action) returns (t: State)
    requires Leads(cfg, o, s) && w in s.procs && s.procs[w].phase.Held? && ActionReady(cfg, s, s.procs[w], a)
    requires !a.Create? && !a.Commit? && !a.FailUpdate?
    ensures Leads(cfg, o, t)
    ensures var ph := s.procs[w].phase;
      t == s.(store := NextStore(cfg, s, s.procs[w], a), late := NextLate(cfg, s, s.procs[w], a),
              procs := s.procs[w := s.procs[w].(phase := ph.(work := NextWork(cfg, s, ph.request, ph.work, a)))])
  {
    t := Does(cfg, o, s, w, a);
  }

  lemma Inserts(cfg: Config, o: State, s: State, w: ProcId, gid: Id, capture: Uuid, at: int) returns (t: State)
    requires Leads(cfg, o, s) && w in s.procs && s.procs[w].phase.Held? && s.procs[w].phase.work.Captured?
    requires gid !in s.db.generations && capture !in s.issued && Reading(cfg, s.clock, at)
    ensures Leads(cfg, o, t)
    ensures var ph := s.procs[w].phase; var g := NewGeneration(ph.rid, capture, cfg.destination, at);
      t == s.(db := s.db.(generations := s.db.generations[gid := g]), issued := s.issued + {capture},
              procs := s.procs[w := s.procs[w].(
                phase := ph.(work := Generated(Capture(ph.work.before, ph.work.bytes, gid, g))))])
  {
    t := Does(cfg, o, s, w, Create(gid, capture, at));
  }

  // ----- one worker alone -----

  /** The one request, as the worker whose clock shows `since` claims it. */
  function WitnessRequest(cfg: Config, since: int): Request {
    Claimed(NewRequest(WitnessSource(cfg), since), 100, since)
  }

  function Alone(cfg: Config, since: int, work: Work): Proc {
    Proc(Installed(0, 0), Held(0, 100, since, WitnessRequest(cfg, since), work))
  }

  /** The clock stands at 0; request 0 is claimed by process 1, which has come this far. */
  predicate LoneWorker(cfg: Config, s: State, since: int, work: Work) {
    && s.clock == 0 && s.procs == map[1 := Alone(cfg, since, work)]
    && s.db.requests == map[0 := WitnessRequest(cfg, since)]
  }

  /** An empty object is in the source bucket, and request 0 for it is enqueued. */
  lemma Enqueues(cfg: Config, since: int) returns (b: State)
    requires Reading(cfg, 0, since)
    ensures Reachable(cfg, b)
    ensures b == State(Database(map[0 := NewRequest(WitnessSource(cfg), since)], map[]), map[KEY := WITNESS_HEAD],
                       map[(KEY, WITNESS_HEAD) := []], map[], {}, map[], {}, 0)
  {
    assert After(cfg, INIT, []) == INIT;
    var o := Overwrite(KEY, WITNESS_HEAD, []);
    ReachableStep(cfg, INIT, o);
    var a := Step(cfg, INIT, o);
    var q := Enqueue(0, WitnessSource(cfg), since);
    ReachableStep(cfg, a, q);
    b := Step(cfg, a, q);
  }

  /** Process 1 wins the request. */
  lemma FirstClaim(cfg: Config, since: int) returns (t: State)
    requires Reading(cfg, 0, since)
    ensures Reachable(cfg, t)
    ensures t == State(Database(map[0 := WitnessRequest(cfg, since)], map[]), map[KEY := WITNESS_HEAD],
                       map[(KEY, WITNESS_HEAD) := []], map[], {},
                       map[1 := Proc(Installed(0, 0), Won(0, 100, since))], {100}, 0)
  {
    var b := Enqueues(cfg, since);
    assert CandidateList(b.db, cfg.bucket, since, [0]);
    assert Wins(b.db, cfg.bucket, 0, since);
    hide Leads, CandidateList;
    t := Takes(cfg, INIT, b, 1, since, [0], 100);
    assert t.db.requests == map[0 := WitnessRequest(cfg, since)];
  }

  lemma Begins(cfg: Config, since: int) returns (t: State)
    requires Reading(cfg, 0, since)
    ensures Reachable(cfg, t) && LoneWorker(cfg, t, since, Fresh)
    ensures t.current == map[KEY := WITNESS_HEAD] && t.versions == map[(KEY, WITNESS_HEAD) := []]
    ensures t.db.generations == map[] && t.store == map[] && t.issued == {100}
  {
    var c := FirstClaim(cfg, since);
    hide Leads;
    t := Rereads(cfg, INIT, c, 1);
    assert t.procs == map[1 := Alone(cfg, since, Fresh)];
  }

  /** One step of the lone worker along the pipeline. */
  lemma Pipeline(cfg: Config, s: State, since: int, work: Work, a: Action) returns (t: State)
    requires Reachable(cfg, s) && LoneWorker(cfg, s, since, work)
    requires WorkReady(cfg, s, WitnessRequest(cfg, since), work, a) && !a.Create? && !a.Commit? && !a.FailUpdate?
    requires ActionReady(cfg, s, s.procs[1], a)
    ensures Reachable(cfg, t) && LoneWorker(cfg, t, since, NextWork(cfg, s, WitnessRequest(cfg, since), work, a))
    ensures t == s.(store := NextStore(cfg, s, s.procs[1], a), late := t.late, procs := t.procs)
  {
    t := Works(cfg, INIT, s, 1, a);
  }

  /** The row of the generation the lone worker creates. */
  function WitnessGeneration(cfg: Config): Generation {
    NewGeneration(0, 200, cfg.destination, 0)
  }

  function WitnessCapture(cfg: Config): Capture {
    Capture(WITNESS_HEAD, [], 0, WitnessGeneration(cfg))
  }

  lemma Fetches(cfg: Config, since: int) returns (t: State)
    requires Reading(cfg, 0, since)
    ensures Reachable(cfg, t) && LoneWorker(cfg, t, since, Fetched(WITNESS_HEAD, []))
    ensures t.current == map[KEY := WITNESS_HEAD]
    ensures t.db.generations == map[] && t.store == map[] && t.issued == {100}
  {
    t := Begins(cfg, since);
    t := Pipeline(cfg, t, since, Fresh, HeadBefore);
    t := Pipeline(cfg, t, since, Headed(WITNESS_HEAD), Get);
  }

  /** The lone worker captures the empty object and is about to upload it. */
  lemma Captures(cfg: Config, since: int) returns (t: State)
    requires Reading(cfg, 0, since)
    ensures Reachable(cfg, t) && LoneWorker(cfg, t, since, Generated(WitnessCapture(cfg)))
    ensures t.db.generations == map[0 := WitnessGeneration(cfg)] && t.store == map[]
  {
    t := Fetches(cfg, since);
    t := Pipeline(cfg, t, since, Fetched(WITNESS_HEAD, []), HeadAfter);
    hide Leads;
    t := Inserts(cfg, INIT, t, 1, 0, 200, 0);
    assert t.procs == map[1 := Alone(cfg, since, Generated(WitnessCapture(cfg)))];
  }

  /** It uploads; whatever lands is what the store holds. */
  lemma Uploads(cfg: Config, since: int, landed: Bytes) returns (t: State)
    requires Reading(cfg, 0, since)
    ensures Reachable(cfg, t) && LoneWorker(cfg, t, since, Uploaded(WitnessCapture(cfg)))
    ensures t.db.generations == map[0 := WitnessGeneration(cfg)] && t.store == map[ObjectKey(0, 200) := landed]
  {
    t := Captures(cfg, since);
    t := Pipeline(cfg, t, since, Generated(WitnessCapture(cfg)), Put(true, landed));
  }

  /** It reads back what it uploaded, stamps with the instant its clock shows, and writes the manifest. */
  lemma Seals(cfg: Config, since: int, at: int, landed: Bytes) returns (t: State)
    requires Reading(cfg, 0, since) && Reading(cfg, 0, at)
    ensures Reachable(cfg, t) && LoneWorker(cfg, t, since, Sealed(WitnessCapture(cfg), at))
    ensures t.db.generations == map[0 := WitnessGeneration(cfg)]
    ensures t.store == map[ObjectKey(0, 200) := [], ManifestKey(0, 200) := landed]
  {
    var c := WitnessCapture(cfg);
    t := Uploads(cfg, since, []);
    t := Pipeline(cfg, t, since, Uploaded(c), ReadBack(at));
    t := Pipeline(cfg, t, since, Restored(c, at), PutManifest(true, landed));
  }

  /** Everything goes right; only the commit is left. */
  lemma Confirms(cfg: Config, since: int, at: int) returns (t: State)
    requires Reading(cfg, 0, since) && Reading(cfg, 0, at)
    ensures Reachable(cfg, t) && LoneWorker(cfg, t, since, Confirmed(WitnessCapture(cfg), at))
    ensures t.db.generations == map[0 := WitnessGeneration(cfg)]
  {
    var c := WitnessCapture(cfg);
    t := Seals(cfg, since, at, Metadata(cfg, WitnessSource(cfg), c, at));
    t := Pipeline(cfg, t, since, Sealed(c, at), ReadManifest);
  }

  lemma Commits(cfg: Config, db: Database, at: int)
    requires db == Database(map[0 := WitnessRequest(cfg, 0)], map[0 := WitnessGeneration(cfg)])
    ensures
      var after := Verify(db, 0, Some(100), 0, EvidenceOf(cfg, WitnessCapture(cfg), at), 0);
      && after.requests.Keys == {0} && after.requests[0].state.Verified?
      && after.requests[0].source == WitnessSource(cfg)
      && Evidences(after, 0, 0) && after.generations[0].verifiedAt == Some(at)
  {
  }

  /** A run in which everything goes right, and whose stamp is whatever the worker's clock showed. */
  lemma StampedRun(cfg: Config, at: int) returns (u: State)
    requires Reading(cfg, 0, at)
    ensures Reachable(cfg, u)
    ensures u.db.requests.Keys == {0} && u.db.requests[0].state.Verified?
    ensures u.db.requests[0].source == WitnessSource(cfg)
    ensures Evidences(u.db, 0, 0) && u.db.generations[0].verifiedAt == Some(at)
  {
    var s := Confirms(cfg, 0, at);
    hide Leads;
    u := Does(cfg, INIT, s, 1, Commit(0, true));
    assert u.db == NextDb(cfg, s, s.procs[1], Commit(0, true));
    Commits(cfg, s.db, at);
    hide Perform, ActionReady, Verify;
  }
}
