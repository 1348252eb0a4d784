/**
 * Retries over a whole run: how often a request is claimed, reclaimed and failed, how far apart its
 * claims are, and how many claims a queue can consume.
 */
module Budget {
  import opened Wrappers
  import opened Tables
  import opened Protocol
  import opened Safety
  import opened Fencing
  import opened Lease
  import opened Witness

  // ----- the ledger of one request -----

  /** Successful claims of a resting row, of an expired lease, effective failures, and the claim instants. */
  datatype Ledger = Ledger(ordinary: nat, reclaims: nat, failures: nat, claims: seq<int>)

  predicate ClaimsRow(cfg: Config, s: State, e: Event, id: Id) {
    && Enabled(cfg, s, e) && e.Act? && e.a.Cas?
    && s.procs[e.w].phase.rest[0] == id
    && Wins(s.db, cfg.bucket, id, s.procs[e.w].phase.now)
  }

  predicate FailsRow(cfg: Config, s: State, e: Event, id: Id) {
    && Enabled(cfg, s, e) && e.Act? && e.a.FailUpdate?
    && s.procs[e.w].phase.rid == id
    && FailMatches(s.db, id, s.procs[e.w].phase.request.leaseOwner)
  }

  function Entry(cfg: Config, s: State, e: Event, id: Id, l: Ledger): Ledger {
    if ClaimsRow(cfg, s, e, id) then
      var claims := l.claims + [s.procs[e.w].phase.now];
      if Resting(s.db.requests[id]) then l.(ordinary := l.ordinary + 1, claims := claims)
      else l.(reclaims := l.reclaims + 1, claims := claims)
    else if FailsRow(cfg, s, e, id) then l.(failures := l.failures + 1)
    else l
  }

  function LedgerOf(cfg: Config, run: seq<Event>, id: Id): Ledger {
    if run == [] then Ledger(0, 0, 0, [])
    else
      var front := run[..|run| - 1];
      Entry(cfg, After(cfg, INIT, front), run[|run| - 1], id, LedgerOf(cfg, front, id))
  }

  /** How one event changes one row: it claims it, fails it, verifies it, inserts it, or leaves it alone. */
  lemma RowOrigin(cfg: Config, s: State, e: Event, id: Id)
    requires Reachable(cfg, s) && id in s.db.requests
    ensures id in Step(cfg, s, e).db.requests
    ensures var r := s.db.requests[id]; var q := Step(cfg, s, e).db.requests[id];
      && RowOk(r)
      && (ClaimsRow(cfg, s, e, id) ==>
          (q == Claimed(r, s.procs[e.w].phase.owner, s.procs[e.w].phase.now)
           && Eligible(r, cfg.bucket, s.procs[e.w].phase.now)))
      && (FailsRow(cfg, s, e, id) ==>
          (r.state.Copying? && Resting(q) && q.attempts == r.attempts >= 1
           && q.nextAttemptAt == e.a.now + Backoff(r.attempts) * 1000))
      && (!ClaimsRow(cfg, s, e, id) && !FailsRow(cfg, s, e, id) ==>
          (q == r || (r.state.Copying? && q.state.Verified? && q.attempts == r.attempts)))
  {
    hide NextDb, NextStore, NextLate, NextPhase, NextIssued;
    assert RowOk(s.db.requests[id]) by { ReachableInv(cfg, s); }
    if Enabled(cfg, s, e) && e.Act? {
      RowOfAct(cfg, s, e.w, e.a, id);
    }
  }

  /** The same of one action, in terms of the statement it executes. */
  lemma RowOfAct(cfg: Config, s: State, w: ProcId, a: Action, id: Id)
    requires Reachable(cfg, s) && id in s.db.requests && w in s.procs && ActionReady(cfg, s, s.procs[w], a)
    ensures id in NextDb(cfg, s, s.procs[w], a).requests
    ensures var r, q, ph := s.db.requests[id], NextDb(cfg, s, s.procs[w], a).requests[id], s.procs[w].phase;
      if a.Cas? && ph.rest[0] == id && Wins(s.db, cfg.bucket, id, ph.now) then q == Claimed(r, ph.owner, ph.now)
      else if a.FailUpdate? && ph.rid == id && FailMatches(s.db, id, ph.request.leaseOwner) then
        && r.state.Copying? && Resting(q) && q.attempts == r.attempts >= 1
        && q.nextAttemptAt == a.now + Backoff(r.attempts) * 1000
      else q == r || (r.state.Copying? && q.state.Verified? && q.attempts == r.attempts)
  {
    if a.FailUpdate? { HolderFacts(cfg, s, w); }
  }

  lemma RowBirth(cfg: Config, s: State, e: Event, id: Id)
    requires id !in s.db.requests
    ensures !ClaimsRow(cfg, s, e, id) && !FailsRow(cfg, s, e, id)
    ensures id in Step(cfg, s, e).db.requests ==>
      Step(cfg, s, e).db.requests[id].state.Pending? && Step(cfg, s, e).db.requests[id].attempts == 0
  {
  }

  predicate LedgerOk(s: State, id: Id, l: Ledger) {
    if id !in s.db.requests then l == Ledger(0, 0, 0, [])
    else
      var r := s.db.requests[id];
      && r.attempts == l.ordinary + l.reclaims == |l.claims|
      && l.ordinary == l.failures + (if r.state.Copying? || r.state.Verified? then 1 else 0)
      && l.ordinary <= MAX_ATTEMPTS
  }

  lemma EntryKeepsLedger(cfg: Config, s: State, e: Event, id: Id, l: Ledger)
    requires Reachable(cfg, s) && LedgerOk(s, id, l)
    ensures LedgerOk(Step(cfg, s, e), id, Entry(cfg, s, e, id, l))
  {
    if id in s.db.requests {
      RowOrigin(cfg, s, e, id);
    } else {
      RowBirth(cfg, s, e, id);
    }
  }

  /**
   * The books always balance: `attempts` counts the successful claims, ordinary and reclaimed; every
   * ordinary claim but the one in progress (or the one that verified) was paid for by an effective
   * failure; and there are at most ten of them.
   */
  lemma {:induction false} AttemptsBalance(cfg: Config, run: seq<Event>, id: Id)
    ensures LedgerOk(After(cfg, INIT, run), id, LedgerOf(cfg, run, id))
  {
    if run != [] {
      var front := run[..|run| - 1];
      AttemptsBalance(cfg, front, id);
      assert Reachable(cfg, After(cfg, INIT, front));
      EntryKeepsLedger(cfg, After(cfg, INIT, front), run[|run| - 1], id, LedgerOf(cfg, front, id));
    }
  }

  /** Over any run a request records at most ten effective failures, nine while it is being copied. */
  lemma AtMostTenFailures(cfg: Config, run: seq<Event>, id: Id)
    ensures LedgerOf(cfg, run, id).failures <= 10
    ensures var s := After(cfg, INIT, run);
      id in s.db.requests && s.db.requests[id].state.Copying? ==> LedgerOf(cfg, run, id).failures <= 9
    ensures var s := After(cfg, INIT, run);
      id in s.db.requests && s.db.requests[id].attempts > 10 ==> LedgerOf(cfg, run, id).reclaims >= 1
  {
    AttemptsBalance(cfg, run, id);
  }

  /** Reclaiming is not counted against the budget: workers that keep crashing drive `attempts` past any bound. */
  lemma {:induction false} ReclaimedWithoutBound(cfg: Config, n: nat) returns (s: State)
    ensures Reachable(cfg, s) && s.procs == map[] && s.db.requests.Keys == {0}
    ensures s.db.requests[0].attempts == n && Eligible(s.db.requests[0], cfg.bucket, s.clock)
  {
    if n == 0 {
      assert After(cfg, INIT, []) == INIT;
      ReachableStep(cfg, INIT, Enqueue(0, WitnessSource(cfg), 0));
      s := Step(cfg, INIT, Enqueue(0, WitnessSource(cfg), 0));
    } else {
      var a := ReclaimedWithoutBound(cfg, n - 1);
      var owner := FreshExists(a.issued);
      assert CandidateList(a.db, cfg.bucket, a.clock, [0]);
      var b := Takes(cfg, INIT, a, 7, a.clock, [0], owner);
      ReachableStep(cfg, b, Crash(7));
      var c := Step(cfg, b, Crash(7));
      assert c.procs == map[];
      ReachableStep(cfg, c, Tick(a.clock + LEASE_MS));
      s := Step(cfg, c, Tick(a.clock + LEASE_MS));
    }
  }

  // ----- how far apart the claims of one request are -----

  /** No `now` captured for a claim lies ahead of the clocks that can be read. */
  predicate NowPast(cfg: Config, s: State) {
    forall w | w in s.procs && Claiming(s.procs[w].phase) :: s.procs[w].phase.now <= s.clock + cfg.late
  }

  lemma {:induction false} RunKeepsNowPast(cfg: Config, run: seq<Event>)
    requires cfg.timed
    ensures NowPast(cfg, After(cfg, INIT, run))
  {
    if run != [] {
      RunKeepsNowPast(cfg, run[..|run| - 1]);
      StepKeepsNowPast(cfg, After(cfg, INIT, run[..|run| - 1]), run[|run| - 1]);
    }
  }

  lemma StepKeepsNowPast(cfg: Config, s: State, e: Event)
    requires cfg.timed && NowPast(cfg, s)
    ensures NowPast(cfg, Step(cfg, s, e))
  {
  }

  /** The clock disagreement two readings can show. */
  function Spread(cfg: Config): nat {
    cfg.early + cfg.late
  }

  /** Claim k+1 comes at least `Backoff(k)` seconds after claim k, less the clock spread. */
  predicate Spaced(cfg: Config, claims: seq<int>) {
    forall k | 1 <= k < |claims| :: claims[k] - claims[k - 1] >= Backoff(k) * 1000 - Spread(cfg)
  }

  /** What the row remembers of its last claim. */
  predicate SpacedRow(cfg: Config, clock: int, r: Request, claims: seq<int>) {
    claims != [] ==>
      && var last := claims[|claims| - 1];
      && last <= clock + cfg.late
      && (r.state.Copying? ==> r.leaseUntil == Some(last + LEASE_MS))
      && (Resting(r) ==> r.nextAttemptAt >= last + Backoff(r.attempts) * 1000 - Spread(cfg))
  }

  predicate SpacingOk(cfg: Config, s: State, id: Id, l: Ledger) {
    && Spaced(cfg, l.claims)
    && (id in s.db.requests ==> SpacedRow(cfg, s.clock, s.db.requests[id], l.claims))
  }

  lemma ClaimSpaced(cfg: Config, clock: int, later: int, r: Request, owner: Uuid, now: int, claims: seq<int>)
    requires RowOk(r) && |claims| == r.attempts && Spaced(cfg, claims) && SpacedRow(cfg, clock, r, claims)
    requires Eligible(r, cfg.bucket, now) && now <= clock + cfg.late && clock <= later
    ensures Spaced(cfg, claims + [now]) && SpacedRow(cfg, later, Claimed(r, owner, now), claims + [now])
  {
  }

  lemma EntryKeepsSpacing(cfg: Config, s: State, e: Event, id: Id, l: Ledger)
    requires cfg.timed && Reachable(cfg, s) && NowPast(cfg, s) && LedgerOk(s, id, l) && SpacingOk(cfg, s, id, l)
    ensures SpacingOk(cfg, Step(cfg, s, e), id, Entry(cfg, s, e, id, l))
  {
    EventTimes(cfg, s, e, id);
    if id !in s.db.requests {
      RowBirth(cfg, s, e, id);
    } else {
      RowOrigin(cfg, s, e, id);
      hide Reachable, Enabled, Step, ClaimsRow, FailsRow, NowPast, RowOk, Eligible, Spaced;
      if ClaimsRow(cfg, s, e, id) {
        var ph := s.procs[e.w].phase;
        ClaimSpaced(cfg, s.clock, Step(cfg, s, e).clock, s.db.requests[id], ph.owner, ph.now, l.claims);
      }
    }
  }

  /** The clock never runs back, a claim's `now` is no later than it can be read, a failure's no earlier. */
  lemma EventTimes(cfg: Config, s: State, e: Event, id: Id)
    requires cfg.timed && NowPast(cfg, s)
    ensures s.clock <= Step(cfg, s, e).clock
    ensures ClaimsRow(cfg, s, e, id) ==> s.procs[e.w].phase.now <= s.clock + cfg.late
    ensures FailsRow(cfg, s, e, id) ==> e.a.now >= s.clock - cfg.early
  {
  }

  lemma {:induction false} RunKeepsSpacing(cfg: Config, run: seq<Event>, id: Id)
    requires cfg.timed
    ensures SpacingOk(cfg, After(cfg, INIT, run), id, LedgerOf(cfg, run, id))
  {
    if run != [] {
      var front := run[..|run| - 1];
      RunKeepsSpacing(cfg, front, id);
      RunKeepsNowPast(cfg, front);
      AttemptsBalance(cfg, front, id);
      assert Reachable(cfg, After(cfg, INIT, front));
      EntryKeepsSpacing(cfg, After(cfg, INIT, front), run[|run| - 1], id, LedgerOf(cfg, front, id));
    }
  }

  /** Spacing accumulates: j - i claims later is at least that many times thirty seconds later. */
  lemma {:induction false} SpacingAccumulates(claims: seq<int>, gap: int, i: nat, j: nat)
    requires i <= j < |claims| && forall k | 1 <= k < |claims| :: claims[k] - claims[k - 1] >= gap
    ensures claims[j] - claims[i] >= gap * (j - i)
    decreases j
  {
    if i < j {
      SpacingAccumulates(claims, gap, i, j - 1);
      assert gap * (j - i) == gap * (j - 1 - i) + gap;
    }
  }

  /**
   * Under one clock, consecutive successful claims of a request are at least the back-off of the
   * earlier one apart, hence at least thirty seconds; so the claims that fall within any window of
   * `window` milliseconds number at most window / 30000 + 1.
   */
  lemma ClaimsAreSpaced(cfg: Config, run: seq<Event>, id: Id, i: nat, j: nat, window: nat)
    requires cfg.timed && Spread(cfg) == 0
    requires i <= j < |LedgerOf(cfg, run, id).claims|
    requires LedgerOf(cfg, run, id).claims[j] - LedgerOf(cfg, run, id).claims[i] <= window
    ensures forall k | 1 <= k < |LedgerOf(cfg, run, id).claims| ::
      LedgerOf(cfg, run, id).claims[k] - LedgerOf(cfg, run, id).claims[k - 1] >= Backoff(k) * 1000
    ensures j - i + 1 <= window / 30000 + 1
  {
    RunKeepsSpacing(cfg, run, id);
    Window(cfg, LedgerOf(cfg, run, id).claims, i, j, window);
  }

  lemma Window(cfg: Config, claims: seq<int>, i: nat, j: nat, window: nat)
    requires Spread(cfg) == 0 && Spaced(cfg, claims) && i <= j < |claims| && claims[j] - claims[i] <= window
    ensures j - i + 1 <= window / 30000 + 1
  {
    SpacingAccumulates(claims, 30000, i, j);
  }

  /** While a row is being copied its lease runs for ten minutes from the last claim, whatever the clocks do. */
  predicate LeasedFrom(m: map<Id, Request>, id: Id, claims: seq<int>) {
    id in m && m[id].state.Copying? ==>
      claims != [] && m[id].leaseUntil == Some(claims[|claims| - 1] + LEASE_MS)
  }

  lemma EntryKeepsLeasedFrom(cfg: Config, s: State, e: Event, id: Id, l: Ledger)
    requires Reachable(cfg, s) && LeasedFrom(s.db.requests, id, l.claims)
    ensures LeasedFrom(Step(cfg, s, e).db.requests, id, Entry(cfg, s, e, id, l).claims)
  {
    if id in s.db.requests { RowOrigin(cfg, s, e, id); } else { RowBirth(cfg, s, e, id); }
    hide Reachable, Enabled, Step, ClaimsRow, FailsRow, RowOk, Eligible;
  }

  lemma {:induction false} RunKeepsLeasedFrom(cfg: Config, run: seq<Event>, id: Id)
    ensures LeasedFrom(After(cfg, INIT, run).db.requests, id, LedgerOf(cfg, run, id).claims)
  {
    if run != [] {
      var front := run[..|run| - 1];
      RunKeepsLeasedFrom(cfg, front, id);
      assert Leads(cfg, INIT, After(cfg, INIT, front));
      EntryKeepsLeasedFrom(cfg, After(cfg, INIT, front), run[|run| - 1], id, LedgerOf(cfg, front, id));
    }
  }

  /** An expired lease is taken over no earlier than ten minutes after the claim it came from. */
  lemma ReclaimsWaitForTheLease(cfg: Config, run: seq<Event>, e: Event, id: Id)
    requires ClaimsRow(cfg, After(cfg, INIT, run), e, id)
    requires !Resting(After(cfg, INIT, run).db.requests[id])
    ensures var claims := LedgerOf(cfg, run + [e], id).claims;
      |claims| >= 2 && claims[|claims| - 1] - claims[|claims| - 2] >= LEASE_MS
  {
    LedgerAfterClaim(cfg, run, e, id);
    RunKeepsLeasedFrom(cfg, run, id);
    hide After, LedgerOf, Entry;
  }

  lemma LedgerAfterClaim(cfg: Config, run: seq<Event>, e: Event, id: Id)
    requires ClaimsRow(cfg, After(cfg, INIT, run), e, id)
    ensures LedgerOf(cfg, run + [e], id).claims ==
      LedgerOf(cfg, run, id).claims + [After(cfg, INIT, run).procs[e.w].phase.now]
  {
    assert (run + [e])[..|run + [e]| - 1] == run;
  }

  // ----- the whole queue -----

  /** The ordinary claims a request can still consume. */
  function Spare(r: Request): nat {
    if r.state.Verified? || r.attempts >= MAX_ATTEMPTS then 0 else MAX_ATTEMPTS - r.attempts
  }

  ghost function Remaining(m: map<Id, Request>): nat {
    if m == map[] then 0
    else var id :| id in m; Spare(m[id]) + Remaining(m - {id})
  }

  lemma {:induction false} RemainingSplit(m: map<Id, Request>, id: Id)
    requires id in m
    ensures Remaining(m) == Spare(m[id]) + Remaining(m - {id})
    decreases |m|
  {
    var x :| x in m && Remaining(m) == Spare(m[x]) + Remaining(m - {x});
    if x != id {
      RemainingSplit(m - {x}, id);
      RemainingSplit(m - {id}, x);
      assert m - {x} - {id} == m - {id} - {x};
    }
  }

  lemma RemainingUpdate(m: map<Id, Request>, id: Id, r: Request)
    ensures id in m ==> Remaining(m[id := r]) == Remaining(m) - Spare(m[id]) + Spare(r)
    ensures id !in m ==> Remaining(m[id := r]) == Remaining(m) + Spare(r)
  {
    RemainingSplit(m[id := r], id);
    if id in m {
      RemainingSplit(m, id);
      assert m[id := r] - {id} == m - {id};
    } else {
      assert m[id := r] - {id} == m;
    }
  }

  /** An ordinary successful claim, of whichever request. */
  predicate OrdinaryClaim(cfg: Config, s: State, e: Event) {
    && Enabled(cfg, s, e) && e.Act? && e.a.Cas?
    && Wins(s.db, cfg.bucket, s.procs[e.w].phase.rest[0], s.procs[e.w].phase.now)
    && Resting(s.db.requests[s.procs[e.w].phase.rest[0]])
  }

  function OrdinaryClaims(cfg: Config, run: seq<Event>): nat {
    if run == [] then 0
    else
      var front := run[..|run| - 1];
      OrdinaryClaims(cfg, front) + (if OrdinaryClaim(cfg, After(cfg, INIT, front), run[|run| - 1]) then 1 else 0)
  }

  /** The row an event writes, if any. */
  function RowOf(s: State, e: Event): Id {
    if e.Enqueue? then e.id
    else if !e.Act? || e.w !in s.procs then 0
    else
      var ph := s.procs[e.w].phase;
      if e.a.Cas? && ph.Issued? && ph.rest != [] then ph.rest[0]
      else if (e.a.Commit? || e.a.FailUpdate?) && ph.Held? then ph.rid
      else 0
  }

  lemma OneRow(cfg: Config, s: State, e: Event)
    ensures var m, n, id := s.db.requests, Step(cfg, s, e).db.requests, RowOf(s, e);
      n == m || (id in n && n == m[id := n[id]] && (id !in m ==> n[id].attempts == 0))
  {
  }

  lemma OrdinaryRow(cfg: Config, s: State, e: Event)
    requires OrdinaryClaim(cfg, s, e)
    ensures var id := RowOf(s, e); id in s.db.requests && ClaimsRow(cfg, s, e, id) && Resting(s.db.requests[id])
  {
  }

  /** A claim of a resting row uses one attempt; every other event leaves a row no more of them than it had. */
  lemma SpareStep(cfg: Config, s: State, e: Event, id: Id)
    requires Reachable(cfg, s) && id in s.db.requests
    ensures id in Step(cfg, s, e).db.requests
    ensures var r, q := s.db.requests[id], Step(cfg, s, e).db.requests[id];
      && Spare(q) <= Spare(r)
      && (ClaimsRow(cfg, s, e, id) && Resting(r) ==> Spare(q) == Spare(r) - 1)
  {
    RowOrigin(cfg, s, e, id);
    hide Reachable, Enabled, Step, ClaimsRow, FailsRow;
  }

  lemma QueueStep(cfg: Config, s: State, e: Event)
    requires Reachable(cfg, s)
    ensures var m := s.db.requests; var n := Step(cfg, s, e).db.requests;
      && (OrdinaryClaim(cfg, s, e) ==> Remaining(n) == Remaining(m) - 1 && |n| == |m|)
      && (!OrdinaryClaim(cfg, s, e) ==> Remaining(n) - Remaining(m) <= MAX_ATTEMPTS * (|n| - |m|))
  {
    var m, n, id := s.db.requests, Step(cfg, s, e).db.requests, RowOf(s, e);
    OneRow(cfg, s, e);
    if OrdinaryClaim(cfg, s, e) { OrdinaryRow(cfg, s, e); }
    if id in m { SpareStep(cfg, s, e, id); }
    hide Reachable, Enabled, Step, ClaimsRow, OrdinaryClaim, RowOf, Eligible;
    if n != m {
      RemainingUpdate(m, id, n[id]);
      Counted(m, id, n[id]);
    }
  }

  lemma Counted(m: map<Id, Request>, id: Id, r: Request)
    ensures |m[id := r]| == |m| + (if id in m then 0 else 1)
  {
    assert m[id := r].Keys == m.Keys + {id};
    assert |m[id := r].Keys| == |m[id := r]| && |m.Keys| == |m|;
    if id in m { assert m.Keys + {id} == m.Keys; }
  }

  /**
   * The remaining ordinary attempts are a termination measure of the whole queue: each ordinary claim
   * uses one up, nothing but an enqueue adds any, and so any run at all contains at most ten ordinary
   * claims per request; without lease expiry those are all the claims there are.
   */
  lemma {:induction false} QueueBudget(cfg: Config, run: seq<Event>)
    ensures var m := After(cfg, INIT, run).db.requests;
      OrdinaryClaims(cfg, run) + Remaining(m) <= MAX_ATTEMPTS * |m|
  {
    if run != [] {
      var front := run[..|run| - 1];
      QueueBudget(cfg, front);
      assert Reachable(cfg, After(cfg, INIT, front));
      QueueStep(cfg, After(cfg, INIT, front), run[|run| - 1]);
    }
  }
}
