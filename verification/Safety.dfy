/**
 * What every interleaving keeps, with no assumption on clocks, timers, pauses or crashes, on what a PUT
 * leaves behind, or on who overwrites the source: a VERIFIED request has exactly one verified generation,
 * that generation describes one version of the source object, and the store holds an object of the same
 * size and digest and the manifest of it, for ever after.
 */
module Safety {
  import opened Wrappers
  import opened Tables
  import opened Protocol

  // ----- the invariant -----

  predicate RowOk(r: Request) {
    && (r.state.Copying? <==> r.leaseOwner.Some?)
    && (r.leaseOwner.Some? <==> r.leaseUntil.Some?)
    && !r.state.Retired?
    && (r.state.Pending? <==> r.attempts == 0)
    && (r.failureCode.Some? <==> (r.state.Failed? || r.state.SourceMissing?))
  }

  /** Generation `gid` belongs to request `rid` and is verified. */
  predicate Evidences(db: Database, rid: Id, gid: Id) {
    gid in db.generations && db.generations[gid].requestId == rid && db.generations[gid].verifiedAt.Some?
  }

  predicate VerifiedIn(db: Database, rid: Id) {
    rid in db.requests && db.requests[rid].state.Verified?
  }

  /** The object is stored under its key with the recorded size and digest. */
  predicate ObjectStored(cfg: Config, store: map<Key, Bytes>, key: Key, size: int, sha256: string) {
    key in store && |store[key]| == size && cfg.digest(store[key]) == sha256
  }

  /** The recorded ETag, Last-Modified and size name a version of the source object with this size and digest. */
  predicate CopyOfSource(cfg: Config, s: State, key: string, named: Identity, sha256: string) {
    && (key, named) in s.versions
    && |s.versions[(key, named)]| == named.size
    && cfg.digest(s.versions[(key, named)]) == sha256
  }

  /** A verified generation is complete, and source and store hold what it and its manifest say. */
  predicate Protected(cfg: Config, s: State, g: Generation) {
    && g.requestId in s.db.requests
    && var r := s.db.requests[g.requestId];
    && r.state.Verified?
    && g.verifiedAt.Some? && g.sha256.Some? && g.observedSize.Some?
    && g.sourceETag.Some? && g.sourceLastModified.Some? && g.sourceETag.value != ""
    && (r.source.expectedSize.Some? ==> g.observedSize == r.source.expectedSize)
    && CopyOfSource(cfg, s, r.source.sourceKey,
                    Identity(g.sourceETag.value, g.sourceLastModified.value, g.observedSize.value), g.sha256.value)
    && ObjectStored(cfg, s.store, g.backupKey, g.observedSize.value, g.sha256.value)
    && g.manifestKey in s.store
    && s.store[g.manifestKey] == cfg.encode(ManifestOf(cfg, r.source, g, g.observedSize.value,
         g.sourceETag.value, g.sourceLastModified.value, g.sha256.value, g.verifiedAt.value))
  }

  /** Field by field: what the manifest of a verified generation has to say. */
  predicate Describes(cfg: Config, m: Manifest, source: Source, g: Generation) {
    && m.manifestVersion == 1 && m.environment == cfg.environment
    && m.sourceBucket == source.sourceBucket && m.sourceKey == source.sourceKey
    && m.referenceType == source.referenceType && m.referenceId == source.referenceId
    && g.observedSize == Some(m.size) && g.sourceETag == Some(m.etag)
    && g.sourceLastModified == Some(m.lastModified) && g.sha256 == Some(m.sha256)
    && m.destinationBucket == g.backupBucket && m.destinationKey == g.backupKey && m.captureId == g.captureId
    && m.backupTimestamp == g.createdAt && g.verifiedAt == Some(m.verificationTimestamp)
  }

  /** The store holds, under the manifest key, the printed form of a manifest that describes the generation. */
  ghost predicate ManifestStored(cfg: Config, s: State, g: Generation) {
    && g.requestId in s.db.requests && g.manifestKey in s.store
    && exists m: Manifest ::
         s.store[g.manifestKey] == cfg.encode(m) && Describes(cfg, m, s.db.requests[g.requestId].source, g)
  }

  predicate GenOk(cfg: Config, s: State, g: Generation) {
    && g.requestId in s.db.requests
    && g.captureId in s.issued
    && g.backupBucket == cfg.destination
    && g.backupKey == ObjectKey(g.requestId, g.captureId)
    && g.manifestKey == ManifestKey(g.requestId, g.captureId)
    && (if g.verifiedAt.Some? then Protected(cfg, s, g)
        else g.sha256.None? && g.observedSize.None? && g.sourceETag.None? && g.sourceLastModified.None?)
  }

  predicate CaptureOk(s: State, rid: Id, request: Request, c: Capture) {
    && c.gid in s.db.generations
    && var g := s.db.generations[c.gid];
    && g.requestId == rid
    && g.captureId == c.gen.captureId && g.backupBucket == c.gen.backupBucket
    && g.backupKey == c.gen.backupKey && g.manifestKey == c.gen.manifestKey && g.createdAt == c.gen.createdAt
    && CaptureIsVersion(s, request, c.before, c.bytes)
  }

  /** The first HEAD named a version of the source object, of the expected size if there is one. */
  predicate HeadOk(s: State, request: Request, before: Identity) {
    && ValidIdentity(before)
    && (request.source.sourceKey, before) in s.versions
    && (request.source.expectedSize.Some? ==> request.source.expectedSize.value == before.size)
  }

  /** The bytes are that version's, unless another version has become current meanwhile. */
  predicate FetchOk(s: State, request: Request, before: Identity, bytes: Bytes) {
    && HeadOk(s, request, before)
    && var key := request.source.sourceKey;
    && (key in s.current && s.current[key] == before ==> bytes == s.versions[(key, before)])
  }

  /** The bytes are that version's. */
  predicate CaptureIsVersion(s: State, request: Request, before: Identity, bytes: Bytes) {
    && HeadOk(s, request, before)
    && bytes == s.versions[(request.source.sourceKey, before)]
    && |bytes| == before.size
  }

  /** What the worker has established so far is still true of the tables and the store. */
  predicate WorkOk(cfg: Config, s: State, rid: Id, request: Request, work: Work) {
    match work
    case Fresh => true
    case Failing(_) => true
    case Headed(before) => HeadOk(s, request, before)
    case Fetched(before, bytes) => FetchOk(s, request, before, bytes)
    case Captured(before, bytes) => CaptureIsVersion(s, request, before, bytes)
    case Generated(c) => CaptureOk(s, rid, request, c)
    case Uploaded(c) => CaptureOk(s, rid, request, c)
    case Restored(c, _) => CaptureOk(s, rid, request, c) && BytesStored(cfg, s, c)
    case Sealed(c, _) => CaptureOk(s, rid, request, c) && BytesStored(cfg, s, c)
    case Confirmed(c, at) =>
      && CaptureOk(s, rid, request, c) && BytesStored(cfg, s, c)
      && c.gen.manifestKey in s.store
      && s.store[c.gen.manifestKey] == Metadata(cfg, request.source, c, at)
  }

  predicate BytesStored(cfg: Config, s: State, c: Capture) {
    ObjectStored(cfg, s.store, c.gen.backupKey, |c.bytes|, cfg.digest(c.bytes))
  }

  predicate PhaseOk(cfg: Config, s: State, ph: Phase) {
    && (ph.Won? ==> ph.rid in s.db.requests && s.db.requests[ph.rid].attempts >= 1)
    && (ph.Held? ==>
          && ph.rid in s.db.requests && s.db.requests[ph.rid].source == ph.request.source
          && ph.request.attempts >= 1
          && WorkOk(cfg, s, ph.rid, ph.request, ph.work))
  }

  predicate RowsOk(db: Database) {
    forall id | id in db.requests :: RowOk(db.requests[id])
  }

  predicate GensOk(cfg: Config, s: State) {
    forall gid | gid in s.db.generations :: GenOk(cfg, s, s.db.generations[gid])
  }

  ghost predicate EvidenceOk(db: Database) {
    && (forall id | id in db.requests && db.requests[id].state.Verified? :: exists gid :: Evidences(db, id, gid))
    && (forall id, g, h | Evidences(db, id, g) && Evidences(db, id, h) :: g == h)
  }

  predicate PhasesOk(cfg: Config, s: State) {
    forall w | w in s.procs :: PhaseOk(cfg, s, s.procs[w].phase)
  }

  predicate SourcesOk(s: State) {
    forall key | key in s.current :: (key, s.current[key]) in s.versions
  }

  ghost predicate Inv(cfg: Config, s: State) {
    RowsOk(s.db) && GensOk(cfg, s) && EvidenceOk(s.db) && PhasesOk(cfg, s) && SourcesOk(s)
  }

  // ----- what no event undoes -----

  /** The facts of the tables that every later state keeps. */
  ghost predicate DbExtends(d: Database, e: Database) {
    && (forall id | id in d.requests ::
          && id in e.requests
          && d.requests[id].source == e.requests[id].source
          && d.requests[id].attempts <= e.requests[id].attempts
          && (d.requests[id].state.Verified? || Exhausted(d.requests[id]) ==> e.requests[id] == d.requests[id]))
    && (forall gid | gid in d.generations ::
          && gid in e.generations
          && SameCapture(d.generations[gid], e.generations[gid])
          && (d.generations[gid].verifiedAt.Some? ==> e.generations[gid] == d.generations[gid]))
  }

  /** Versions are remembered, and one that was current once never becomes current again. */
  ghost predicate SourceExtends(s: State, t: State) {
    && (forall v | v in s.versions :: v in t.versions && t.versions[v] == s.versions[v])
    && (forall key | key in t.current && (key, t.current[key]) in s.versions ::
          key in s.current && s.current[key] == t.current[key])
  }

  ghost predicate Extends(s: State, t: State) {
    && DbExtends(s.db, t.db)
    && SourceExtends(s, t)
    && (forall key | key in s.store :: key in t.store && t.store[key] == s.store[key])
    && s.issued <= t.issued
    && s.clock <= t.clock
  }

  predicate SameCapture(g: Generation, h: Generation) {
    g.requestId == h.requestId && g.captureId == h.captureId && g.backupBucket == h.backupBucket &&
    g.backupKey == h.backupKey && g.manifestKey == h.manifestKey && g.createdAt == h.createdAt
  }

  /** A request that is still COPYING has no verified generation. */
  lemma CopyingHasNoEvidence(cfg: Config, s: State, id: Id, g: Id)
    requires Inv(cfg, s) && id in s.db.requests && !s.db.requests[id].state.Verified?
    ensures !Evidences(s.db, id, g)
  {
    if g in s.db.generations {
      assert GenOk(cfg, s, s.db.generations[g]);
    }
  }

  lemma VerifyExtends(db: Database, id: Id, owner: Option<Uuid>, gid: Id, e: Evidence, now: int)
    requires VerifyVerdict(db, id, owner, gid, now).Committed? ==> !Evidences(db, id, gid)
    ensures DbExtends(db, Verify(db, id, owner, gid, e, now))
  {
  }

  lemma CommitExtends(cfg: Config, s: State, id: Id, owner: Option<Uuid>, gid: Id, e: Evidence, now: int)
    requires Inv(cfg, s)
    ensures DbExtends(s.db, Verify(s.db, id, owner, gid, e, now))
  {
    if VerifyVerdict(s.db, id, owner, gid, now).Committed? {
      CopyingHasNoEvidence(cfg, s, id, gid);
    }
    VerifyExtends(s.db, id, owner, gid, e, now);
  }

  lemma CasExtends(db: Database, bucket: string, id: Id, owner: Uuid, now: int)
    ensures DbExtends(db, ClaimCas(db, bucket, id, owner, now))
  {
  }

  lemma FailExtends(db: Database, id: Id, owner: Option<Uuid>, attempts: nat, code: Code, now: int)
    ensures DbExtends(db, Fail(db, id, owner, attempts, code, now))
  {
  }

  lemma CreateExtends(db: Database, gid: Id, g: Generation)
    requires gid !in db.generations
    ensures DbExtends(db, db.(generations := db.generations[gid := g]))
  {
  }

  lemma ActExtends(cfg: Config, s: State, p: Proc, a: Action)
    requires Inv(cfg, s) && ActionReady(cfg, s, p, a)
    ensures DbExtends(s.db, NextDb(cfg, s, p, a))
  {
    if a.Commit? {
      var ph := p.phase;
      CommitExtends(cfg, s, ph.rid, ph.request.leaseOwner, ph.work.c.gid,
                    EvidenceOf(cfg, ph.work.c, ph.work.at), a.now);
    } else {
      OtherActExtends(cfg, s, p, a);
    }
  }

  lemma OtherActExtends(cfg: Config, s: State, p: Proc, a: Action)
    requires ActionReady(cfg, s, p, a) && !a.Commit?
    ensures DbExtends(s.db, NextDb(cfg, s, p, a))
  {
    var ph := p.phase;
    if a.Cas? {
      CasExtends(s.db, cfg.bucket, ph.rest[0], ph.owner, ph.now);
    } else if a.Create? {
      CreateExtends(s.db, a.gid, NewGeneration(ph.rid, a.capture, cfg.destination, a.at));
    } else if a.FailUpdate? {
      FailExtends(s.db, ph.rid, ph.request.leaseOwner, ph.request.attempts, ph.work.code, a.now);
    }
  }

  lemma PerformExtends(cfg: Config, s: State, w: ProcId, a: Action)
    requires Inv(cfg, s) && w in s.procs && ActionReady(cfg, s, s.procs[w], a)
    ensures Extends(s, Perform(cfg, s, w, a))
  {
    ActExtends(cfg, s, s.procs[w], a);
  }

  lemma EnvironmentExtends(cfg: Config, s: State, e: Event)
    requires Enabled(cfg, s, e) && !e.Act?
    ensures Extends(s, Apply(cfg, s, e))
  {
  }

  lemma StepExtends(cfg: Config, s: State, e: Event)
    requires Inv(cfg, s)
    ensures Extends(s, Step(cfg, s, e))
  {
    if Enabled(cfg, s, e) {
      if e.Act? { PerformExtends(cfg, s, e.w, e.a); } else { EnvironmentExtends(cfg, s, e); }
    }
  }

  lemma PhaseSurvives(cfg: Config, s: State, t: State, ph: Phase)
    requires Extends(s, t) && PhaseOk(cfg, s, ph)
    ensures PhaseOk(cfg, t, ph)
  {
  }

  lemma GenSurvives(cfg: Config, s: State, t: State, gid: Id)
    requires Extends(s, t) && gid in s.db.generations && GenOk(cfg, s, s.db.generations[gid])
    requires t.db.generations[gid] == s.db.generations[gid]
    ensures GenOk(cfg, t, t.db.generations[gid])
  {
    var g := s.db.generations[gid];
    if g.verifiedAt.Some? {
      assert t.db.requests[g.requestId] == s.db.requests[g.requestId];
    }
  }

  // ----- every event keeps the invariant -----

  /** The three steps on the source: what they check is what makes the bytes those of one version. */
  lemma SourceWorkOk(cfg: Config, s: State, t: State, rid: Id, request: Request, work: Work, a: Action)
    requires WorkReady(cfg, s, request, work, a) && (a.HeadBefore? || a.Get? || a.HeadAfter?)
    requires WorkOk(cfg, t, rid, request, work) && SourcesOk(s)
    requires t.current == s.current && t.versions == s.versions
    ensures WorkOk(cfg, t, rid, request, NextWork(cfg, s, request, work, a))
  {
  }

  /** The four steps on the destination, of which the read-backs decide what is known about the store. */
  lemma StoreWorkOk(cfg: Config, s: State, t: State, rid: Id, request: Request, work: Work, a: Action)
    requires WorkReady(cfg, s, request, work, a) && (a.Put? || a.ReadBack? || a.PutManifest? || a.ReadManifest?)
    requires WorkOk(cfg, t, rid, request, work)
    requires a.ReadBack? || a.ReadManifest? ==> t.store == s.store
    ensures WorkOk(cfg, t, rid, request, NextWork(cfg, s, request, work, a))
  {
  }

  /** The pipeline checks what the next stage relies on. */
  lemma NextWorkOk(cfg: Config, s: State, t: State, p: Proc, a: Action)
    requires ActionReady(cfg, s, p, a) && p.phase.Held?
    requires !a.Create? && !a.Commit? && !a.FailUpdate?
    requires PhaseOk(cfg, t, p.phase) && SourcesOk(s)
    requires t.store == NextStore(cfg, s, p, a) && t.current == s.current && t.versions == s.versions
    ensures WorkOk(cfg, t, p.phase.rid, p.phase.request, NextWork(cfg, s, p.phase.request, p.phase.work, a))
  {
    var ph := p.phase;
    if a.HeadBefore? || a.Get? || a.HeadAfter? {
      SourceWorkOk(cfg, s, t, ph.rid, ph.request, ph.work, a);
    } else if !a.Throw? {
      StoreWorkOk(cfg, s, t, ph.rid, ph.request, ph.work, a);
    }
  }

  lemma ClaimPhase(cfg: Config, s: State, w: ProcId, a: Action, t: State)
    requires Inv(cfg, s) && w in s.procs && ActionReady(cfg, s, s.procs[w], a) && !s.procs[w].phase.Held?
    requires t == Perform(cfg, s, w, a) && Extends(s, t)
    ensures PhaseOk(cfg, t, t.procs[w].phase)
  {
    var ph := s.procs[w].phase;
    assert PhaseOk(cfg, s, ph);
    if a.Reread? {
      assert t.db == s.db;
    } else {
      assert !t.procs[w].phase.Held?;
    }
  }

  lemma PipelinePhase(cfg: Config, s: State, t: State, p: Proc, a: Action)
    requires ActionReady(cfg, s, p, a) && p.phase.Held? && !a.Create? && !a.Commit? && !a.FailUpdate?
    requires PhaseOk(cfg, t, p.phase) && SourcesOk(s)
    requires t.store == NextStore(cfg, s, p, a) && t.current == s.current && t.versions == s.versions
    ensures PhaseOk(cfg, t, NextPhase(cfg, s, p, a))
  {
    NextWorkOk(cfg, s, t, p, a);
    assert NextPhase(cfg, s, p, a) ==
      p.phase.(work := NextWork(cfg, s, p.phase.request, p.phase.work, a));
  }

  lemma StatementPhase(cfg: Config, s: State, t: State, p: Proc, a: Action)
    requires ActionReady(cfg, s, p, a) && p.phase.Held? && (a.Create? || a.Commit? || a.FailUpdate?)
    requires PhaseOk(cfg, t, p.phase) && t.db == NextDb(cfg, s, p, a)
    ensures PhaseOk(cfg, t, NextPhase(cfg, s, p, a))
  {
  }

  /** The worker that acts is again in a justified phase. */
  lemma ActorPhase(cfg: Config, s: State, w: ProcId, a: Action, t: State)
    requires Inv(cfg, s) && w in s.procs && ActionReady(cfg, s, s.procs[w], a)
    requires t == Perform(cfg, s, w, a) && Extends(s, t)
    ensures PhaseOk(cfg, t, t.procs[w].phase)
  {
    var p := s.procs[w];
    if !p.phase.Held? {
      ClaimPhase(cfg, s, w, a, t);
    } else {
      PhaseSurvives(cfg, s, t, p.phase);
      if a.Create? || a.Commit? || a.FailUpdate? {
        StatementPhase(cfg, s, t, p, a);
      } else {
        PipelinePhase(cfg, s, t, p, a);
      }
    }
  }

  lemma RowsStep(cfg: Config, s: State, p: Proc, a: Action, id: Id)
    requires Inv(cfg, s) && ActionReady(cfg, s, p, a) && id in NextDb(cfg, s, p, a).requests
    ensures RowOk(NextDb(cfg, s, p, a).requests[id])
  {
    assert id in s.db.requests && RowOk(s.db.requests[id]);
  }

  /** The commit is the moment of proof: everything the worker checked is still in the store. */
  lemma CommitProtects(cfg: Config, s: State, w: ProcId, a: Action, t: State)
    requires w in s.procs && ActionReady(cfg, s, s.procs[w], a) && a.Commit? && t == Perform(cfg, s, w, a)
    requires PhaseOk(cfg, s, s.procs[w].phase) && GenOk(cfg, s, s.db.generations[s.procs[w].phase.work.c.gid])
    requires var ph := s.procs[w].phase;
             VerifyVerdict(s.db, ph.rid, ph.request.leaseOwner, ph.work.c.gid, a.now).Committed?
    ensures GenOk(cfg, t, t.db.generations[s.procs[w].phase.work.c.gid])
  {
  }

  /** Where a generation can come from. */
  lemma GenOrigin(cfg: Config, s: State, p: Proc, a: Action, gid: Id)
    requires ActionReady(cfg, s, p, a) && gid in NextDb(cfg, s, p, a).generations
    ensures
      || (gid in s.db.generations && NextDb(cfg, s, p, a).generations[gid] == s.db.generations[gid])
      || (a.Commit? && gid == p.phase.work.c.gid &&
          VerifyVerdict(s.db, p.phase.rid, p.phase.request.leaseOwner, gid, a.now).Committed?)
      || (a.Create? && gid == a.gid &&
          NextDb(cfg, s, p, a).generations[gid] == NewGeneration(p.phase.rid, a.capture, cfg.destination, a.at))
  {
  }

  lemma GensStep(cfg: Config, s: State, w: ProcId, a: Action, t: State, gid: Id)
    requires Inv(cfg, s) && w in s.procs && ActionReady(cfg, s, s.procs[w], a)
    requires t == Perform(cfg, s, w, a) && Extends(s, t) && gid in t.db.generations
    ensures GenOk(cfg, t, t.db.generations[gid])
  {
    GenOrigin(cfg, s, s.procs[w], a, gid);
    if gid in s.db.generations && t.db.generations[gid] == s.db.generations[gid] {
      GenSurvives(cfg, s, t, gid);
    } else if a.Commit? {
      assert PhaseOk(cfg, s, s.procs[w].phase) && GenOk(cfg, s, s.db.generations[gid]);
      CommitProtects(cfg, s, w, a, t);
    } else {
      assert PhaseOk(cfg, s, s.procs[w].phase);
    }
  }

  /** What an action other than a successful commit leaves alone. */
  lemma OnlyCommitVerifies(cfg: Config, s: State, p: Proc, a: Action, rid: Id, gid: Id)
    requires ActionReady(cfg, s, p, a)
    requires a.Commit? ==>
      !VerifyVerdict(s.db, p.phase.rid, p.phase.request.leaseOwner, p.phase.work.c.gid, a.now).Committed?
    ensures Evidences(NextDb(cfg, s, p, a), rid, gid) <==> Evidences(s.db, rid, gid)
    ensures rid in s.db.requests ==>
      (NextDb(cfg, s, p, a).requests[rid].state.Verified? <==> s.db.requests[rid].state.Verified?)
  {
  }

  /** A successful commit verifies the worker's own generation and nothing else. */
  lemma CommitVerifiesOne(cfg: Config, s: State, p: Proc, a: Action, rid: Id, gid: Id)
    requires ActionReady(cfg, s, p, a) && a.Commit? && !Evidences(s.db, p.phase.rid, gid)
    requires VerifyVerdict(s.db, p.phase.rid, p.phase.request.leaseOwner, p.phase.work.c.gid, a.now).Committed?
    ensures Evidences(NextDb(cfg, s, p, a), rid, gid) <==>
      (if rid == p.phase.rid then gid == p.phase.work.c.gid else Evidences(s.db, rid, gid))
    ensures rid in s.db.requests ==>
      (NextDb(cfg, s, p, a).requests[rid].state.Verified? <==>
        (rid == p.phase.rid || s.db.requests[rid].state.Verified?))
  {
  }

  lemma RowsStay(cfg: Config, s: State, p: Proc, a: Action)
    requires ActionReady(cfg, s, p, a)
    ensures NextDb(cfg, s, p, a).requests.Keys == s.db.requests.Keys
  {
  }

  lemma EvidenceStep(cfg: Config, s: State, p: Proc, a: Action)
    requires Inv(cfg, s) && EvidenceOk(s.db) && ActionReady(cfg, s, p, a)
    ensures EvidenceOk(NextDb(cfg, s, p, a))
  {
    var db := NextDb(cfg, s, p, a);
    var commits := a.Commit? &&
      VerifyVerdict(s.db, p.phase.rid, p.phase.request.leaseOwner, p.phase.work.c.gid, a.now).Committed?;
    forall id, gid
      ensures commits ==> (Evidences(db, id, gid) <==>
        (if id == p.phase.rid then gid == p.phase.work.c.gid else Evidences(s.db, id, gid)))
      ensures !commits ==> (Evidences(db, id, gid) <==> Evidences(s.db, id, gid))
      ensures id in s.db.requests ==> (db.requests[id].state.Verified? <==>
        (s.db.requests[id].state.Verified? || (commits && id == p.phase.rid)))
    {
      if commits {
        CopyingHasNoEvidence(cfg, s, p.phase.rid, gid);
        CommitVerifiesOne(cfg, s, p, a, id, gid);
      } else {
        OnlyCommitVerifies(cfg, s, p, a, id, gid);
      }
    }
    RowsStay(cfg, s, p, a);
    hide Inv, ActionReady, NextDb, VerifyVerdict;
    forall id | id in db.requests && db.requests[id].state.Verified?
      ensures exists gid :: Evidences(db, id, gid)
    {
      if commits && id == p.phase.rid {
        assert Evidences(db, id, p.phase.work.c.gid);
      } else {
        var gid :| Evidences(s.db, id, gid);
        assert Evidences(db, id, gid);
      }
    }
  }

  lemma RowsOkStep(cfg: Config, s: State, p: Proc, a: Action)
    requires Inv(cfg, s) && ActionReady(cfg, s, p, a)
    ensures RowsOk(NextDb(cfg, s, p, a))
  {
    forall id | id in NextDb(cfg, s, p, a).requests ensures RowOk(NextDb(cfg, s, p, a).requests[id]) {
      RowsStep(cfg, s, p, a, id);
    }
  }

  lemma GensOkStep(cfg: Config, s: State, w: ProcId, a: Action, t: State)
    requires Inv(cfg, s) && w in s.procs && ActionReady(cfg, s, s.procs[w], a)
    requires t == Perform(cfg, s, w, a) && Extends(s, t)
    ensures GensOk(cfg, t)
  {
    forall gid | gid in t.db.generations ensures GenOk(cfg, t, t.db.generations[gid]) {
      GensStep(cfg, s, w, a, t, gid);
    }
  }

  lemma PhasesOkStep(cfg: Config, s: State, w: ProcId, t: State)
    requires Inv(cfg, s) && Extends(s, t)
    requires t.procs.Keys <= s.procs.Keys + {w}
    requires forall v | v in t.procs && v != w :: t.procs[v].phase == s.procs[v].phase
    requires w in t.procs ==> PhaseOk(cfg, t, t.procs[w].phase)
    ensures PhasesOk(cfg, t)
  {
    forall v | v in t.procs ensures PhaseOk(cfg, t, t.procs[v].phase) {
      if v != w { PhaseSurvives(cfg, s, t, s.procs[v].phase); }
    }
  }

  lemma ActKeepsInv(cfg: Config, s: State, w: ProcId, a: Action)
    requires Inv(cfg, s) && w in s.procs && ActionReady(cfg, s, s.procs[w], a)
    ensures Inv(cfg, Perform(cfg, s, w, a))
  {
    hide ActionReady, NextDb, NextStore, NextLate, NextPhase, NextIssued, RowsOk, GensOk, EvidenceOk, PhasesOk, Extends;
    var t := Perform(cfg, s, w, a);
    PerformExtends(cfg, s, w, a);
    RowsOkStep(cfg, s, s.procs[w], a);
    GensOkStep(cfg, s, w, a, t);
    EvidenceStep(cfg, s, s.procs[w], a);
    ActorPhase(cfg, s, w, a, t);
    PhasesOkStep(cfg, s, w, t);
  }

  lemma SourcesStay(cfg: Config, s: State, e: Event)
    requires SourcesOk(s) && Enabled(cfg, s, e) && !e.Act?
    ensures SourcesOk(Apply(cfg, s, e))
  {
  }

  /** Events of the environment: no generation changes, and at most one new PENDING row appears. */
  lemma EnvironmentKeepsInv(cfg: Config, s: State, e: Event)
    requires Inv(cfg, s) && Enabled(cfg, s, e) && !e.Act?
    ensures Inv(cfg, Apply(cfg, s, e))
  {
    var t := Apply(cfg, s, e);
    EnvironmentExtends(cfg, s, e);
    EnvironmentEffect(cfg, s, e);
    SourcesStay(cfg, s, e);
    hide Enabled, Apply, Extends, GenOk, PhaseOk;
    forall gid | gid in t.db.generations ensures GenOk(cfg, t, t.db.generations[gid]) {
      GenSurvives(cfg, s, t, gid);
    }
    SameEvidence(s, t, e);
    forall w | w in t.procs ensures PhaseOk(cfg, t, t.procs[w].phase) {
      if w in s.procs { PhaseSurvives(cfg, s, t, s.procs[w].phase); } else { IdleIsOk(cfg, t, t.procs[w].phase); }
    }
  }

  lemma IdleIsOk(cfg: Config, s: State, ph: Phase)
    requires ph.Idle?
    ensures PhaseOk(cfg, s, ph)
  {
  }

  lemma SameEvidence(s: State, t: State, e: Event)
    requires EvidenceOk(s.db) && t.db.generations == s.db.generations
    requires if e.Enqueue? then
               e.id !in s.db.requests && t.db.requests == s.db.requests[e.id := NewRequest(e.source, e.now)]
             else t.db.requests == s.db.requests
    ensures EvidenceOk(t.db)
  {
    forall id, g ensures Evidences(t.db, id, g) <==> Evidences(s.db, id, g) {}
    forall id | id in t.db.requests && t.db.requests[id].state.Verified?
      ensures exists gid :: Evidences(t.db, id, gid)
    {
      var gid :| Evidences(s.db, id, gid);
      assert Evidences(t.db, id, gid);
    }
  }

  lemma StepKeepsInv(cfg: Config, s: State, e: Event)
    requires Inv(cfg, s)
    ensures Inv(cfg, Step(cfg, s, e))
  {
    hide Inv, ActionReady, Perform;
    if Enabled(cfg, s, e) {
      if e.Act? { ActKeepsInv(cfg, s, e.w, e.a); } else { EnvironmentKeepsInv(cfg, s, e); }
    }
  }

  lemma {:induction false} RunKeepsInv(cfg: Config, s: State, run: seq<Event>)
    requires Inv(cfg, s)
    ensures Inv(cfg, After(cfg, s, run))
  {
    if run != [] {
      RunKeepsInv(cfg, s, run[..|run| - 1]);
      StepKeepsInv(cfg, After(cfg, s, run[..|run| - 1]), run[|run| - 1]);
    }
  }

  lemma ReachableInv(cfg: Config, s: State)
    requires Reachable(cfg, s)
    ensures Inv(cfg, s)
  {
    var run :| s == After(cfg, INIT, run);
    RunKeepsInv(cfg, INIT, run);
  }

  lemma {:induction false} RunExtends(cfg: Config, s: State, run: seq<Event>)
    requires Inv(cfg, s)
    ensures Extends(s, After(cfg, s, run))
  {
    if run != [] {
      var m := After(cfg, s, run[..|run| - 1]);
      RunExtends(cfg, s, run[..|run| - 1]);
      RunKeepsInv(cfg, s, run[..|run| - 1]);
      StepExtends(cfg, m, run[|run| - 1]);
      DbExtendsTransitive(s.db, m.db, After(cfg, s, run).db);
    }
  }

  lemma DbExtendsTransitive(a: Database, b: Database, c: Database)
    requires DbExtends(a, b) && DbExtends(b, c)
    ensures DbExtends(a, c)
  {
  }

  // ----- the safety theorem -----

  /**
   * Whatever the processes did, crashed or paused over, a VERIFIED request has exactly one verified
   * generation.  Its ETag, Last-Modified and size name a version that the source key held, with the recorded
   * digest and of the expected size, when one was given; the store holds under its key an object of that
   * size and digest, and under its manifest key the manifest of that very evidence.
   */
  lemma VerifiedIsProtected(cfg: Config, s: State, id: Id) returns (gid: Id)
    requires Reachable(cfg, s) && id in s.db.requests && s.db.requests[id].state.Verified?
    ensures Evidences(s.db, id, gid)
    ensures forall other | Evidences(s.db, id, other) :: other == gid
    ensures Protected(cfg, s, s.db.generations[gid])
  {
    ReachableInv(cfg, s);
    gid :| Evidences(s.db, id, gid);
    assert GenOk(cfg, s, s.db.generations[gid]);
  }

  /** And what is stored under the manifest key says of the generation what is true of it, field by field. */
  lemma ManifestIsTrue(cfg: Config, s: State, gid: Id)
    requires Reachable(cfg, s) && gid in s.db.generations && s.db.generations[gid].verifiedAt.Some?
    ensures ManifestStored(cfg, s, s.db.generations[gid])
  {
    ReachableInv(cfg, s);
    var g := s.db.generations[gid];
    assert GenOk(cfg, s, g);
    var m := ManifestOf(cfg, s.db.requests[g.requestId].source, g, g.observedSize.value, g.sourceETag.value,
                        g.sourceLastModified.value, g.sha256.value, g.verifiedAt.value);
    assert Describes(cfg, m, s.db.requests[g.requestId].source, g);
  }

  /** And conversely no generation is verified unless its request is. */
  lemma EvidenceMeansVerified(cfg: Config, s: State, id: Id, gid: Id)
    requires Reachable(cfg, s) && Evidences(s.db, id, gid)
    ensures id in s.db.requests && s.db.requests[id].state.Verified?
  {
    ReachableInv(cfg, s);
    assert GenOk(cfg, s, s.db.generations[gid]);
  }

  /** Verified for ever: no later event touches the row, the generation or either stored object. */
  lemma ProtectionPersists(cfg: Config, s: State, run: seq<Event>, id: Id, gid: Id)
    requires Reachable(cfg, s) && Evidences(s.db, id, gid)
    ensures var t := After(cfg, s, run); var g := s.db.generations[gid];
      && id in s.db.requests && id in t.db.requests && t.db.requests[id] == s.db.requests[id]
      && gid in t.db.generations && t.db.generations[gid] == g
      && (forall other | Evidences(t.db, id, other) :: other == gid)
      && g.backupKey in s.store && g.backupKey in t.store && t.store[g.backupKey] == s.store[g.backupKey]
      && g.manifestKey in s.store && g.manifestKey in t.store && t.store[g.manifestKey] == s.store[g.manifestKey]
  {
    EvidenceMeansVerified(cfg, s, id, gid);
    ReachableInv(cfg, s);
    RunExtends(cfg, s, run);
    RunKeepsInv(cfg, s, run);
    var t := After(cfg, s, run);
    var g := s.db.generations[gid];
    assert GenOk(cfg, s, g);
    assert Evidences(t.db, id, gid);
  }

  /** A request whose ordinary retries are used up rests for ever, untouched. */
  lemma {:induction false} ExhaustedPersists(cfg: Config, s: State, run: seq<Event>, id: Id)
    requires Reachable(cfg, s) && id in s.db.requests && Exhausted(s.db.requests[id])
    ensures var t := After(cfg, s, run); id in t.db.requests && t.db.requests[id] == s.db.requests[id]
  {
    ReachableInv(cfg, s);
    RunExtends(cfg, s, run);
  }
}
