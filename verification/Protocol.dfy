/**
 * The backup protocol as a state machine.  Any number of processes run `operate` against the same
 * tables, the same source bucket and the same destination store; each `await` of the source is a point
 * at which any other process may act, so each database statement, each storage call and each clock
 * reading is one event.  Source objects may be overwritten or deleted at any moment, and what a PUT
 * leaves in the destination need not be what was sent.
 */
module Protocol {
  import opened Wrappers
  import opened Tables
  import opened Execution

  type ProcId = nat

  /** What HEAD tells about a source object. */
  datatype Identity = Identity(etag: string, lastModified: string, size: int)

  /** The JSON object of src/backup/backup.manifest.ts, before it is printed. */
  datatype Manifest = Manifest(
    manifestVersion: nat,
    environment: string,
    sourceBucket: string, sourceKey: string, size: int, etag: string, lastModified: string,
    referenceType: string, referenceId: string,
    sha256: string,
    destinationBucket: string, destinationKey: Key,
    captureId: Uuid, backupTimestamp: int, verificationTimestamp: int)

  /**
   * The parameters of a deployment.  `digest` (SHA-256) and `encode` (the JSON printing of a manifest)
   * are left uninterpreted.  When `timed`, a clock read at instant t shows a value in
   * [t - early, t + late] and the forced-exit timers fire on time; otherwise nothing at all is
   * assumed about clocks, timers or pauses.
   */
  datatype Config = Config(
    bucket: string,
    destination: string,
    environment: string,
    digest: Bytes -> string,
    encode: Manifest -> Bytes,
    timed: bool,
    early: nat,
    late: nat)

  predicate Reading(cfg: Config, instant: int, c: int) {
    cfg.timed ==> instant - cfg.early <= c <= instant + cfg.late
  }

  /** What `runOne` knows once the generation exists: the HEAD, the bytes, and the created row. */
  datatype Capture = Capture(before: Identity, bytes: Bytes, gid: Id, gen: Generation)

  /** How far `runOne` has come with a claimed request. */
  datatype Work =
    | Fresh                                     // about to HEAD the source
    | Headed(before: Identity)                  // about to GET
    | Fetched(before: Identity, bytes: Bytes)   // about to HEAD again
    | Captured(before: Identity, bytes: Bytes)  // about to create the generation
    | Generated(c: Capture)                     // about to PUT the object
    | Uploaded(c: Capture)                      // about to read it back
    | Restored(c: Capture, at: int)             // read-back matched; about to PUT the manifest
    | Sealed(c: Capture, at: int)               // about to read the manifest back
    | Confirmed(c: Capture, at: int)            // manifest matched; about to commit
    | Failing(code: Code)                       // an exception is on its way to `fail`

  /**
   * `request` is the row as the worker re-read it.  `token` and `now` are history: the owner it wrote
   * and the instant it captured when it claimed.  No step reads them.
   */
  datatype Phase =
    | Idle
    | Listing(now: int)
    | Trying(now: int, rest: seq<Id>)
    | Issued(now: int, rest: seq<Id>, owner: Uuid)
    | Won(rid: Id, token: Uuid, now: int)
    | Held(rid: Id, token: Uuid, now: int, request: Request, work: Work)

  datatype Proc = Proc(control: Control, phase: Phase)

  /**
   * `current` names the version each source key holds, and `versions` has the bytes of every version it
   * ever held.  `late` holds PUTs whose caller gave up while they were still in flight.
   */
  datatype State = State(
    db: Database,
    current: map<string, Identity>,
    versions: map<(string, Identity), Bytes>,
    store: map<Key, Bytes>,
    late: set<(Key, Bytes)>,
    procs: map<ProcId, Proc>,
    issued: set<Uuid>,
    clock: int)

  const INIT := State(Database(map[], map[]), map[], map[], map[], {}, map[], {}, 0)

  datatype Action =
    | Begin(c: int, now: int)
    | List(cands: seq<Id>)
    | Issue(c: int, owner: Uuid)
    | GiveUp(c: int)
    | Cas
    | Reread
    | HeadBefore
    | Get
    | HeadAfter
    | Create(gid: Id, capture: Uuid, at: int)
    | Put(acknowledged: bool, landed: Bytes)
    | ReadBack(at: int)
    | PutManifest(acknowledged: bool, landed: Bytes)
    | ReadManifest
    | Commit(now: int, acknowledged: bool)
    | Throw(code: Code)
    | FailUpdate(now: int)

  datatype Event =
    | Enqueue(id: Id, source: Source, now: int)
    | Tick(instant: int)
    | Land(key: Key, bytes: Bytes)
    | Overwrite(sourceKey: string, identity: Identity, content: Bytes)
    | Delete(sourceKey: string)
    | Spawn(w: ProcId, reading: int)
    | Crash(w: ProcId)
    | Signal(w: ProcId)
    | Act(w: ProcId, a: Action)

  /** `headSource` answers nothing else (module Storage). */
  predicate ValidIdentity(i: Identity) {
    i.etag != "" && i.lastModified != "" && i.size >= 0
  }

  /** The codes a storage call or a database error can raise by itself. */
  predicate Ambient(code: Code) {
    !code.SizeMismatch? && !code.ChecksumMismatch? && !code.ManifestMismatch? &&
    !code.LeaseLost? && !code.GenerationMismatch? && !code.GenerationExists?
  }

  function ManifestOf(cfg: Config, source: Source, g: Generation, size: int, etag: string,
                      lastModified: string, sha256: string, at: int): Manifest
  {
    Manifest(1, cfg.environment, source.sourceBucket, source.sourceKey, size, etag, lastModified,
             source.referenceType, source.referenceId, sha256, g.backupBucket, g.backupKey,
             g.captureId, g.createdAt, at)
  }

  /** `metadata` in `runOne`: the manifest it prints for a capture. */
  function Metadata(cfg: Config, source: Source, c: Capture, at: int): Bytes {
    cfg.encode(ManifestOf(cfg, source, c.gen, c.before.size, c.before.etag, c.before.lastModified,
                          cfg.digest(c.bytes), at))
  }

  function EvidenceOf(cfg: Config, c: Capture, at: int): Evidence {
    Evidence(c.before.etag, c.before.lastModified, |c.bytes|, cfg.digest(c.bytes), at)
  }

  predicate SameContent(cfg: Config, restored: Bytes, bytes: Bytes) {
    |restored| == |bytes| && cfg.digest(restored) == cfg.digest(bytes)
  }

  // ----- what the stores answer -----

  /** HEAD tells the current version of a source key. */
  function HeadAnswer(s: State, key: string): Result<Identity, Code> {
    if key !in s.current then Err(NoSource)
    else if !ValidIdentity(s.current[key]) then Err(InvalidIdentity)
    else Ok(s.current[key])
  }

  /** GET with `If-Match` answers the current bytes, if the current version still has that ETag. */
  function GetAnswer(s: State, key: string, etag: string): Result<Bytes, Code> {
    if key !in s.current || (key, s.current[key]) !in s.versions then Err(NoSource)
    else if s.current[key].etag != etag then Err(SourceChanged)
    else Ok(s.versions[(key, s.current[key])])
  }

  /** GET of a destination object returns what is stored. */
  function BackupAnswer(s: State, key: Key): Result<Bytes, Code> {
    if key in s.store then Ok(s.store[key]) else Err(NoBackup)
  }

  // ----- what `runOne` makes of the answers -----

  function AfterFirstHead(request: Request, identity: Identity): Work {
    if request.source.expectedSize.Some? && request.source.expectedSize.value != identity.size
    then Failing(SizeMismatch) else Headed(identity)
  }

  function AfterSecondHead(before: Identity, bytes: Bytes, after: Identity): Work {
    if before.etag != after.etag || before.lastModified != after.lastModified || before.size != after.size ||
       |bytes| != before.size
    then Failing(SourceChanged) else Captured(before, bytes)
  }

  function AfterReadBack(cfg: Config, c: Capture, restored: Bytes, at: int): Work {
    if SameContent(cfg, restored, c.bytes) then Restored(c, at) else Failing(ChecksumMismatch)
  }

  function AfterManifest(cfg: Config, source: Source, c: Capture, at: int, restored: Bytes): Work {
    if restored == Metadata(cfg, source, c, at) then Confirmed(c, at) else Failing(ManifestMismatch)
  }

  // ----- guards -----

  predicate WorkReady(cfg: Config, s: State, request: Request, work: Work, a: Action) {
    match a
    case HeadBefore => work.Fresh?
    case Get => work.Headed?
    case HeadAfter => work.Fetched?
    case Create(gid, capture, at) =>
      work.Captured? && gid !in s.db.generations && capture !in s.issued && Reading(cfg, s.clock, at)
    case Put(_, _) => work.Generated?
    case ReadBack(at) => work.Uploaded? && Reading(cfg, s.clock, at)
    case PutManifest(_, _) => work.Restored?
    case ReadManifest => work.Sealed?
    case Commit(now, _) => work.Confirmed? && Reading(cfg, s.clock, now)
    case Throw(code) => !work.Failing? && Ambient(code)
    case FailUpdate(now) => work.Failing? && Reading(cfg, s.clock, now)
    case _ => false
  }

  predicate ActionReady(cfg: Config, s: State, p: Proc, a: Action) {
    match a
    case Begin(c, now) =>
      p.phase.Idle? && Reading(cfg, s.clock, c) && CanClaim(p.control, c) && Reading(cfg, s.clock, now)
    case List(cands) => p.phase.Listing? && CandidateList(s.db, cfg.bucket, p.phase.now, cands)
    case Issue(c, owner) =>
      p.phase.Trying? && p.phase.rest != [] && Reading(cfg, s.clock, c) && CanClaim(p.control, c) &&
      owner !in s.issued
    case GiveUp(c) =>
      p.phase.Trying? && (p.phase.rest == [] || (Reading(cfg, s.clock, c) && !CanClaim(p.control, c)))
    case Cas => p.phase.Issued? && p.phase.rest != []
    case Reread => p.phase.Won? && p.phase.rid in s.db.requests
    case _ => p.phase.Held? && WorkReady(cfg, s, p.phase.request, p.phase.work, a)
  }

  predicate Enabled(cfg: Config, s: State, e: Event) {
    match e
    case Enqueue(id, source, now) =>
      && id !in s.db.requests
      && (forall other | other in s.db.requests :: !SameReference(s.db.requests[other].source, source))
      && Reading(cfg, s.clock, now)
      && (cfg.timed ==> source.finalizedAt <= s.clock)
    case Tick(instant) =>
      s.clock <= instant && (cfg.timed ==> forall w | w in s.procs :: instant <= ExitAt(s.procs[w].control))
    case Land(key, bytes) => (key, bytes) in s.late
    case Overwrite(key, identity, _) => (key, identity) !in s.versions
    case Delete(key) => true
    case Spawn(w, reading) => w !in s.procs && Reading(cfg, s.clock, reading)
    case Crash(w) => w in s.procs
    case Signal(w) => w in s.procs
    case Act(w, a) => w in s.procs && ActionReady(cfg, s, s.procs[w], a)
  }

  // ----- effects -----

  /** What a step of the copy pipeline does to the worker's own progress. */
  function NextWork(cfg: Config, s: State, request: Request, work: Work, a: Action): Work
    requires WorkReady(cfg, s, request, work, a)
  {
    match a
    case HeadBefore =>
      (match HeadAnswer(s, request.source.sourceKey)
       case Err(code) => Failing(code)
       case Ok(identity) => AfterFirstHead(request, identity))
    case Get =>
      (match GetAnswer(s, request.source.sourceKey, work.before.etag)
       case Err(code) => Failing(code)
       case Ok(bytes) => Fetched(work.before, bytes))
    case HeadAfter =>
      (match HeadAnswer(s, request.source.sourceKey)
       case Err(code) => Failing(code)
       case Ok(identity) => AfterSecondHead(work.before, work.bytes, identity))
    case Put(acknowledged, _) =>
      if work.c.gen.backupKey in s.store then Failing(GenerationExists)
      else if acknowledged then Uploaded(work.c) else Failing(Unavailable)
    case ReadBack(at) =>
      (match BackupAnswer(s, work.c.gen.backupKey)
       case Err(code) => Failing(code)
       case Ok(restored) => AfterReadBack(cfg, work.c, restored, at))
    case PutManifest(acknowledged, _) =>
      if work.c.gen.manifestKey in s.store then Failing(GenerationExists)
      else if acknowledged then Sealed(work.c, work.at) else Failing(Unavailable)
    case ReadManifest =>
      (match BackupAnswer(s, work.c.gen.manifestKey)
       case Err(code) => Failing(code)
       case Ok(restored) => AfterManifest(cfg, request.source, work.c, work.at, restored))
    case Throw(code) => Failing(code)
    case _ => work
  }

  /** The tables after an action: four actions are statements, the others leave the tables alone. */
  function NextDb(cfg: Config, s: State, p: Proc, a: Action): Database
    requires ActionReady(cfg, s, p, a)
  {
    var ph := p.phase;
    match a
    case Cas => ClaimCas(s.db, cfg.bucket, ph.rest[0], ph.owner, ph.now)
    case Create(gid, capture, at) =>
      s.db.(generations := s.db.generations[gid := NewGeneration(ph.rid, capture, cfg.destination, at)])
    case Commit(now, _) =>
      Verify(s.db, ph.rid, ph.request.leaseOwner, ph.work.c.gid, EvidenceOf(cfg, ph.work.c, ph.work.at), now)
    case FailUpdate(now) =>
      Fail(s.db, ph.rid, ph.request.leaseOwner, ph.request.attempts, ph.work.code, now)
    case _ => s.db
  }

  /** The key and the bytes a PUT action sends. */
  function Payload(cfg: Config, ph: Phase, a: Action): (Key, Bytes)
    requires ph.Held? && ((a.Put? && ph.work.Generated?) || (a.PutManifest? && ph.work.Restored?))
  {
    if a.Put? then (ph.work.c.gen.backupKey, ph.work.c.bytes)
    else (ph.work.c.gen.manifestKey, Metadata(cfg, ph.request.source, ph.work.c, ph.work.at))
  }

  /**
   * PUT with `If-None-Match: *` writes an absent key and never overwrites.  Which bytes land is not
   * the sender's choice: that is what the read-back is for.
   */
  function PutNew(store: map<Key, Bytes>, key: Key, bytes: Bytes): map<Key, Bytes> {
    if key in store then store else store[key := bytes]
  }

  function NextStore(cfg: Config, s: State, p: Proc, a: Action): map<Key, Bytes>
    requires ActionReady(cfg, s, p, a)
  {
    if (a.Put? || a.PutManifest?) && a.acknowledged then PutNew(s.store, Payload(cfg, p.phase, a).0, a.landed)
    else s.store
  }

  /** An unacknowledged PUT may still be in flight. */
  function NextLate(cfg: Config, s: State, p: Proc, a: Action): set<(Key, Bytes)>
    requires ActionReady(cfg, s, p, a)
  {
    if (a.Put? || a.PutManifest?) && !a.acknowledged then s.late + {(Payload(cfg, p.phase, a).0, a.landed)}
    else s.late
  }

  function NextIssued(s: State, a: Action): set<Uuid> {
    match a
    case Issue(_, owner) => s.issued + {owner}
    case Create(_, capture, _) => s.issued + {capture}
    case _ => s.issued
  }

  /** A commit whose answer is lost has happened all the same; the worker then takes the failure path. */
  function NextPhase(cfg: Config, s: State, p: Proc, a: Action): Phase
    requires ActionReady(cfg, s, p, a)
  {
    var ph := p.phase;
    match a
    case Begin(_, now) => Listing(now)
    case List(cands) => Trying(ph.now, cands)
    case Issue(_, owner) => Issued(ph.now, ph.rest, owner)
    case GiveUp(_) => Idle
    case Cas =>
      if Wins(s.db, cfg.bucket, ph.rest[0], ph.now) then Won(ph.rest[0], ph.owner, ph.now)
      else Trying(ph.now, ph.rest[1..])
    case Reread => Held(ph.rid, ph.token, ph.now, s.db.requests[ph.rid], Fresh)
    case Create(gid, capture, at) =>
      ph.(work := Generated(Capture(ph.work.before, ph.work.bytes, gid,
                                    NewGeneration(ph.rid, capture, cfg.destination, at))))
    case Commit(now, acknowledged) =>
      (match VerifyVerdict(s.db, ph.rid, ph.request.leaseOwner, ph.work.c.gid, now)
       case Lost => ph.(work := Failing(LeaseLost))
       case Mismatch => ph.(work := Failing(GenerationMismatch))
       case Committed => if acknowledged then Idle else ph.(work := Failing(Unknown)))
    case FailUpdate(_) => Idle
    case _ => ph.(work := NextWork(cfg, s, ph.request, ph.work, a))
  }

  function Perform(cfg: Config, s: State, w: ProcId, a: Action): State
    requires w in s.procs && ActionReady(cfg, s, s.procs[w], a)
  {
    var p := s.procs[w];
    State(NextDb(cfg, s, p, a), s.current, s.versions, NextStore(cfg, s, p, a), NextLate(cfg, s, p, a),
          s.procs[w := p.(phase := NextPhase(cfg, s, p, a))], NextIssued(s, a), s.clock)
  }

  function Apply(cfg: Config, s: State, e: Event): State
    requires Enabled(cfg, s, e)
  {
    match e
    case Enqueue(id, source, now) =>
      s.(db := s.db.(requests := s.db.requests[id := NewRequest(source, now)]))
    case Tick(instant) => s.(clock := instant)
    case Land(key, bytes) =>
      s.(store := PutNew(s.store, key, bytes), late := s.late - {(key, bytes)})
    case Overwrite(key, identity, content) =>
      s.(current := s.current[key := identity], versions := s.versions[(key, identity) := content])
    case Delete(key) => s.(current := s.current - {key})
    case Spawn(w, reading) => s.(procs := s.procs[w := Proc(Installed(reading, s.clock), Idle)])
    case Crash(w) => s.(procs := s.procs - {w})
    case Signal(w) =>
      s.(procs := s.procs[w := s.procs[w].(control := OnSignal(s.procs[w].control, s.clock))])
    case Act(w, a) => Perform(cfg, s, w, a)
  }

  /** What an event that is no action of a process does to the tables and to the processes. */
  lemma EnvironmentEffect(cfg: Config, s: State, e: Event)
    requires Enabled(cfg, s, e) && !e.Act?
    ensures var t := Apply(cfg, s, e);
      && t.issued == s.issued && s.clock <= t.clock && t.db.generations == s.db.generations
      && (if e.Enqueue? then
            e.id !in s.db.requests && t.db.requests == s.db.requests[e.id := NewRequest(e.source, e.now)]
          else t.db.requests == s.db.requests)
      && (forall w | w in t.procs ::
            if w in s.procs then t.procs[w].phase == s.procs[w].phase else t.procs[w].phase.Idle?)
  {
  }

  // ----- runs -----

  /** An event that is not enabled changes nothing, so every sequence of events is a run. */
  function Step(cfg: Config, s: State, e: Event): State {
    if Enabled(cfg, s, e) then Apply(cfg, s, e) else s
  }

  function After(cfg: Config, s: State, run: seq<Event>): State {
    if run == [] then s
    else Step(cfg, After(cfg, s, run[..|run| - 1]), run[|run| - 1])
  }

  /** Some run leads from the one state to the other. */
  ghost predicate Leads(cfg: Config, s: State, t: State) {
    exists run :: t == After(cfg, s, run)
  }

  ghost predicate Reachable(cfg: Config, s: State) {
    Leads(cfg, INIT, s)
  }

  lemma {:induction false} AfterConcat(cfg: Config, s: State, a: seq<Event>, b: seq<Event>)
    ensures After(cfg, s, a + b) == After(cfg, After(cfg, s, a), b)
  {
    if b == [] {
      assert a + b == a;
    } else {
      var n := |b| - 1;
      assert (a + b)[..|a + b| - 1] == a + b[..n];
      AfterConcat(cfg, s, a, b[..n]);
    }
  }

  lemma ReachableAfter(cfg: Config, s: State, run: seq<Event>)
    requires Reachable(cfg, s)
    ensures Reachable(cfg, After(cfg, s, run))
  {
    LeadsTransitive(cfg, INIT, s, After(cfg, s, run));
  }

  lemma ReachableStep(cfg: Config, s: State, e: Event)
    requires Reachable(cfg, s)
    ensures Reachable(cfg, Step(cfg, s, e))
  {
    LeadsStep(cfg, INIT, s, e);
  }

  lemma LeadsStep(cfg: Config, o: State, s: State, e: Event)
    requires Leads(cfg, o, s)
    ensures Leads(cfg, o, Step(cfg, s, e))
  {
    var run :| s == After(cfg, o, run);
    assert (run + [e])[..|run + [e]| - 1] == run;
    assert Step(cfg, s, e) == After(cfg, o, run + [e]);
  }

  lemma LeadsTransitive(cfg: Config, a: State, b: State, c: State)
    requires Leads(cfg, a, b) && Leads(cfg, b, c)
    ensures Leads(cfg, a, c)
  {
    var first :| b == After(cfg, a, first);
    var second :| c == After(cfg, b, second);
    AfterConcat(cfg, a, first, second);
    assert c == After(cfg, a, first + second);
  }

  lemma ReachableLeads(cfg: Config, s: State, t: State)
    requires Reachable(cfg, s) && Leads(cfg, s, t)
    ensures Reachable(cfg, t)
  {
    LeadsTransitive(cfg, INIT, s, t);
  }
}
