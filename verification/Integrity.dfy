/**
 * What the checks of `runOne` decide.  A PUT may leave anything behind and the source may be overwritten
 * at any moment, so neither the capture nor the upload can be taken for granted: here is exactly when
 * each check passes, and runs in which each one fails.
 */
module Integrity {
  import opened Tables
  import opened Protocol
  import opened Safety
  import opened Witness

  /** The first HEAD is accepted exactly when the source holds a usable version, of the expected size if any. */
  lemma FirstHeadDecides(cfg: Config, s: State, w: ProcId)
    requires w in s.procs && ActionReady(cfg, s, s.procs[w], HeadBefore)
    ensures
      var source, work := s.procs[w].phase.request.source, Perform(cfg, s, w, HeadBefore).procs[w].phase.work;
      var key := source.sourceKey;
      && (work == Failing(NoSource) <==> key !in s.current)
      && (work == Failing(InvalidIdentity) <==> key in s.current && !ValidIdentity(s.current[key]))
      && (work == Failing(SizeMismatch) <==>
            && key in s.current && ValidIdentity(s.current[key])
            && source.expectedSize.Some? && source.expectedSize.value != s.current[key].size)
      && (key in s.current && work == Headed(s.current[key]) <==>
            && key in s.current && ValidIdentity(s.current[key])
            && (source.expectedSize.Some? ==> source.expectedSize.value == s.current[key].size))
  {
  }

  /** The GET succeeds exactly when the current version still has the ETag of the first HEAD. */
  lemma GetDecides(cfg: Config, s: State, w: ProcId)
    requires Reachable(cfg, s) && w in s.procs && ActionReady(cfg, s, s.procs[w], Get)
    ensures
      var ph, work := s.procs[w].phase, Perform(cfg, s, w, Get).procs[w].phase.work;
      var key, before := ph.request.source.sourceKey, ph.work.before;
      && (work == Failing(NoSource) <==> key !in s.current)
      && (work == Failing(SourceChanged) <==> key in s.current && s.current[key].etag != before.etag)
      && (work.Fetched? <==> key in s.current && s.current[key].etag == before.etag)
      && (work.Fetched? ==> (key, s.current[key]) in s.versions
                            && work == Fetched(before, s.versions[(key, s.current[key])]))
  {
    ReachableInv(cfg, s);
  }

  /**
   * The capture is accepted if and only if the version the first HEAD named is still current and has the
   * size it announced; the bytes are then that version's.
   */
  lemma CaptureDecides(cfg: Config, s: State, w: ProcId)
    requires Reachable(cfg, s) && w in s.procs && ActionReady(cfg, s, s.procs[w], HeadAfter)
    ensures
      var ph, work := s.procs[w].phase, Perform(cfg, s, w, HeadAfter).procs[w].phase.work;
      var key, before := ph.request.source.sourceKey, ph.work.before;
      && (key, before) in s.versions
      && (work.Captured? <==>
            key in s.current && s.current[key] == before && |s.versions[(key, before)]| == before.size)
      && (work.Captured? ==> work == Captured(before, s.versions[(key, before)]))
      && (work == Failing(NoSource) <==> key !in s.current)
      && (work == Failing(InvalidIdentity) <==> key in s.current && !ValidIdentity(s.current[key]))
      && (work.Captured? || work == Failing(NoSource) || work == Failing(InvalidIdentity)
          || work == Failing(SourceChanged))
  {
    ReachableInv(cfg, s);
    assert PhaseOk(cfg, s, s.procs[w].phase);
  }

  /** The read-back is accepted if and only if the stored object has the size and digest of the capture. */
  lemma ReadBackDecides(cfg: Config, s: State, w: ProcId, at: int)
    requires w in s.procs && ActionReady(cfg, s, s.procs[w], ReadBack(at))
    ensures
      var c, work := s.procs[w].phase.work.c, Perform(cfg, s, w, ReadBack(at)).procs[w].phase.work;
      && (work == Restored(c, at) <==> ObjectStored(cfg, s.store, c.gen.backupKey, |c.bytes|, cfg.digest(c.bytes)))
      && (work == Failing(NoBackup) <==> c.gen.backupKey !in s.store)
      && (work.Restored? || work == Failing(NoBackup) || work == Failing(ChecksumMismatch))
  {
  }

  /** The second read-back is accepted if and only if the store holds the very manifest of this capture. */
  lemma ReadManifestDecides(cfg: Config, s: State, w: ProcId)
    requires w in s.procs && ActionReady(cfg, s, s.procs[w], ReadManifest)
    ensures
      var ph, work := s.procs[w].phase, Perform(cfg, s, w, ReadManifest).procs[w].phase.work;
      var c, at := ph.work.c, ph.work.at;
      && (work == Confirmed(c, at) <==>
            c.gen.manifestKey in s.store && s.store[c.gen.manifestKey] == Metadata(cfg, ph.request.source, c, at))
      && (work == Failing(NoBackup) <==> c.gen.manifestKey !in s.store)
      && (work.Confirmed? || work == Failing(NoBackup) || work == Failing(ManifestMismatch))
  {
  }

  /** An acknowledged upload of an empty object left one byte behind: the read-back catches it. */
  lemma CorruptObject(cfg: Config) returns (s: State, t: State)
    ensures Reachable(cfg, s) && LoneWorker(cfg, s, 0, Uploaded(WitnessCapture(cfg)))
    ensures ObjectKey(0, 200) in s.store && s.store[ObjectKey(0, 200)] != WitnessCapture(cfg).bytes
    ensures Reachable(cfg, t) && LoneWorker(cfg, t, 0, Failing(ChecksumMismatch))
  {
    s := Uploads(cfg, 0, [0]);
    t := Pipeline(cfg, s, 0, Uploaded(WitnessCapture(cfg)), ReadBack(0));
  }

  /**
   * The answer to an upload was lost, the worker failed, and the object appears in the store all the same,
   * after the failure.
   */
  lemma LateUpload(cfg: Config) returns (s: State, t: State)
    ensures Reachable(cfg, s) && LoneWorker(cfg, s, 0, Failing(Unavailable)) && ObjectKey(0, 200) !in s.store
    ensures Reachable(cfg, t) && LoneWorker(cfg, t, 0, Failing(Unavailable))
    ensures ObjectKey(0, 200) in t.store && t.store[ObjectKey(0, 200)] == [0]
  {
    var c := WitnessCapture(cfg);
    var b := Captures(cfg, 0);
    assert ActionReady(cfg, b, b.procs[1], Put(false, [0]));
    hide Leads;
    s := Works(cfg, INIT, b, 1, Put(false, [0]));
    assert s.procs == map[1 := Alone(cfg, 0, Failing(Unavailable))];
    assert (ObjectKey(0, 200), [0]) in s.late;
    ReachableStep(cfg, s, Land(ObjectKey(0, 200), [0]));
    t := Step(cfg, s, Land(ObjectKey(0, 200), [0]));
  }

  /** An acknowledged manifest came out one byte longer: the second read-back catches it. */
  lemma CorruptManifest(cfg: Config) returns (t: State)
    ensures Reachable(cfg, t) && LoneWorker(cfg, t, 0, Failing(ManifestMismatch))
  {
    var c := WitnessCapture(cfg);
    var metadata := Metadata(cfg, WitnessSource(cfg), c, 0);
    t := Seals(cfg, 0, 0, metadata + [0]);
    assert |metadata + [0]| != |metadata|;
    t := Pipeline(cfg, t, 0, Sealed(c, 0), ReadManifest);
  }

  const NEWER := Identity("etag", "later", 0)

  /**
   * The source is overwritten between the first HEAD and the GET by a version with the same ETag: the
   * GET goes through with the new bytes, and the second HEAD catches it by its Last-Modified.
   */
  lemma OverwrittenSource(cfg: Config) returns (s: State, t: State)
    ensures Reachable(cfg, s) && LoneWorker(cfg, s, 0, Fetched(WITNESS_HEAD, [0]))
    ensures Reachable(cfg, t) && LoneWorker(cfg, t, 0, Failing(SourceChanged))
  {
    s := FetchesNewer(cfg);
    t := Pipeline(cfg, s, 0, Fetched(WITNESS_HEAD, [0]), HeadAfter);
  }

  lemma FetchesNewer(cfg: Config) returns (t: State)
    ensures Reachable(cfg, t) && LoneWorker(cfg, t, 0, Fetched(WITNESS_HEAD, [0]))
    ensures KEY in t.current && t.current[KEY] == NEWER
  {
    t := Heads(cfg);
    t := Overwrites(cfg, t, NEWER);
    t := Pipeline(cfg, t, 0, Headed(WITNESS_HEAD), Get);
  }

  lemma Heads(cfg: Config) returns (t: State)
    ensures Reachable(cfg, t) && LoneWorker(cfg, t, 0, Headed(WITNESS_HEAD))
    ensures t.versions == map[(KEY, WITNESS_HEAD) := []]
  {
    t := Begins(cfg, 0);
    t := Pipeline(cfg, t, 0, Fresh, HeadBefore);
  }

  lemma Overwrites(cfg: Config, s: State, newer: Identity) returns (t: State)
    requires Reachable(cfg, s) && LoneWorker(cfg, s, 0, Headed(WITNESS_HEAD)) && (KEY, newer) !in s.versions
    ensures Reachable(cfg, t) && LoneWorker(cfg, t, 0, Headed(WITNESS_HEAD))
    ensures KEY in t.current && t.current[KEY] == newer && t.versions == s.versions[(KEY, newer) := [0]]
  {
    var o := Overwrite(KEY, newer, [0]);
    assert Enabled(cfg, s, o);
    ReachableStep(cfg, s, o);
    t := Apply(cfg, s, o);
    assert t == Step(cfg, s, o);
  }
}
