/**
 * Every capture has a fresh id, and no two workers ever write under the same keys: the conditional
 * PUTs of `runOne` never meet an existing object, so GENERATION_EXISTS is never raised.
 */
module Captures {
  import opened Wrappers
  import opened Tables
  import opened Protocol

  /** Neither written nor in flight. */
  predicate NotPut(s: State, key: Key) {
    key !in s.store && forall p | p in s.late :: p.0 != key
  }

  predicate HasCapture(work: Work) {
    work.Generated? || work.Uploaded? || work.Restored? || work.Sealed? || work.Confirmed?
  }

  function CaptureId(ph: Phase): Option<Uuid> {
    if ph.Held? && HasCapture(ph.work) then Some(ph.work.c.gen.captureId) else None
  }

  predicate OwnKeys(s: State, ph: Phase) {
    ph.Held? && HasCapture(ph.work) ==>
      && ph.work.c.gen.captureId in s.issued
      && ph.work.c.gen.backupKey == ObjectKey(ph.rid, ph.work.c.gen.captureId)
      && ph.work.c.gen.manifestKey == ManifestKey(ph.rid, ph.work.c.gen.captureId)
      && (ph.work.Generated? ==> NotPut(s, ph.work.c.gen.backupKey))
      && (ph.work.Generated? || ph.work.Uploaded? || ph.work.Restored? ==> NotPut(s, ph.work.c.gen.manifestKey))
  }

  predicate KeysIssued(s: State) {
    && (forall key | key in s.store :: key.capture in s.issued)
    && (forall p | p in s.late :: p.0.capture in s.issued)
  }

  predicate DistinctCaptures(s: State) {
    forall v, w | v in s.procs && w in s.procs && v != w ::
      CaptureId(s.procs[v].phase).Some? ==> CaptureId(s.procs[v].phase) != CaptureId(s.procs[w].phase)
  }

  ghost predicate CaptureInv(s: State) {
    && KeysIssued(s)
    && DistinctCaptures(s)
    && (forall w | w in s.procs :: OwnKeys(s, s.procs[w].phase))
    && (forall w | w in s.procs :: s.procs[w].phase.Held? && s.procs[w].phase.work.Failing? ==>
          !s.procs[w].phase.work.code.GenerationExists?)
  }

  /** The only key an action can make present or put in flight is that of its payload. */
  lemma KeyOrigin(cfg: Config, s: State, w: ProcId, a: Action, key: Key)
    requires w in s.procs && ActionReady(cfg, s, s.procs[w], a) && NotPut(s, key)
    ensures NotPut(Perform(cfg, s, w, a), key) ||
      ((a.Put? || a.PutManifest?) && key == Payload(cfg, s.procs[w].phase, a).0)
  {
  }

  lemma CaptureOrigin(cfg: Config, s: State, p: Proc, a: Action)
    requires ActionReady(cfg, s, p, a) && OwnKeys(s, p.phase)
    ensures var q := NextPhase(cfg, s, p, a);
      && (CaptureId(q).Some? ==> CaptureId(q) == CaptureId(p.phase) || (a.Create? && CaptureId(q) == Some(a.capture)))
      && (q.Held? && q.work.Failing? && q.work.code.GenerationExists? ==>
            p.phase.Held? && p.phase.work.Failing? && p.phase.work.code.GenerationExists?)
  {
  }

  /** A worker's keys stay unwritten while another one acts on keys of another capture. */
  lemma OwnKeysOfOther(cfg: Config, s: State, w: ProcId, a: Action, ph: Phase)
    requires w in s.procs && ActionReady(cfg, s, s.procs[w], a)
    requires OwnKeys(s, ph) && OwnKeys(s, s.procs[w].phase)
    requires CaptureId(ph).Some? ==> CaptureId(ph) != CaptureId(s.procs[w].phase)
    ensures OwnKeys(Perform(cfg, s, w, a), ph)
  {
    if ph.Held? && HasCapture(ph.work) {
      if ph.work.Generated? { KeyOrigin(cfg, s, w, a, ph.work.c.gen.backupKey); }
      if NotPut(s, ph.work.c.gen.manifestKey) { KeyOrigin(cfg, s, w, a, ph.work.c.gen.manifestKey); }
    }
  }

  lemma OwnKeysOfActor(cfg: Config, s: State, w: ProcId, a: Action)
    requires w in s.procs && ActionReady(cfg, s, s.procs[w], a) && OwnKeys(s, s.procs[w].phase) && KeysIssued(s)
    ensures OwnKeys(Perform(cfg, s, w, a), NextPhase(cfg, s, s.procs[w], a))
  {
    var q := NextPhase(cfg, s, s.procs[w], a);
    if q.Held? && HasCapture(q.work) {
      if a.Create? {
        assert NotPut(s, q.work.c.gen.backupKey) && NotPut(s, q.work.c.gen.manifestKey);
      } else if NotPut(s, q.work.c.gen.manifestKey) {
        KeyOrigin(cfg, s, w, a, q.work.c.gen.manifestKey);
      }
    }
  }

  lemma ActKeepsCaptures(cfg: Config, s: State, w: ProcId, a: Action)
    requires CaptureInv(s) && w in s.procs && ActionReady(cfg, s, s.procs[w], a)
    ensures CaptureInv(Perform(cfg, s, w, a))
  {
    var t := Perform(cfg, s, w, a);
    assert OwnKeys(s, s.procs[w].phase);
    ActKeepsIssued(cfg, s, w, a);
    ActKeepsDistinct(cfg, s, w, a);
    CaptureOrigin(cfg, s, s.procs[w], a);
    hide ActionReady, NextDb, NextStore, NextLate, NextPhase, NextIssued, OwnKeys, KeysIssued;
    forall v | v in t.procs ensures OwnKeys(t, t.procs[v].phase) {
      if v == w { OwnKeysOfActor(cfg, s, w, a); } else { OwnKeysOfOther(cfg, s, w, a, s.procs[v].phase); }
    }
  }

  lemma ActKeepsIssued(cfg: Config, s: State, w: ProcId, a: Action)
    requires KeysIssued(s) && w in s.procs && ActionReady(cfg, s, s.procs[w], a) && OwnKeys(s, s.procs[w].phase)
    ensures KeysIssued(Perform(cfg, s, w, a))
  {
  }

  lemma ActKeepsDistinct(cfg: Config, s: State, w: ProcId, a: Action)
    requires CaptureInv(s) && w in s.procs && ActionReady(cfg, s, s.procs[w], a)
    ensures DistinctCaptures(Perform(cfg, s, w, a))
  {
    var t := Perform(cfg, s, w, a);
    CaptureOrigin(cfg, s, s.procs[w], a);
    IssuedCaptures(s);
    if a.Create? { assert a.capture !in s.issued; }
    hide ActionReady, NextDb, NextStore, NextLate, NextPhase, NextIssued, OwnKeys, KeysIssued, CaptureId;
  }

  lemma IssuedCaptures(s: State)
    requires CaptureInv(s)
    ensures forall v | v in s.procs && CaptureId(s.procs[v].phase).Some? ::
      CaptureId(s.procs[v].phase).value in s.issued
  {
    forall v | v in s.procs && CaptureId(s.procs[v].phase).Some?
      ensures CaptureId(s.procs[v].phase).value in s.issued
    {
      assert OwnKeys(s, s.procs[v].phase);
    }
  }

  lemma StepKeepsCaptures(cfg: Config, s: State, e: Event)
    requires CaptureInv(s)
    ensures CaptureInv(Step(cfg, s, e))
  {
    hide CaptureInv, ActionReady, Perform;
    if Enabled(cfg, s, e) {
      if e.Act? { ActKeepsCaptures(cfg, s, e.w, e.a); } else { EnvironmentKeepsCaptures(cfg, s, e); }
    }
  }

  lemma EnvironmentPuts(cfg: Config, s: State, e: Event)
    requires KeysIssued(s) && Enabled(cfg, s, e) && !e.Act?
    ensures KeysIssued(Apply(cfg, s, e))
    ensures forall key | NotPut(s, key) :: NotPut(Apply(cfg, s, e), key)
  {
  }

  lemma EnvironmentKeepsCaptures(cfg: Config, s: State, e: Event)
    requires CaptureInv(s) && Enabled(cfg, s, e) && !e.Act?
    ensures CaptureInv(Apply(cfg, s, e))
  {
    var t := Apply(cfg, s, e);
    EnvironmentPuts(cfg, s, e);
    EnvironmentEffect(cfg, s, e);
    hide Enabled, Apply, KeysIssued, NotPut, OwnKeys;
    forall v | v in t.procs ensures OwnKeys(t, t.procs[v].phase) {
      OwnKeysStay(s, t, t.procs[v].phase);
    }
  }

  lemma OwnKeysStay(s: State, t: State, ph: Phase)
    requires ph.Idle? || OwnKeys(s, ph)
    requires s.issued <= t.issued && forall key | NotPut(s, key) :: NotPut(t, key)
    ensures OwnKeys(t, ph)
  {
  }

  lemma {:induction false} RunKeepsCaptures(cfg: Config, s: State, run: seq<Event>)
    requires CaptureInv(s)
    ensures CaptureInv(After(cfg, s, run))
  {
    if run != [] {
      RunKeepsCaptures(cfg, s, run[..|run| - 1]);
      StepKeepsCaptures(cfg, After(cfg, s, run[..|run| - 1]), run[|run| - 1]);
    }
  }

  /**
   * In every reachable state the next conditional PUT of a worker finds its key absent, and no worker
   * is failing because a generation already existed.
   */
  lemma PutIsNeverRefused(cfg: Config, s: State, w: ProcId)
    requires Reachable(cfg, s) && w in s.procs && s.procs[w].phase.Held?
    ensures s.procs[w].phase.work.Generated? ==> s.procs[w].phase.work.c.gen.backupKey !in s.store
    ensures s.procs[w].phase.work.Restored? ==> s.procs[w].phase.work.c.gen.manifestKey !in s.store
    ensures s.procs[w].phase.work != Failing(GenerationExists)
  {
    var run :| s == After(cfg, INIT, run);
    RunKeepsCaptures(cfg, INIT, run);
    assert OwnKeys(s, s.procs[w].phase);
  }
}
