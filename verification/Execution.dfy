/** The one-shot bounds of a backup process (src/backup/backup.execution.ts). */
module Execution {
  import opened Wrappers

  const CLAIM_WINDOW_MS := 240000
  const HARD_EXIT_MS := 480000
  const GRACE_MS := 30000

  /**
   * What the process remembers: `claimDeadline` is on its own clock, `hardAt` and `graceAt` are the
   * instants at which the two forced-exit timers fire.
   */
  datatype Control = Control(stopped: bool, claimDeadline: int, hardAt: int, graceAt: Option<int>)

  function Installed(reading: int, instant: int): Control {
    Control(false, reading + CLAIM_WINDOW_MS, instant + HARD_EXIT_MS, None)
  }

  predicate CanClaim(c: Control, reading: int) {
    !c.stopped && reading < c.claimDeadline
  }

  /** A termination signal: stop claiming; only the first one starts the grace timer. */
  function OnSignal(c: Control, instant: int): Control {
    c.(stopped := true, graceAt := if c.graceAt.None? then Some(instant + GRACE_MS) else c.graceAt)
  }

  /** The latest instant at which the process can still be running. */
  function ExitAt(c: Control): (t: int)
    ensures t <= c.hardAt
  {
    if c.graceAt.Some? && c.graceAt.value < c.hardAt then c.graceAt.value else c.hardAt
  }

  function AfterSignals(c: Control, instants: seq<int>): Control {
    if instants == [] then c else OnSignal(AfterSignals(c, instants[..|instants| - 1]), instants[|instants| - 1])
  }

  /**
   * However many signals arrive, the exit instant is fixed by the first: thirty seconds after it,
   * or the hard bound if that is earlier; and nothing can be claimed any more.
   */
  lemma {:induction false} FirstSignalDecides(reading: int, instant: int, instants: seq<int>)
    requires instants != []
    ensures var c := AfterSignals(Installed(reading, instant), instants);
            && ExitAt(c) == (if instants[0] + GRACE_MS < instant + HARD_EXIT_MS
                             then instants[0] + GRACE_MS else instant + HARD_EXIT_MS)
            && c.graceAt == Some(instants[0] + GRACE_MS)
            && forall later :: !CanClaim(c, later)
  {
    var front := instants[..|instants| - 1];
    if front == [] {
      assert AfterSignals(Installed(reading, instant), front) == Installed(reading, instant);
    } else {
      FirstSignalDecides(reading, instant, front);
    }
  }

  /** The object itself: two flags and the two timers it shares with `installTermination`. */
  class ExecutionControl {
    var stopped: bool
    const claimDeadline: int
    const hardAt: int
    var graceAt: Option<int>

    function Value(): Control
      reads this
    {
      Control(stopped, claimDeadline, hardAt, graceAt)
    }

    constructor (reading: int, instant: int)
      ensures Value() == Installed(reading, instant)
      ensures forall r :: CanClaim(Value(), r) <==> r < reading + CLAIM_WINDOW_MS
      ensures ExitAt(Value()) == instant + HARD_EXIT_MS
    {
      stopped := false;
      claimDeadline := reading + 240000;
      hardAt := instant + 480000;
      graceAt := None;
    }

    /** The object of a process that is already running. */
    constructor Of(c: Control)
      ensures Value() == c
    {
      stopped := c.stopped;
      claimDeadline := c.claimDeadline;
      hardAt := c.hardAt;
      graceAt := c.graceAt;
    }

    /** The SIGTERM/SIGINT handler: nothing is claimed any more, and only the first call can move the exit. */
    method Signal(instant: int)
      modifies this
      ensures Value() == OnSignal(old(Value()), instant)
      ensures forall r :: !CanClaim(Value(), r)
      ensures old(graceAt).Some? ==> ExitAt(Value()) == old(ExitAt(Value()))
      ensures old(graceAt).None? ==>
        ExitAt(Value()) == if instant + GRACE_MS < hardAt then instant + GRACE_MS else hardAt
    {
      stopped := true;
      if graceAt.None? {
        graceAt := Some(instant + 30000);
      }
    }

    /** Yes now was yes at every earlier reading of the clock, and no now is no at every later one. */
    method CanClaimNow(reading: int) returns (allowed: bool)
      ensures allowed ==> forall r | r <= reading :: CanClaim(Value(), r)
      ensures !allowed ==> forall r | r >= reading :: !CanClaim(Value(), r)
    {
      allowed := !stopped && reading < claimDeadline;
    }
  }
}
