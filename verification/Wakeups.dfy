/** What brings a pass: the timer always, the flag or the timer only, and nothing after a shutdown. */
module Wakeups {
  import opened DaemonStates
  import opened Reconcilers
  import opened DesiredState
  import opened RunLoop
  import opened RunLoopLaws

  // ----- the timer brings a pass -----

  /** On the way from the timeout to the next snapshot. */
  predicate TimerPhase(phase: LoopPhase, taken: nat) {
    (taken == 0 && phase == TimedOut) || (taken == 1 && phase == Snapshotting)
  }

  lemma TimerStep(env: Env, w: World, step: Step, taken: nat)
    requires ListsKnown(env.setup) && Enabled(w, step) && !step.Snapshot? && !step.Stop?
    requires TimerPhase(w.phase, taken)
    ensures TimerPhase(After(env, w, step).phase, taken + if LoopStep(step) then 1 else 0)
  {
    hide PlanOps, DesiredFrom, ActiveAt;
  }

  lemma TimerStarts(env: Env, w: World)
    requires ListsKnown(env.setup) && Enabled(w, Timeout)
    ensures After(env, w, Timeout).phase == TimedOut
  {
  }

  lemma {:induction false} TimerRuns(env: Env, run: seq<World>, steps: seq<Step>, i: nat, j: nat)
    requires ListsKnown(env.setup) && Follows(env, run, steps) && i < j < |run| && steps[i] == Timeout
    requires forall m :: i < m < j ==> !steps[m].Snapshot? && !steps[m].Stop?
    ensures TimerPhase(run[j].phase, LoopSteps(steps, i + 1, j))
    decreases j - i
  {
    hide After, Enabled, TimerPhase;
    if j == i + 1 {
      TimerStarts(env, run[i]);
      assert TimerPhase(TimedOut, 0) by {
        TimerBegins();
      }
    } else {
      TimerRuns(env, run, steps, i, j - 1);
      TimerStep(env, run[j - 1], steps[j - 1], LoopSteps(steps, i + 1, j - 1));
    }
  }

  lemma TimerBegins()
    ensures TimerPhase(TimedOut, 0)
  {
  }

  /** Whether or not the flag is set, and however the others' steps fall between: the second step the loop takes
      after its interval has run out is a snapshot, unless the bridge is shut down. */
  lemma TimeoutBringsSnapshot(env: Env, run: seq<World>, steps: seq<Step>, i: nat, j: nat) returns (m: nat)
    requires ListsKnown(env.setup) && Follows(env, run, steps) && i < j < |run| && steps[i] == Timeout
    requires LoopSteps(steps, i + 1, j) >= 2
    ensures i < m < j && (steps[m].Snapshot? || steps[m].Stop?)
    ensures LoopSteps(steps, i + 1, m) == 1
  {
    hide After, Enabled, LoopStep;
    if forall n :: i < n < j ==> !steps[n].Snapshot? && !steps[n].Stop? {
      TimerRuns(env, run, steps, i, j);
      assert false;
    }
    m := i + 1;
    while !(steps[m].Snapshot? || steps[m].Stop?)
      invariant i < m < j && forall n :: i < n < m ==> !steps[n].Snapshot? && !steps[n].Stop?
      invariant exists n :: m <= n < j && (steps[n].Snapshot? || steps[n].Stop?)
      decreases j - m
    {
      m := m + 1;
    }
    TimerRuns(env, run, steps, i, m);
    SnapshotIsRipe(run[m], steps[m]);
  }

  lemma SnapshotIsRipe(w: World, step: Step)
    requires Enabled(w, step) && (step.Snapshot? || step.Stop?)
    ensures w.phase == Snapshotting
  {
  }

  /** So the timer covers the window: an activation that was missed because it fell between snapshot and clear, or
      for whatever other reason, is in the snapshot the timer brings. */
  lemma TimerCoversTheWindow(env: Env, run: seq<World>, steps: seq<Step>, i: nat, j: nat, a: nat) returns (m: nat)
    requires ListsKnown(env.setup) && Follows(env, run, steps) && i < j < |run| && steps[i] == Timeout
    requires LoopSteps(steps, i + 1, j) >= 2 && a < |run[i].log|
    ensures i < m < j && (steps[m].Stop? || (steps[m].Snapshot? && a < run[m + 1].version))
  {
    hide After, Enabled, LoopStep;
    m := TimeoutBringsSnapshot(env, run, steps, i, j);
    if steps[m].Snapshot? {
      NextSnapshotHoldsAll(env, run, steps, i, m, a);
    }
  }

  /** And on the daemon once the pass that follows is through: every slot is then as that snapshot wants it, whatever
      anyone had done to the daemon before. */
  lemma TimerReachesDaemon(env: Env, run: seq<World>, steps: seq<Step>, i: nat, j: nat, l: nat, a: nat)
    returns (m: nat)
    requires ValidSetup(env.setup) && IsRun(env, run, steps) && i < j <= l < |run| && steps[i] == Timeout
    requires a < |run[i].log|
    requires forall n :: i < n < l ==> !RequestFails(steps[n]) && !steps[n].Stop?
    requires LoopSteps(steps, i + 1, j) >= 2 && LoopSteps(steps, j, l) > 2 + |run[l].ops|
    ensures i < m < l && steps[m].PassDone? && a < run[m + 1].version <= |run[m + 1].log|
    ensures Agrees(env, run[m + 1], run[m + 1].daemon)
  {
    hide Agrees, After, Enabled, LoopSteps;
    var n := TimerCoversTheWindow(env, run, steps, i, j, a);
    SnapshotClears(env, run[n]);
    LoopStepsGrow(steps, n + 1, j, l);
    m := PassReachesDaemon(env, run, steps, n + 1, l);
  }

  /** The same without any activation: the timer alone heals whatever has happened to the daemon. */
  lemma TimerHeals(env: Env, run: seq<World>, steps: seq<Step>, i: nat, j: nat, l: nat) returns (m: nat)
    requires ValidSetup(env.setup) && IsRun(env, run, steps) && i < j <= l < |run| && steps[i] == Timeout
    requires forall n :: i < n < l ==> !RequestFails(steps[n]) && !steps[n].Stop?
    requires LoopSteps(steps, i + 1, j) >= 2 && LoopSteps(steps, j, l) > 2 + |run[l].ops|
    ensures i < m < l && steps[m].PassDone? && run[m + 1].version <= |run[m + 1].log|
    ensures Agrees(env, run[m + 1], run[m + 1].daemon)
  {
    hide Agrees, After, Enabled, LoopSteps;
    var n := TimeoutBringsSnapshot(env, run, steps, i, j);
    SnapshotClears(env, run[n]);
    LoopStepsGrow(steps, n + 1, j, l);
    m := PassReachesDaemon(env, run, steps, n + 1, l);
  }

  // ----- and nothing else but the flag does -----

  /** The loop found the flag set with the mutex held, or its interval ran out. */
  predicate Cause(w: World, step: Step) {
    (step.Check? && w.dirty) || step.Timeout?
  }

  lemma OnlyCausesLeadOn(env: Env, w: World, step: Step)
    requires ListsKnown(env.setup) && Enabled(w, step) && !Cause(w, step)
    requires w.phase != TimedOut && w.phase != Snapshotting
    ensures After(env, w, step).phase != TimedOut && After(env, w, step).phase != Snapshotting
  {
    hide PlanOps, ApplyOp, DesiredFrom, Lookup, ActiveAt;
  }

  lemma {:induction false} NoCauseNoPass(env: Env, run: seq<World>, steps: seq<Step>, i: nat, j: nat)
    requires ListsKnown(env.setup) && Follows(env, run, steps) && i <= j < |run|
    requires run[i].phase != TimedOut && run[i].phase != Snapshotting
    requires forall m :: i <= m < j ==> !Cause(run[m], steps[m])
    ensures run[j].phase != TimedOut && run[j].phase != Snapshotting
    decreases j - i
  {
    hide After, Enabled, Cause;
    if i < j {
      NoCauseNoPass(env, run, steps, i, j - 1);
      OnlyCausesLeadOn(env, run[j - 1], steps[j - 1]);
    }
  }

  /** Between one snapshot and the next the loop has found the flag set, or its interval has run out: a failed pass is
      not repeated at once, and a wake-up without the flag brings none. */
  lemma SnapshotsHaveCauses(env: Env, run: seq<World>, steps: seq<Step>, i: nat, j: nat) returns (m: nat)
    requires ListsKnown(env.setup) && Follows(env, run, steps) && i < j < |steps|
    requires steps[i] == Snapshot && steps[j] == Snapshot
    ensures i < m < j && Cause(run[m], steps[m])
  {
    hide After, Enabled, Cause;
    SnapshotClears(env, run[i]);
    SnapshotIsRipe(run[j], steps[j]);
    if forall n :: i + 1 <= n < j ==> !Cause(run[n], steps[n]) {
      NoCauseNoPass(env, run, steps, i + 1, j);
      assert false;
    }
    m :| i < m < j && Cause(run[m], steps[m]);
  }

  // ----- shutdown -----

  lemma ShutdownStays(env: Env, w: World, step: Step)
    requires ListsKnown(env.setup) && Enabled(w, step) && w.shutdown
    ensures After(env, w, step).shutdown && !step.Snapshot?
  {
    hide PlanOps, ApplyOp, DesiredFrom, Lookup, ActiveAt;
  }

  lemma {:induction false} ShutdownLasts(env: Env, run: seq<World>, steps: seq<Step>, i: nat, j: nat)
    requires ListsKnown(env.setup) && Follows(env, run, steps) && i <= j < |run| && run[i].shutdown
    ensures run[j].shutdown
    decreases j - i
  {
    hide After, Enabled;
    if i < j {
      ShutdownLasts(env, run, steps, i, j - 1);
      ShutdownStays(env, run[j - 1], steps[j - 1]);
    }
  }

  lemma ShutdownTakes(env: Env, w: World)
    requires ListsKnown(env.setup)
    ensures After(env, w, Shutdown).shutdown
  {
  }

  /** Once the bridge is shut down, the loop takes no snapshot any more: the pass under way is its last. */
  lemma NoPassAfterShutdown(env: Env, run: seq<World>, steps: seq<Step>, i: nat, j: nat)
    requires ListsKnown(env.setup) && Follows(env, run, steps) && i < j < |steps| && steps[i] == Shutdown
    ensures !steps[j].Snapshot?
  {
    ShutdownTakes(env, run[i]);
    ShutdownLasts(env, run, steps, i + 1, j);
    ShutdownStays(env, run[j], steps[j]);
  }

  lemma StoppedStays(env: Env, w: World, step: Step)
    requires ListsKnown(env.setup) && Enabled(w, step) && (step == Stop || w.phase == Stopped)
    ensures After(env, w, step).phase == Stopped && (w.phase == Stopped ==> !LoopStep(step))
  {
    hide PlanOps, ApplyOp, DesiredFrom, Lookup, ActiveAt;
  }

  lemma {:induction false} StoppedLasts(env: Env, run: seq<World>, steps: seq<Step>, i: nat, j: nat)
    requires ListsKnown(env.setup) && Follows(env, run, steps) && i < j < |run| && steps[i] == Stop
    ensures run[j].phase == Stopped
    decreases j - i
  {
    hide After, Enabled;
    if j == i + 1 {
      StoppedStays(env, run[i], steps[i]);
    } else {
      StoppedLasts(env, run, steps, i, j - 1);
      StoppedStays(env, run[j - 1], steps[j - 1]);
    }
  }

  /** And once it has stopped, it takes no step at all. */
  lemma StopIsFinal(env: Env, run: seq<World>, steps: seq<Step>, i: nat, j: nat)
    requires ListsKnown(env.setup) && Follows(env, run, steps) && i < j < |steps| && steps[i] == Stop
    ensures !LoopStep(steps[j])
  {
    StoppedLasts(env, run, steps, i, j);
    StoppedStays(env, run[j], steps[j]);
  }

  // ----- the loop is never stuck -----

  /** What the loop can do in each phase. Where it waits for the mutex, the loop itself or a handler that can go on
      holds it. */
  lemma LoopNeverStuck(env: Env, w: World)
    requires ValidSetup(env.setup) && Inv(env, w)
    ensures match w.phase
            case Snapshotting => Enabled(w, if w.shutdown then Stop else Snapshot)
            case Clearing => Enabled(w, Clear)
            case Fetching => Enabled(w, FetchOk) && Enabled(w, FetchFail)
            case Applying(k) =>
              if k == |w.ops| then Enabled(w, PassDone) else Enabled(w, ApplyOk) && Enabled(w, ApplyFail(true))
            case Locking => w.mutex == Free ==> Enabled(w, Lock)
            case Checking => Enabled(w, Check)
            case Blocked => Enabled(w, Timeout)
            case Waking => w.mutex == Free ==> Enabled(w, Relock)
            case TimedOut => w.mutex == Free ==> Enabled(w, Return)
            case Stopped => true
    ensures w.mutex.Handler? ==> Enabled(w, HandlerStore(w.mutex.a)) || Enabled(w, HandlerUnlock(w.mutex.a))
  {
    hide PlanOps, RunOps, DesiredFrom, TimeInv, FlagInv, WakeInv, SyncInv, Lookup;
    if w.phase.Applying? && w.phase.k < |w.ops| {
      NextOpIsEnabled(env, w);
    }
  }
}
