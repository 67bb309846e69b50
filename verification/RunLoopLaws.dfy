/** What every run of the reconcile loop keeps. */
module RunLoopLaws {
  import Convergence
  import opened Wrappers
  import opened DaemonStates
  import opened Reconcilers
  import Targets
  import PlanMeasure
  import opened DesiredState
  import opened RunLoop

  // ----- waking -----

  /** The loop is never asleep with the flag set unless a notify is on its way. */
  lemma NeverAsleepWithFlag(env: Env, run: seq<World>, steps: seq<Step>, i: nat)
    requires ValidSetup(env.setup) && IsRun(env, run, steps) && i < |run|
    ensures run[i].phase == Blocked && run[i].dirty ==> NotifyPending(run[i])
  {
    RunKeepsInv(env, run, steps, i);
  }

  /** A handler that sets the flag after the loop has cleared it is never slept through. */
  lemma StoredAfterClearWakes(env: Env, run: seq<World>, steps: seq<Step>, i: nat, a: nat)
    requires ValidSetup(env.setup) && IsRun(env, run, steps) && i < |run|
    requires run[i].phase == Blocked && a < |run[i].log| && HasStored(run[i].log[a])
    requires run[i].clearAt < run[i].log[a].storedAt
    ensures run[i].dirty && NotifyPending(run[i])
  {
    RunKeepsInv(env, run, steps, i);
    assert SetSinceClear(run[i]);
  }

  /** The activation was written after the last snapshot, and its handler set the flag before the clear that
      followed it. */
  predicate InWindow(w: World, act: Activation) {
    w.snapAt < act.writtenAt < act.storedAt < w.clearAt
  }

  /** Asleep with the flag clear, the loop has missed an activation whose handler has set the flag if and only
      if both the write and the setting fell between the snapshot and the clear. */
  lemma MissedOnlyInWindow(env: Env, run: seq<World>, steps: seq<Step>, i: nat, a: nat)
    requires ValidSetup(env.setup) && IsRun(env, run, steps) && i < |run|
    requires run[i].phase == Blocked && !run[i].dirty && a < |run[i].log| && HasStored(run[i].log[a])
    ensures run[i].version <= a <==> InWindow(run[i], run[i].log[a])
  {
    RunKeepsInv(env, run, steps, i);
    assert !SetSinceClear(run[i]);
  }

  lemma JoinRuns(env: Env, run: seq<World>, steps: seq<Step>, run': seq<World>, steps': seq<Step>)
    requires ListsKnown(env.setup) && Follows(env, run, steps) && Follows(env, run', steps')
    requires run[|run| - 1] == run'[0]
    ensures Follows(env, run + run'[1..], steps + steps')
    ensures (run + run'[1..])[0] == run[0] && (run + run'[1..])[|run + run'[1..]| - 1] == run'[|run'| - 1]
  {
    var joined, all := run + run'[1..], steps + steps';
    forall i | 0 <= i < |all|
      ensures Enabled(joined[i], all[i]) && joined[i + 1] == After(env, joined[i], all[i])
    {
      if i >= |steps| {
        assert joined[i] == run'[i - |steps|] && all[i] == steps'[i - |steps|];
      }
    }
  }

  /** A handler that runs undisturbed while the loop is awake. */
  lemma HandlerRuns(env: Env, w: World) returns (run: seq<World>, steps: seq<Step>)
    requires ListsKnown(env.setup) && HandlerAt(w, 0, Pending) && w.mutex == Free && w.phase != Blocked
    ensures Follows(env, run, steps) && run[0] == w
    ensures var last := run[|run| - 1];
            && |last.log| == |w.log| && last.log[0].phase == Done
            && last.phase == w.phase && last.version == w.version && last.mutex == Free
  {
    var w1 := After(env, w, HandlerLock(0));
    var w2 := After(env, w1, HandlerStore(0));
    var w3 := After(env, w2, HandlerUnlock(0));
    var w4 := After(env, w3, HandlerNotify(0));
    run, steps := [w, w1, w2, w3, w4], [HandlerLock(0), HandlerStore(0), HandlerUnlock(0), HandlerNotify(0)];
  }

  /** A loop that has taken its snapshot clears the flag and fails to reach the daemon. */
  lemma LoopClearsAndFails(env: Env, w: World) returns (run: seq<World>, steps: seq<Step>)
    requires ListsKnown(env.setup) && w.phase == Clearing
    ensures Follows(env, run, steps) && run[0] == w
    ensures var last := run[|run| - 1];
            && last.phase == Locking && last.mutex == w.mutex
            && !last.dirty && last.log == w.log && last.version == w.version
  {
    var w1 := After(env, w, Clear);
    var w2 := After(env, w1, FetchFail);
    run, steps := [w, w1, w2], [Clear, FetchFail];
  }

  /** With the flag clear, the loop goes to sleep. */
  lemma LoopFallsAsleep(env: Env, w: World) returns (run: seq<World>, steps: seq<Step>)
    requires ListsKnown(env.setup) && w.phase == Locking && w.mutex == Free && !w.dirty
    ensures Follows(env, run, steps) && run[0] == w
    ensures var last := run[|run| - 1];
            && last.phase == Blocked && !last.dirty && last.synced == w.synced
            && last.log == w.log && last.version == w.version
  {
    var w1 := After(env, w, Lock);
    var w2 := After(env, w1, Check);
    run, steps := [w, w1, w2], [Lock, Check];
  }

  /** A pass under way whose requests all succeed. Each of them can: what a removal removes is there. */
  lemma {:induction false} LoopApplies(env: Env, w: World) returns (run: seq<World>, steps: seq<Step>)
    requires ValidSetup(env.setup) && w.version <= |w.log| && w.phase.Applying? && PassInv(env, w)
    ensures Follows(env, run, steps) && run[0] == w
    ensures var last := run[|run| - 1];
            && last.phase == Locking && last.synced && last.mutex == w.mutex
            && last.dirty == w.dirty && last.log == w.log && last.version == w.version
    decreases |w.ops| - w.phase.k
  {
    hide After, Enabled, PlanNow, RunOps;
    if w.phase.k == |w.ops| {
      LastStepOfPass(env, w);
      run, steps := [w, After(env, w, PassDone)], [PassDone];
    } else {
      NextOpIsEnabled(env, w);
      OpSent(env, w);
      var w1 := After(env, w, ApplyOk);
      var rest, restSteps := LoopApplies(env, w1);
      run, steps := [w, w1], [ApplyOk];
      JoinRuns(env, run, steps, rest, restSteps);
      run, steps := run + rest[1..], steps + restSteps;
    }
  }

  lemma LastStepOfPass(env: Env, w: World)
    requires ListsKnown(env.setup) && w.phase.Applying? && w.phase.k == |w.ops|
    ensures Enabled(w, PassDone)
    ensures var w' := After(env, w, PassDone);
            && w'.phase == Locking && w'.synced && w'.mutex == w.mutex
            && w'.dirty == w.dirty && w'.log == w.log && w'.version == w.version
  {
  }

  lemma NextOpIsEnabled(env: Env, w: World)
    requires ValidSetup(env.setup) && w.version <= |w.log| && w.phase.Applying? && PassInv(env, w)
    requires w.phase.k < |w.ops|
    ensures Enabled(w, ApplyOk)
  {
    hide PlanOps, RunOps, DesiredFrom, Lookup, Targets.UniqueSlots;
    var desired := DesiredFrom(env.setup, ActiveAt(w, w.version));
    DesiredIsUnique(env.setup, ActiveAt(w, w.version));
    PlanMeasure.EachOpMeetsItsSlot(env.store, env.setup.ns, desired, w.planned, w.ops, w.phase.k);
  }

  lemma OpSent(env: Env, w: World)
    requires ValidSetup(env.setup) && w.version <= |w.log| && PassInv(env, w) && Enabled(w, ApplyOk)
    ensures var w' := After(env, w, ApplyOk);
            && w'.version <= |w'.log| && PassInv(env, w') && w'.phase == Applying(w.phase.k + 1) && w'.ops == w.ops
            && w'.mutex == w.mutex && w'.dirty == w.dirty && w'.log == w.log && w'.version == w.version
  {
    hide PlanOps, RunOps, DesiredFrom, Lookup, ApplyOp;
    SamePlan(env, w, ApplyOk, w.planned);
    RunOneMore(env.store, w.ops, w.phase.k, w.planned);
  }

  lemma PassOpens(env: Env, w: World)
    requires ValidSetup(env.setup) && w.phase == Clearing && w.version <= |w.log|
    ensures Enabled(w, Clear) && Enabled(After(env, w, Clear), FetchOk)
    ensures var w' := After(env, After(env, w, Clear), FetchOk);
            && w'.phase == Applying(0) && PassInv(env, w') && !w'.dirty
            && w'.mutex == w.mutex && w'.log == w.log && w'.version == w.version
  {
    hide PlanOps, DesiredFrom;
    assert After(env, After(env, w, Clear), FetchOk).ops[..0] == [];
  }

  /** A loop that has taken its snapshot clears the flag, reaches the daemon and sends the whole plan. */
  lemma LoopClearsAndCompletes(env: Env, w: World) returns (run: seq<World>, steps: seq<Step>)
    requires ValidSetup(env.setup) && w.phase == Clearing && w.version <= |w.log|
    ensures Follows(env, run, steps) && run[0] == w
    ensures var last := run[|run| - 1];
            && last.phase == Locking && last.synced && last.mutex == w.mutex
            && !last.dirty && last.log == w.log && last.version == w.version
  {
    hide After, Enabled, PassInv;
    PassOpens(env, w);
    var w1 := After(env, w, Clear);
    var w2 := After(env, w1, FetchOk);
    var rest, restSteps := LoopApplies(env, w2);
    run, steps := [w, w1, w2], [Clear, FetchOk];
    JoinRuns(env, run, steps, rest, restSteps);
    run, steps := run + rest[1..], steps + restSteps;
  }

  /** The beginning of a run: an activation is written and its handler finishes between the snapshot and the
      clear. */
  lemma WindowOpens(env: Env, w: World, conns: Connections) returns (run: seq<World>, steps: seq<Step>)
    requires ListsKnown(env.setup) && Begins(w)
    ensures IsRun(env, run, steps) && run[0] == w
    ensures var last := run[|run| - 1];
            && last.phase == Clearing && last.mutex == Free
            && |last.log| == 1 && last.log[0].phase == Done && last.version == 0
  {
    var w1 := After(env, w, Snapshot);
    var w2 := After(env, w1, Activate(conns));
    run, steps := [w, w1, w2], [Snapshot, Activate(conns)];
    var handling, handlerSteps := HandlerRuns(env, w2);
    JoinRuns(env, run, steps, handling, handlerSteps);
    run, steps := run + handling[1..], steps + handlerSteps;
  }

  /** The window is real: a run in which the loop falls asleep on an activation whose handler has finished, so
      that only the timer is left to bring it to the daemon. */
  lemma ActivationCanBeMissed(env: Env, w: World, conns: Connections) returns (run: seq<World>, steps: seq<Step>)
    requires ListsKnown(env.setup) && Begins(w)
    ensures IsRun(env, run, steps) && run[0] == w
    ensures var last := run[|run| - 1];
            && last.phase == Blocked && !last.dirty && !NotifyPending(last)
            && |last.log| == 1 && last.log[0].phase == Done && last.version == 0
  {
    run, steps := WindowOpens(env, w, conns);
    var failing, failSteps := LoopClearsAndFails(env, run[|run| - 1]);
    JoinRuns(env, run, steps, failing, failSteps);
    run, steps := run + failing[1..], steps + failSteps;
    var sleeping, sleepSteps := LoopFallsAsleep(env, run[|run| - 1]);
    JoinRuns(env, run, steps, sleeping, sleepSteps);
    run, steps := run + sleeping[1..], steps + sleepSteps;
  }

  /** No outage is needed: from every beginning there is such a run whose pass sends its whole plan, so that the
      daemon agrees with the connections before the activation. */
  lemma CompletePassCanMiss(env: Env, w: World, conns: Connections) returns (run: seq<World>, steps: seq<Step>)
    requires ValidSetup(env.setup) && Begins(w)
    ensures IsRun(env, run, steps) && run[0] == w
    ensures var last := run[|run| - 1];
            && last.phase == Blocked && !last.dirty && !NotifyPending(last) && last.synced
            && |last.log| == 1 && last.log[0].phase == Done && last.version == 0
  {
    run, steps := WindowOpens(env, w, conns);
    var passing, passSteps := LoopClearsAndCompletes(env, run[|run| - 1]);
    JoinRuns(env, run, steps, passing, passSteps);
    run, steps := run + passing[1..], steps + passSteps;
    var sleeping, sleepSteps := LoopFallsAsleep(env, run[|run| - 1]);
    JoinRuns(env, run, steps, sleeping, sleepSteps);
    run, steps := run + sleeping[1..], steps + sleepSteps;
  }

  /** Activations are never forgotten or changed, whatever happens in between. */
  lemma {:induction false} LogKeeps(env: Env, run: seq<World>, steps: seq<Step>, i: nat, j: nat)
    requires ListsKnown(env.setup) && Follows(env, run, steps) && i <= j < |run|
    ensures |run[i].log| <= |run[j].log|
    ensures forall a :: 0 <= a < |run[i].log| ==>
              run[j].log[a].conns == run[i].log[a].conns && run[j].log[a].writtenAt == run[i].log[a].writtenAt
    decreases j - i
  {
    hide Enabled, After;
    if i < j {
      LogKeeps(env, run, steps, i, j - 1);
      StepKeepsLog(env, run[j - 1], steps[j - 1]);
    }
  }

  lemma StepKeepsLog(env: Env, w: World, step: Step)
    requires ListsKnown(env.setup) && Enabled(w, step)
    ensures var w' := After(env, w, step);
            && |w.log| <= |w'.log|
            && forall a :: 0 <= a < |w.log| ==>
                 w'.log[a].conns == w.log[a].conns && w'.log[a].writtenAt == w.log[a].writtenAt
  {
    hide After, Enabled;
    var w' := After(env, w, step);
    forall a: nat | a < |w.log|
      ensures a < |w'.log| && w'.log[a].conns == w.log[a].conns && w'.log[a].writtenAt == w.log[a].writtenAt
    {
      SameEntry(env, w, step, a);
    }
    if w.log != [] {
      SameEntry(env, w, step, |w.log| - 1);
    }
  }

  /** Whenever the loop next takes a snapshot, woken or timed, it takes in every activation written by now: those
      missed in the window too. The connections it works from are the latest. */
  lemma NextSnapshotHoldsAll(env: Env, run: seq<World>, steps: seq<Step>, i: nat, j: nat, a: nat)
    requires ListsKnown(env.setup) && Follows(env, run, steps) && i <= j < |steps| && steps[j] == Snapshot
    requires a < |run[i].log|
    ensures a < run[j + 1].version <= |run[j + 1].log|
    ensures ActiveAt(run[j + 1], run[j + 1].version) == run[j].log[|run[j].log| - 1].conns
    ensures (forall m :: i <= m < j ==> !steps[m].Activate?) && a == |run[i].log| - 1 ==>
              ActiveAt(run[j + 1], run[j + 1].version) == run[i].log[a].conns
  {
    LogKeeps(env, run, steps, i, j);
    if forall m :: i <= m < j ==> !steps[m].Activate? {
      LogStands(env, run, steps, i, j);
    }
  }

  lemma {:induction false} LogStands(env: Env, run: seq<World>, steps: seq<Step>, i: nat, j: nat)
    requires ListsKnown(env.setup) && Follows(env, run, steps) && i <= j < |run|
    requires forall m :: i <= m < j ==> !steps[m].Activate?
    ensures |run[j].log| == |run[i].log|
    decreases j - i
  {
    hide Enabled, After;
    if i < j {
      LogStands(env, run, steps, i, j - 1);
      OnlyActivateWrites(env, run[j - 1], steps[j - 1]);
    }
  }

  lemma OnlyActivateWrites(env: Env, w: World, step: Step)
    requires ListsKnown(env.setup) && Enabled(w, step) && !step.Activate?
    ensures |After(env, w, step).log| == |w.log|
  {
    hide PlanOps, ApplyOp, DesiredFrom, Lookup, ActiveAt, HasStored;
  }

  // ----- progress -----

  predicate LoopStep(step: Step) {
    match step
    case Activate(_) => false
    case HandlerLock(_) => false
    case HandlerStore(_) => false
    case HandlerUnlock(_) => false
    case HandlerNotify(_) => false
    case Shutdown => false
    case Outside(_) => false
    case _ => true
  }

  /** How far the loop is from its next snapshot when it will not go to sleep on the way. */
  function PhaseRank(phase: LoopPhase): nat {
    match phase
    case Clearing => 7
    case Fetching => 6
    case Applying(_) => 5
    case Locking => 4
    case Blocked => 3
    case Waking => 2
    case Checking => 1
    case TimedOut => 1
    case Snapshotting => 0
    case Stopped => 0
  }

  function OpsLeft(w: World): int {
    if w.phase.Applying? then |w.ops| - w.phase.k else 0
  }

  /** With the flag set past the clear, each step of the loop brings it nearer to its next snapshot, and it does
      not go to sleep. */
  lemma FlagForcesSnapshot(env: Env, w: World, step: Step)
    requires ListsKnown(env.setup) && Enabled(w, step) && LoopStep(step)
    requires PastClear(w.phase) && w.dirty
    ensures var w' := After(env, w, step);
            && w'.dirty && w'.phase != Blocked
            && (|| PhaseRank(w'.phase) < PhaseRank(w.phase)
                || (PhaseRank(w'.phase) == PhaseRank(w.phase) && 0 <= OpsLeft(w') < OpsLeft(w)))
  {
  }

  /** Nobody else's step clears the flag, puts the loop to sleep or takes it farther from its snapshot. */
  lemma OthersDoNotDelay(env: Env, w: World, step: Step)
    requires ListsKnown(env.setup) && Enabled(w, step) && !LoopStep(step) && w.dirty
    ensures var w' := After(env, w, step);
            && w'.dirty
            && (|| (w.phase == Blocked && w'.phase == Waking)
                || (w'.phase == w.phase && OpsLeft(w') == OpsLeft(w)))
  {
  }

  /** So in any run, a loop that is awake when the flag is set stays awake until it takes its next snapshot. */
  lemma {:induction false} AwakeUntilSnapshot(env: Env, run: seq<World>, steps: seq<Step>, i: nat, j: nat)
    requires ValidSetup(env.setup) && IsRun(env, run, steps) && i <= j < |run|
    requires PastClear(run[i].phase) && run[i].dirty && run[i].phase != Blocked
    requires forall m :: i <= m <= j ==> run[m].phase != Snapshotting
    ensures run[j].dirty && run[j].phase != Blocked && PastClear(run[j].phase)
    decreases j - i
  {
    if i < j {
      AwakeUntilSnapshot(env, run, steps, i, j - 1);
      if LoopStep(steps[j - 1]) {
        FlagForcesSnapshot(env, run[j - 1], steps[j - 1]);
      } else {
        OthersDoNotDelay(env, run[j - 1], steps[j - 1]);
      }
    }
  }

  /** How many of the steps from i to j are the loop's. */
  function LoopSteps(steps: seq<Step>, i: nat, j: nat): nat
    requires i <= j <= |steps|
    decreases j - i
  {
    if i == j then 0 else LoopSteps(steps, i, j - 1) + if LoopStep(steps[j - 1]) then 1 else 0
  }

  /** How many steps the loop has left before its next snapshot, not counting the requests of a pass yet to be
      planned. */
  function StepsLeft(w: World): int {
    PhaseRank(w.phase) + OpsLeft(w)
  }

  /** The requests of the pass at hand, once it is planned. */
  function Planned(w: World): nat {
    if w.phase.Clearing? || w.phase.Fetching? then 0 else |w.ops|
  }

  lemma LoopStepCounts(env: Env, w: World, step: Step)
    requires ListsKnown(env.setup) && Enabled(w, step) && LoopStep(step) && !step.Snapshot? && !step.Stop?
    requires PastClear(w.phase) && w.dirty
    ensures var w' := After(env, w, step);
            StepsLeft(w') - Planned(w') < StepsLeft(w) - Planned(w) && w'.dirty
            && (PastClear(w'.phase) || w'.phase.Snapshotting?)
  {
    hide PlanOps, ApplyOp, DesiredFrom, Lookup;
  }

  lemma OtherStepCounts(env: Env, w: World, step: Step)
    requires ListsKnown(env.setup) && Enabled(w, step) && !LoopStep(step) && w.dirty
    requires PastClear(w.phase) || w.phase.Snapshotting?
    ensures var w' := After(env, w, step);
            StepsLeft(w') - Planned(w') <= StepsLeft(w) - Planned(w) && w'.dirty
            && (PastClear(w'.phase) || w'.phase.Snapshotting?)
  {
    hide PlanOps, ApplyOp, DesiredFrom, Lookup;
  }

  lemma {:induction false} StepsRunOut(env: Env, run: seq<World>, steps: seq<Step>, i: nat, j: nat)
    requires ValidSetup(env.setup) && IsRun(env, run, steps) && i <= j < |run|
    requires PastClear(run[i].phase) && run[i].dirty
    requires forall m :: i <= m < j ==> !steps[m].Snapshot? && !steps[m].Stop?
    ensures run[j].dirty && (PastClear(run[j].phase) || run[j].phase.Snapshotting?)
    ensures LoopSteps(steps, i, j) + StepsLeft(run[j]) - Planned(run[j]) <= StepsLeft(run[i]) - Planned(run[i])
    decreases j - i
  {
    hide After, Enabled, StepsLeft, Planned, PastClear;
    if i < j {
      StepsRunOut(env, run, steps, i, j - 1);
      var w, step := run[j - 1], steps[j - 1];
      if LoopStep(step) {
        OnlySnapshotOrStop(w, step);
        LoopStepCounts(env, w, step);
      } else {
        OtherStepCounts(env, w, step);
      }
    }
  }

  /** The loop begins a round with a snapshot, unless it stops. */
  lemma OnlySnapshotOrStop(w: World, step: Step)
    requires Enabled(w, step) && LoopStep(step) && !step.Snapshot? && !step.Stop?
    ensures !w.phase.Snapshotting?
  {
  }

  lemma StepsLeftBound(env: Env, w: World)
    requires ListsKnown(env.setup) && Inv(env, w) && PastClear(w.phase)
    ensures 0 <= OpsLeft(w) && StepsLeft(w) - Planned(w) <= 6
  {
    hide PlanOps, ApplyOp, DesiredFrom, Lookup;
  }

  lemma StepsLeftNonnegative(env: Env, w: World)
    requires ListsKnown(env.setup) && Inv(env, w)
    ensures 0 <= StepsLeft(w)
  {
    hide PlanOps, ApplyOp, DesiredFrom, Lookup;
  }

  /** Progress: with the flag set past the clear, the loop takes its next snapshot, unless it is shut down, within
      six of its own steps and one for each request of the pass at hand, however the others' steps fall between. */
  lemma FlagBringsSnapshot(env: Env, run: seq<World>, steps: seq<Step>, i: nat, j: nat)
    requires ValidSetup(env.setup) && IsRun(env, run, steps) && i <= j < |run|
    requires PastClear(run[i].phase) && run[i].dirty
    requires LoopSteps(steps, i, j) > 6 + |run[j].ops|
    ensures exists m :: i <= m < j && (steps[m].Snapshot? || steps[m].Stop?)
  {
    hide Inv, StepsLeft, LoopSteps;
    if forall m :: i <= m < j ==> !steps[m].Snapshot? && !steps[m].Stop? {
      StepsRunOut(env, run, steps, i, j);
      RunKeepsInv(env, run, steps, i);
      RunKeepsInv(env, run, steps, j);
      StepsLeftBound(env, run[i]);
      StepsLeftNonnegative(env, run[j]);
      assert false;
    }
  }

  /** So an activation that sets the flag past the clear is in the loop's snapshot, and on its way to the daemon,
      after no more of the loop's steps than that. */
  lemma ActivationReachesSnapshot(env: Env, run: seq<World>, steps: seq<Step>, i: nat, j: nat, a: nat)
    returns (m: nat)
    requires ValidSetup(env.setup) && IsRun(env, run, steps) && i <= j < |run|
    requires PastClear(run[i].phase) && a < |run[i].log| && HasStored(run[i].log[a])
    requires run[i].clearAt < run[i].log[a].storedAt
    requires LoopSteps(steps, i, j) > 6 + |run[j].ops|
    ensures i <= m < j && (steps[m].Stop? || (steps[m].Snapshot? && a < run[m + 1].version))
  {
    hide Enabled, After, LoopSteps;
    RunKeepsInv(env, run, steps, i);
    assert SetSinceClear(run[i]);
    FlagBringsSnapshot(env, run, steps, i, j);
    var k :| i <= k < j && (steps[k].Snapshot? || steps[k].Stop?);
    m := k;
    if steps[m].Snapshot? {
      NextSnapshotHoldsAll(env, run, steps, i, m, a);
    }
  }

  // ----- from the snapshot to the daemon -----

  predicate RequestFails(step: Step) {
    step.FetchFail? || step.ApplyFail?
  }

  /** How many loop steps a pass has behind it. */
  function PassSteps(phase: LoopPhase): int {
    match phase
    case Clearing => 0
    case Fetching => 1
    case Applying(k) => 2 + k
    case _ => -1
  }

  lemma PassStepCounts(env: Env, w: World, step: Step)
    requires ListsKnown(env.setup) && Enabled(w, step) && !RequestFails(step) && !step.PassDone?
    requires PassSteps(w.phase) >= 0
    ensures var w' := After(env, w, step);
            && PassSteps(w'.phase) == PassSteps(w.phase) + (if LoopStep(step) then 1 else 0)
            && w'.version == w.version
  {
    hide PlanOps, ApplyOp, DesiredFrom, Lookup;
  }

  /** Until its end, a pass without a failed request counts its own steps. */
  lemma {:induction false} PassUnderWay(env: Env, run: seq<World>, steps: seq<Step>, i: nat, j: nat)
    requires ListsKnown(env.setup) && Follows(env, run, steps) && i <= j < |run| && run[i].phase == Clearing
    requires forall m :: i <= m < j ==> !RequestFails(steps[m]) && !steps[m].PassDone?
    ensures PassSteps(run[j].phase) == LoopSteps(steps, i, j) && run[j].version == run[i].version
    decreases j - i
  {
    hide After, Enabled, PassSteps, RequestFails;
    if i < j {
      PassUnderWay(env, run, steps, i, j - 1);
      PassStepCounts(env, run[j - 1], steps[j - 1]);
    } else {
      assert PassSteps(Clearing) == 0 by {
        ClearingIsFirst();
      }
    }
  }

  lemma ClearingIsFirst()
    ensures PassSteps(Clearing) == 0
  {
  }

  /** A pass none of whose requests fails ends within two steps of the loop and one for each request, with every
      slot of the daemon as its snapshot wants it. */
  lemma PassReachesDaemon(env: Env, run: seq<World>, steps: seq<Step>, i: nat, j: nat) returns (m: nat)
    requires ValidSetup(env.setup) && IsRun(env, run, steps) && i <= j < |run| && run[i].phase == Clearing
    requires forall m :: i <= m < j ==> !RequestFails(steps[m])
    requires LoopSteps(steps, i, j) > 2 + |run[j].ops|
    ensures i <= m < j && steps[m].PassDone? && run[m + 1].version == run[i].version <= |run[m + 1].log|
    ensures Agrees(env, run[m + 1], run[m + 1].daemon)
  {
    hide Agrees, After, Enabled, RequestFails, LoopSteps;
    if forall m :: i <= m < j ==> !steps[m].PassDone? {
      PassUnderWay(env, run, steps, i, j);
      RunKeepsInv(env, run, steps, j);
      StepsWithinPlan(env, run[j]);
      assert false;
    }
    m := i;
    while !steps[m].PassDone?
      invariant i <= m < j && forall n :: i <= n < m ==> !steps[n].PassDone?
      invariant exists n :: m <= n < j && steps[n].PassDone?
      decreases j - m
    {
      m := m + 1;
    }
    PassUnderWay(env, run, steps, i, m);
    PassEnds(env, run[m]);
    SyncedAgrees(env, run, steps, m + 1);
  }

  lemma StepsWithinPlan(env: Env, w: World)
    requires ListsKnown(env.setup) && Inv(env, w) && PassSteps(w.phase) >= 0
    ensures PassSteps(w.phase) <= 2 + |w.ops|
  {
    hide PlanOps, RunOps, DesiredFrom;
  }

  lemma PassEnds(env: Env, w: World)
    requires ListsKnown(env.setup) && Enabled(w, PassDone)
    ensures After(env, w, PassDone).synced && After(env, w, PassDone).version == w.version
  {
  }

  /** The whole way: an activation that sets the flag past the clear is on the daemon, along with all that was
      written before the snapshot, after a bounded number of the loop's own steps, unless a request fails or the
      bridge is shut down. */
  lemma ActivationReachesDaemon(env: Env, run: seq<World>, steps: seq<Step>, i: nat, j: nat, l: nat, a: nat)
    returns (m: nat)
    requires ValidSetup(env.setup) && IsRun(env, run, steps) && i <= j <= l < |run|
    requires PastClear(run[i].phase) && a < |run[i].log| && HasStored(run[i].log[a])
    requires run[i].clearAt < run[i].log[a].storedAt
    requires forall n :: i <= n < l ==> !RequestFails(steps[n]) && !steps[n].Stop?
    requires LoopSteps(steps, i, j) > 6 + |run[j].ops| && LoopSteps(steps, j, l) > 2 + |run[l].ops|
    ensures i <= m < l && steps[m].PassDone? && a < run[m + 1].version <= |run[m + 1].log|
    ensures Agrees(env, run[m + 1], run[m + 1].daemon)
  {
    hide Agrees, After, Enabled, LoopSteps, PastClear, HasStored;
    var n := ActivationReachesSnapshot(env, run, steps, i, j, a);
    SnapshotClears(env, run[n]);
    LoopStepsGrow(steps, n + 1, j, l);
    m := PassReachesDaemon(env, run, steps, n + 1, l);
  }

  lemma SnapshotClears(env: Env, w: World)
    requires ListsKnown(env.setup) && Enabled(w, Snapshot)
    ensures After(env, w, Snapshot).phase == Clearing
  {
  }

  lemma {:induction false} LoopStepsGrow(steps: seq<Step>, i: nat, j: nat, l: nat)
    requires i <= j <= l <= |steps|
    ensures LoopSteps(steps, j, l) <= LoopSteps(steps, i, l)
    decreases l - j
  {
    if j < l {
      LoopStepsGrow(steps, i, j, l - 1);
    }
  }

  // ----- safety towards streams the bridge does not own -----

  /** A stream that is unmanaged, or marked by another namespace. */
  ghost predicate Protected(ns: string, held: Option<DaemonStream>) {
    held.Some? && !OwnNamespace(ns, held.value)
  }

  lemma OpSparesProtected(env: Env, w: World, slot: Slot)
    requires ValidSetup(env.setup) && Inv(env, w) && w.phase.Applying? && w.phase.k < |w.ops|
    requires Protected(env.setup.ns, Lookup(w.daemon, slot))
    ensures w.ops[w.phase.k].slot != slot
  {
    var desired := DesiredFrom(env.setup, ActiveAt(w, w.version));
    DesiredIsUnique(env.setup, ActiveAt(w, w.version));
    PlanMeasure.EachOpMeetsItsSlot(env.store, env.setup.ns, desired, w.planned, w.ops, w.phase.k);
  }

  lemma StepSparesProtected(env: Env, w: World, step: Step, slot: Slot)
    requires ValidSetup(env.setup) && Inv(env, w) && Enabled(w, step) && !step.Outside?
    requires Protected(env.setup.ns, Lookup(w.daemon, slot))
    ensures Lookup(After(env, w, step).daemon, slot) == Lookup(w.daemon, slot)
  {
    if step.ApplyOk? || step.ApplyFail? {
      OpSparesProtected(env, w, slot);
    }
  }

  lemma RunStepSparesProtected(env: Env, run: seq<World>, steps: seq<Step>, slot: Slot, m: nat)
    requires ValidSetup(env.setup) && IsRun(env, run, steps) && m < |steps|
    requires Protected(env.setup.ns, Lookup(run[m].daemon, slot))
    requires steps[m].Outside? ==> Lookup(run[m + 1].daemon, slot) == Lookup(run[m].daemon, slot)
    ensures Lookup(run[m + 1].daemon, slot) == Lookup(run[m].daemon, slot)
  {
    RunKeepsInv(env, run, steps, m);
    if !steps[m].Outside? {
      StepSparesProtected(env, run[m], steps[m], slot);
    }
  }

  /** Fail closed over whole runs: a stream the bridge does not own keeps its content, through every pass,
      failed or not, for as long as nobody else changes it. */
  lemma {:induction false} RunSparesProtected(env: Env, run: seq<World>, steps: seq<Step>, slot: Slot, i: nat, j: nat)
    requires ValidSetup(env.setup) && IsRun(env, run, steps) && i <= j < |run|
    requires Protected(env.setup.ns, Lookup(run[i].daemon, slot))
    requires forall m :: i <= m < j && steps[m].Outside? ==>
               Lookup(run[m + 1].daemon, slot) == Lookup(run[m].daemon, slot)
    ensures Lookup(run[j].daemon, slot) == Lookup(run[i].daemon, slot)
    decreases j - i
  {
    if i < j {
      RunSparesProtected(env, run, steps, slot, i, j - 1);
      RunStepSparesProtected(env, run, steps, slot, j - 1);
    }
  }

  // ----- what a sleeping loop has achieved -----

  lemma NothingMissed(env: Env, run: seq<World>, steps: seq<Step>, i: nat)
    requires ValidSetup(env.setup) && IsRun(env, run, steps) && i < |run|
    requires run[i].phase == Blocked && !run[i].dirty
    requires forall a: nat :: a < |run[i].log| ==> HasStored(run[i].log[a]) && !InWindow(run[i], run[i].log[a])
    ensures run[i].version == |run[i].log|
  {
    RunKeepsInv(env, run, steps, i);
    if run[i].version < |run[i].log| {
      MissedOnlyInWindow(env, run, steps, i, run[i].version);
    }
  }

  lemma SyncedAgrees(env: Env, run: seq<World>, steps: seq<Step>, i: nat)
    requires ValidSetup(env.setup) && IsRun(env, run, steps) && i < |run| && run[i].synced
    ensures run[i].version <= |run[i].log| && Agrees(env, run[i], run[i].daemon)
  {
    RunKeepsInv(env, run, steps, i);
  }

  /** A loop asleep after a complete pass, with every handler past the flag and none of them in the window, has
      brought every slot of the daemon to what the latest active connections want. Unless the daemon gives the
      bridge something to rewrite on sight, planning for them again yields no operation. */
  lemma AsleepMeansAgreed(env: Env, run: seq<World>, steps: seq<Step>, i: nat)
    requires ValidSetup(env.setup) && IsRun(env, run, steps) && i < |run|
    requires run[i].phase == Blocked && !run[i].dirty && run[i].synced
    requires forall a: nat :: a < |run[i].log| ==> HasStored(run[i].log[a]) && !InWindow(run[i], run[i].log[a])
    ensures var desired := DesiredFrom(env.setup, ActiveAt(run[i], |run[i].log|));
            && Convergence.Settled(env.store, env.setup.ns, desired, run[i].daemon)
            && (Convergence.NoneRewritten(env.store, env.setup.ns, desired) ==>
                  PlanOps(env.setup.ns, desired, run[i].daemon) == [])
  {
    hide IsRun, PlanOps, Convergence.Settled, Convergence.NoneRewritten;
    NothingMissed(env, run, steps, i);
    SyncedAgrees(env, run, steps, i);
    var desired := DesiredFrom(env.setup, ActiveAt(run[i], |run[i].log|));
    DesiredIsUnique(env.setup, ActiveAt(run[i], |run[i].log|));
    if Convergence.NoneRewritten(env.store, env.setup.ns, desired) {
      Convergence.QuietIffSettled(env.store, env.setup.ns, desired, run[i].daemon);
    }
  }
}
