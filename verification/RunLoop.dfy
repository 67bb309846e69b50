/** The reconcile loop and the activation handlers that wake it, as small interleaved steps. */
module RunLoop {
  import Targets
  import opened DaemonStates
  import opened Reconcilers
  import opened Convergence
  import opened DesiredState

  /** How far the handler of one activation has come. Holding and Stored hold the mutex; the flag is set on the
      way to Stored; from Released on only the notify is left. */
  datatype HandlerPhase = Pending | Holding | Stored | Released | Done

  /** An activation: the active connections it leaves, its handler, and when it was written and its handler set
      the flag. */
  datatype Activation = Activation(conns: Connections, phase: HandlerPhase, writtenAt: nat, storedAt: nat)

  /** Where the loop is. Blocked has released the mutex; Waking and TimedOut are about to take it again. */
  datatype LoopPhase =
    | Snapshotting | Clearing | Fetching | Applying(k: nat)
    | Locking | Checking | Blocked | Waking | TimedOut | Stopped

  datatype Holder = Free | Loop | Handler(a: nat)

  /** The clock, the *At times and version are history: no step reads them to decide anything. */
  datatype World = World(
    initial: Connections, log: seq<Activation>, shutdown: bool,
    dirty: bool, mutex: Holder, phase: LoopPhase,
    daemon: DaemonState, planned: DaemonState, ops: seq<PlannedOp>,
    clock: nat, snapAt: nat, clearAt: nat, version: nat, synced: bool)

  datatype Env = Env(store: Storage, setup: Setup)

  datatype Step =
    // an activation is written to the model, and the four steps of its handler
    | Activate(conns: Connections)
    | HandlerLock(a: nat) | HandlerStore(a: nat) | HandlerUnlock(a: nat) | HandlerNotify(a: nat)
    // the rest of the world
    | Shutdown | Outside(daemon: DaemonState)
    // the loop
    | Snapshot | Stop | Clear | FetchOk | FetchFail
    | ApplyOk | ApplyFail(tookEffect: bool) | PassDone
    | Lock | Check | Timeout | SpuriousWake | Relock | Return

  predicate HasStored(act: Activation) {
    act.phase.Stored? || act.phase.Released? || act.phase.Done?
  }

  function ActiveAt(w: World, version: nat): Connections
    requires version <= |w.log|
  {
    if version == 0 then w.initial else w.log[version - 1].conns
  }

  predicate Begins(w: World) {
    && w.log == [] && !w.shutdown && w.dirty && w.mutex == Free && w.phase == Snapshotting
    && w.clock == 1 && w.snapAt == 0 && w.clearAt == 0 && w.version == 0 && !w.synced
  }

  predicate HandlerAt(w: World, a: nat, phase: HandlerPhase) {
    a < |w.log| && w.log[a].phase == phase
  }

  predicate Enabled(w: World, step: Step) {
    match step
    case Activate(_) => true
    case HandlerLock(a) => HandlerAt(w, a, Pending) && w.mutex == Free
    case HandlerStore(a) => HandlerAt(w, a, Holding)
    case HandlerUnlock(a) => HandlerAt(w, a, Stored)
    case HandlerNotify(a) => HandlerAt(w, a, Released)
    case Shutdown => true
    // Assumed, for the code has no compare-and-set: nobody else writes between get_state and the last request.
    case Outside(_) => !w.phase.Applying?
    case Snapshot => w.phase == Snapshotting && !w.shutdown
    case Stop => w.phase == Snapshotting && w.shutdown
    case Clear => w.phase == Clearing
    case FetchOk => w.phase == Fetching && w.version <= |w.log|
    case FetchFail => w.phase == Fetching
    case ApplyOk => && w.phase.Applying? && w.phase.k < |w.ops|
                    && (w.ops[w.phase.k].action == Remove ==> Lookup(w.daemon, w.ops[w.phase.k].slot).Some?)
    case ApplyFail(_) => w.phase.Applying? && w.phase.k < |w.ops|
    case PassDone => w.phase.Applying? && w.phase.k == |w.ops|
    case Lock => w.phase == Locking && w.mutex == Free
    case Check => w.phase == Checking
    case Timeout => w.phase == Blocked
    case SpuriousWake => w.phase == Blocked
    case Relock => w.phase == Waking && w.mutex == Free
    case Return => w.phase == TimedOut && w.mutex == Free
  }

  function SetHandler(w: World, a: nat, phase: HandlerPhase): World
    requires a < |w.log|
  {
    w.(log := w.log[a := w.log[a].(phase := phase)])
  }

  /** The state after a step, the clock aside. */
  ghost function Effected(env: Env, w: World, step: Step): World
    requires Enabled(w, step) && ListsKnown(env.setup)
  {
    match step
    case Activate(conns) => w.(log := w.log + [Activation(conns, Pending, w.clock, 0)])
    case HandlerLock(a) => SetHandler(w, a, Holding).(mutex := Handler(a))
    case HandlerStore(a) =>
      w.(log := w.log[a := w.log[a].(phase := Stored, storedAt := w.clock)], dirty := true)
    case HandlerUnlock(a) => SetHandler(w, a, Released).(mutex := Free)
    case HandlerNotify(a) => SetHandler(w, a, Done).(phase := if w.phase == Blocked then Waking else w.phase)
    case Shutdown => w.(shutdown := true)
    case Outside(daemon) => w.(daemon := daemon, synced := false)
    case Snapshot => w.(phase := Clearing, version := |w.log|, snapAt := w.clock, synced := false)
    case Stop => w.(phase := Stopped)
    case Clear => w.(phase := Fetching, dirty := false, clearAt := w.clock)
    case FetchOk =>
      w.(phase := Applying(0), planned := w.daemon,
         ops := PlanOps(env.setup.ns, DesiredFrom(env.setup, ActiveAt(w, w.version)), w.daemon))
    case FetchFail => w.(phase := Locking)
    case ApplyOk =>
      w.(phase := Applying(w.phase.k + 1), daemon := ApplyOp(env.store, w.ops[w.phase.k], w.daemon))
    case ApplyFail(tookEffect) =>
      w.(phase := Locking,
         daemon := if tookEffect then ApplyOp(env.store, w.ops[w.phase.k], w.daemon) else w.daemon)
    case PassDone => w.(phase := Locking, synced := true)
    case Lock => w.(phase := Checking, mutex := Loop)
    case Check => w.(phase := if w.dirty then Snapshotting else Blocked, mutex := Free)
    case Timeout => w.(phase := TimedOut)
    case SpuriousWake => w.(phase := Waking)
    case Relock => w.(phase := Checking, mutex := Loop)
    case Return => w.(phase := Snapshotting)
  }

  ghost function After(env: Env, w: World, step: Step): World
    requires Enabled(w, step) && ListsKnown(env.setup)
  {
    Effected(env, w, step).(clock := w.clock + 1)
  }

  // ----- the invariant -----

  ghost predicate MutexInv(w: World) {
    && (w.mutex == Loop <==> w.phase == Checking)
    && (w.mutex.Handler? ==> w.mutex.a < |w.log|)
    && (forall a: nat :: a < |w.log| ==>
          (w.log[a].phase == Holding || w.log[a].phase == Stored <==> w.mutex == Handler(a)))
  }

  predicate PastClear(phase: LoopPhase) {
    !phase.Snapshotting? && !phase.Clearing? && !phase.Stopped?
  }

  /** The last snapshot holds exactly the activations written before it. */
  ghost predicate SnapInv(w: World) {
    && w.version <= |w.log| && w.snapAt < w.clock
    && (forall a: nat :: a < |w.log| ==> 0 < w.log[a].writtenAt < w.clock && w.log[a].writtenAt != w.snapAt)
    && (forall a: nat :: a < |w.log| ==> (a < w.version <==> w.log[a].writtenAt < w.snapAt))
  }

  ghost predicate TimeInv(w: World) {
    && w.snapAt < w.clock && w.clearAt < w.clock
    && (PastClear(w.phase) ==> w.snapAt < w.clearAt)
    && (forall a: nat :: a < |w.log| ==> w.log[a].writtenAt < w.clock)
    && (forall a: nat :: a < |w.log| && HasStored(w.log[a]) ==>
          w.log[a].writtenAt < w.log[a].storedAt < w.clock && w.log[a].storedAt != w.clearAt)
  }

  /** A handler has set the flag since the loop last cleared it. */
  ghost predicate SetSinceClear(w: World) {
    exists a: nat :: a < |w.log| && HasStored(w.log[a]) && w.clearAt < w.log[a].storedAt
  }

  ghost predicate FlagInv(w: World) {
    w.dirty <==> w.clearAt == 0 || SetSinceClear(w)
  }

  ghost predicate NotifyPending(w: World) {
    exists a: nat :: a < |w.log| && (w.log[a].phase == Stored || w.log[a].phase == Released)
  }

  ghost predicate WakeInv(w: World) {
    w.phase == Blocked && w.dirty ==> NotifyPending(w)
  }

  ghost function PlanNow(env: Env, w: World, st: DaemonState): seq<PlannedOp>
    requires ListsKnown(env.setup) && w.version <= |w.log|
  {
    PlanOps(env.setup.ns, DesiredFrom(env.setup, ActiveAt(w, w.version)), st)
  }

  /** Mid-pass, the daemon is where the plan's requests so far have brought it. */
  ghost predicate PassInv(env: Env, w: World)
    requires ListsKnown(env.setup) && w.version <= |w.log|
  {
    w.phase.Applying? ==>
      && w.phase.k <= |w.ops| && w.ops == PlanNow(env, w, w.planned)
      && w.daemon == RunOps(env.store, w.ops[..w.phase.k], w.planned)
  }

  /** Every slot of the daemon is as the last snapshot wants it. */
  ghost predicate Agrees(env: Env, w: World, st: DaemonState)
    requires ListsKnown(env.setup) && w.version <= |w.log|
  {
    Settled(env.store, env.setup.ns, DesiredFrom(env.setup, ActiveAt(w, w.version)), st)
  }

  /** While synced, the daemon agrees with the last snapshot. */
  ghost predicate SyncInv(env: Env, w: World)
    requires ListsKnown(env.setup) && w.version <= |w.log|
  {
    w.synced ==>
      && !w.phase.Clearing? && !w.phase.Fetching? && !w.phase.Applying?
      && Agrees(env, w, w.daemon)
  }

  ghost predicate Inv(env: Env, w: World)
    requires ListsKnown(env.setup)
  {
    MutexInv(w) && SnapInv(w) && TimeInv(w) && FlagInv(w) && WakeInv(w) && PassInv(env, w) && SyncInv(env, w)
  }

  lemma BeginsHolds(env: Env, w: World)
    requires ValidSetup(env.setup) && Begins(w)
    ensures Inv(env, w)
  {
  }

  lemma MutexStep(env: Env, w: World, step: Step)
    requires ListsKnown(env.setup) && MutexInv(w) && Enabled(w, step)
    ensures MutexInv(After(env, w, step))
  {
    hide PlanOps, ApplyOp, DesiredFrom, Lookup;
  }

  lemma SnapStep(env: Env, w: World, step: Step)
    requires ListsKnown(env.setup) && SnapInv(w) && Enabled(w, step)
    ensures SnapInv(After(env, w, step))
  {
    hide PlanOps, ApplyOp, DesiredFrom, Lookup;
  }

  lemma TimeStep(env: Env, w: World, step: Step)
    requires ListsKnown(env.setup) && TimeInv(w) && Enabled(w, step)
    ensures TimeInv(After(env, w, step))
  {
    hide PlanOps, ApplyOp, DesiredFrom, Lookup;
  }

  lemma StoreStaysSince(env: Env, w: World, step: Step)
    requires ListsKnown(env.setup) && Enabled(w, step) && !step.Clear? && SetSinceClear(w)
    ensures SetSinceClear(After(env, w, step))
  {
    hide PlanOps, ApplyOp, DesiredFrom, Lookup;
    var a: nat :| a < |w.log| && HasStored(w.log[a]) && w.clearAt < w.log[a].storedAt;
    assert HasStored(After(env, w, step).log[a]);
  }

  lemma NoStoreNoChange(env: Env, w: World, step: Step)
    requires ListsKnown(env.setup) && Enabled(w, step) && !step.Clear? && !step.HandlerStore?
    requires SetSinceClear(After(env, w, step))
    ensures SetSinceClear(w)
  {
    hide PlanOps, ApplyOp, DesiredFrom, Lookup;
    var w' := After(env, w, step);
    var a: nat :| a < |w'.log| && HasStored(w'.log[a]) && w'.clearAt < w'.log[a].storedAt;
    assert a < |w.log| && HasStored(w.log[a]) && w.log[a].storedAt == w'.log[a].storedAt;
  }

  lemma FlagStep(env: Env, w: World, step: Step)
    requires ListsKnown(env.setup) && TimeInv(w) && FlagInv(w) && Enabled(w, step)
    ensures FlagInv(After(env, w, step))
  {
    hide PlanOps, ApplyOp, DesiredFrom, Lookup;
    var w' := After(env, w, step);
    if step.HandlerStore? {
      assert HasStored(w'.log[step.a]) && w'.clearAt < w'.log[step.a].storedAt;
    } else if !step.Clear? {
      if SetSinceClear(w) {
        StoreStaysSince(env, w, step);
      }
      if SetSinceClear(w') {
        NoStoreNoChange(env, w, step);
      }
    }
  }

  lemma WakeStep(env: Env, w: World, step: Step)
    requires ListsKnown(env.setup) && WakeInv(w) && Enabled(w, step)
    ensures WakeInv(After(env, w, step))
  {
    hide PlanOps, ApplyOp, DesiredFrom, Lookup;
    var w' := After(env, w, step);
    if w'.phase == Blocked && w'.dirty {
      if step.HandlerStore? {
        assert w'.log[step.a].phase == Stored;
      } else {
        var a: nat :| a < |w.log| && (w.log[a].phase == Stored || w.log[a].phase == Released);
        assert w'.log[a].phase == Stored || w'.log[a].phase == Released;
      }
    }
  }

  /** Only a snapshot changes the connections the loop works from. */
  lemma SameConnections(env: Env, w: World, step: Step)
    requires ListsKnown(env.setup) && w.version <= |w.log| && Enabled(w, step) && !step.Snapshot?
    ensures var w' := After(env, w, step);
            w'.version <= |w'.log| && ActiveAt(w', w'.version) == ActiveAt(w, w.version)
  {
    hide After, Enabled;
    SameVersion(env, w, step);
    if w.version > 0 {
      SameEntry(env, w, step, w.version - 1);
    }
  }

  lemma SameVersion(env: Env, w: World, step: Step)
    requires ListsKnown(env.setup) && Enabled(w, step) && !step.Snapshot?
    ensures After(env, w, step).version == w.version && After(env, w, step).initial == w.initial
    ensures |w.log| <= |After(env, w, step).log|
  {
    hide PlanOps, ApplyOp, DesiredFrom, Lookup, ActiveAt;
  }

  /** No step loses or changes an activation. */
  lemma SameEntry(env: Env, w: World, step: Step, a: nat)
    requires ListsKnown(env.setup) && Enabled(w, step) && a < |w.log|
    ensures var w' := After(env, w, step);
            a < |w'.log| && w'.log[a].conns == w.log[a].conns && w'.log[a].writtenAt == w.log[a].writtenAt
  {
    hide PlanOps, ApplyOp, DesiredFrom, Lookup, ActiveAt;
  }

  lemma SamePlan(env: Env, w: World, step: Step, st: DaemonState)
    requires ListsKnown(env.setup) && w.version <= |w.log| && Enabled(w, step) && !step.Snapshot?
    ensures var w' := After(env, w, step);
            w'.version <= |w'.log| && PlanNow(env, w', st) == PlanNow(env, w, st)
  {
    hide PlanOps, DesiredFrom, After, Enabled, ActiveAt;
    SameConnections(env, w, step);
  }

  lemma SameAgreement(env: Env, w: World, step: Step, st: DaemonState)
    requires ListsKnown(env.setup) && w.version <= |w.log| && Enabled(w, step) && !step.Snapshot?
    ensures var w' := After(env, w, step);
            w'.version <= |w'.log| && Agrees(env, w', st) == Agrees(env, w, st)
  {
    hide DesiredFrom, After, Enabled, ActiveAt, Settled;
    SameConnections(env, w, step);
  }

  lemma PassDoneAgrees(env: Env, w: World)
    requires ValidSetup(env.setup) && w.version <= |w.log| && PassInv(env, w) && Enabled(w, PassDone)
    ensures Agrees(env, w, w.daemon)
  {
    hide Settled, PlanOps, RunOps, DesiredFrom, Targets.UniqueSlots;
    assert w.ops[..|w.ops|] == w.ops;
    DesiredIsUnique(env.setup, ActiveAt(w, w.version));
    PassSettles(env.store, env.setup.ns, DesiredFrom(env.setup, ActiveAt(w, w.version)), w.planned);
  }

  lemma PassBegins(env: Env, w: World)
    requires ListsKnown(env.setup) && SnapInv(w) && Enabled(w, FetchOk)
    ensures SnapInv(After(env, w, FetchOk)) && PassInv(env, After(env, w, FetchOk))
  {
    hide PlanOps, ApplyOp, DesiredFrom;
    SnapStep(env, w, FetchOk);
    SamePlan(env, w, FetchOk, w.daemon);
    assert After(env, w, FetchOk).ops[..0] == [];
  }

  lemma PassAdvances(env: Env, w: World)
    requires ListsKnown(env.setup) && SnapInv(w) && PassInv(env, w) && Enabled(w, ApplyOk)
    ensures SnapInv(After(env, w, ApplyOk)) && PassInv(env, After(env, w, ApplyOk))
  {
    hide PlanOps, ApplyOp, DesiredFrom, RunOps;
    SnapStep(env, w, ApplyOk);
    SamePlan(env, w, ApplyOk, w.planned);
    RunOneMore(env.store, w.ops, w.phase.k, w.planned);
  }

  /** No other step touches a pass in progress. */
  lemma PassUndisturbed(env: Env, w: World, step: Step)
    requires ListsKnown(env.setup) && Enabled(w, step) && !step.FetchOk? && !step.ApplyOk?
    requires After(env, w, step).phase.Applying?
    ensures var w' := After(env, w, step);
            && !step.Snapshot? && w'.phase == w.phase && w'.ops == w.ops
            && w'.planned == w.planned && w'.daemon == w.daemon
  {
    hide PlanOps, ApplyOp, DesiredFrom, Lookup;
  }

  lemma PassStep(env: Env, w: World, step: Step)
    requires ListsKnown(env.setup) && SnapInv(w) && PassInv(env, w) && Enabled(w, step)
    ensures SnapInv(After(env, w, step)) && PassInv(env, After(env, w, step))
  {
    hide After, Enabled, RunOps, PlanNow;
    if step.FetchOk? {
      PassBegins(env, w);
    } else if step.ApplyOk? {
      PassAdvances(env, w);
    } else {
      SnapStep(env, w, step);
      if After(env, w, step).phase.Applying? {
        PassUndisturbed(env, w, step);
        SamePlan(env, w, step, w.planned);
      }
    }
  }

  /** No other step than a pass's end makes the loop synced, and none touches the daemon while it is. */
  lemma SyncUndisturbed(env: Env, w: World, step: Step)
    requires ListsKnown(env.setup) && Enabled(w, step) && !step.PassDone? && After(env, w, step).synced
    requires w.synced ==> !w.phase.Clearing? && !w.phase.Fetching? && !w.phase.Applying?
    ensures var w' := After(env, w, step);
            && w.synced && !step.Snapshot? && w'.daemon == w.daemon
            && !w'.phase.Clearing? && !w'.phase.Fetching? && !w'.phase.Applying?
  {
    hide PlanOps, ApplyOp, DesiredFrom, Lookup, ActiveAt;
  }

  lemma SyncStep(env: Env, w: World, step: Step)
    requires ValidSetup(env.setup) && SnapInv(w) && PassInv(env, w) && SyncInv(env, w) && Enabled(w, step)
    ensures SnapInv(After(env, w, step)) && SyncInv(env, After(env, w, step))
  {
    hide After, Enabled, Agrees, PassInv;
    SnapStep(env, w, step);
    if step.PassDone? {
      PassDoneAgrees(env, w);
      SameAgreement(env, w, step, w.daemon);
      PassDoneEnds(env, w);
    } else if After(env, w, step).synced {
      SyncUndisturbed(env, w, step);
      SameAgreement(env, w, step, w.daemon);
    }
  }

  lemma PassDoneEnds(env: Env, w: World)
    requires ListsKnown(env.setup) && Enabled(w, PassDone)
    ensures After(env, w, PassDone).phase == Locking && After(env, w, PassDone).daemon == w.daemon
    ensures After(env, w, PassDone).synced
  {
  }

  lemma InvStep(env: Env, w: World, step: Step)
    requires ValidSetup(env.setup) && Inv(env, w) && Enabled(w, step)
    ensures Inv(env, After(env, w, step))
  {
    MutexStep(env, w, step);
    SnapStep(env, w, step);
    TimeStep(env, w, step);
    FlagStep(env, w, step);
    WakeStep(env, w, step);
    PassStep(env, w, step);
    SyncStep(env, w, step);
  }

  // ----- runs -----

  /** Any interleaving of the loop, the handlers and the rest of the world. */
  ghost predicate Follows(env: Env, run: seq<World>, steps: seq<Step>)
    requires ListsKnown(env.setup)
  {
    && |run| == |steps| + 1
    && forall i :: 0 <= i < |steps| ==> Enabled(run[i], steps[i]) && run[i + 1] == After(env, run[i], steps[i])
  }

  ghost predicate IsRun(env: Env, run: seq<World>, steps: seq<Step>)
    requires ListsKnown(env.setup)
  {
    Follows(env, run, steps) && Begins(run[0])
  }

  lemma {:induction false} RunKeepsInv(env: Env, run: seq<World>, steps: seq<Step>, i: nat)
    requires ValidSetup(env.setup) && IsRun(env, run, steps) && i < |run|
    ensures Inv(env, run[i])
  {
    if i == 0 {
      BeginsHolds(env, run[0]);
    } else {
      RunKeepsInv(env, run, steps, i - 1);
      InvStep(env, run[i - 1], steps[i - 1]);
    }
  }
}
