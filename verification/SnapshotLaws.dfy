/** Every state the bridge brings about on a daemon that lists ids can be read back from its listing. */
module SnapshotLaws {
  import opened Wrappers
  import opened JsonValues
  import opened Ownership
  import opened DaemonStates
  import opened Snapshots
  import opened Reconcilers
  import Targets
  import opened Configs
  import opened DesiredState
  import opened RunLoop

  /** A daemon that adds the id of the slot to each payload that does not bring one. */
  ghost predicate AddsId(store: Storage) {
    forall slot, fields :: "id" !in fields ==> IdOf(store(slot, Object(fields))) == Some(slot.id)
  }

  function AddId(slot: Slot, payload: Json): Json {
    if payload.Object? && "id" !in payload.fields then Object(payload.fields["id" := Number(slot.id)]) else payload
  }

  /** There is such a daemon, and it keeps what it is given. */
  lemma SomeDaemonAddsId()
    ensures Faithful(AddId) && AddsId(AddId)
  {
  }

  /** A payload that leaves the id to the daemon. */
  predicate LeavesId(payload: Json) {
    payload.Object? && "id" !in payload.fields
  }

  lemma OpStaysCoherent(store: Storage, op: PlannedOp, st: DaemonState)
    requires AddsId(store) && Coherent(st) && (op.action != Remove ==> LeavesId(op.payload))
    ensures Coherent(ApplyOp(store, op, st))
  {
    if op.action != Remove {
      assert op.payload == Object(op.payload.fields);
      assert IdOf(store(op.slot, op.payload)) == Some(op.slot.id);
    }
  }

  lemma {:induction false} RunsStayCoherent(store: Storage, ops: seq<PlannedOp>, st: DaemonState)
    requires AddsId(store) && Coherent(st)
    requires forall op :: op in ops && op.action != Remove ==> LeavesId(op.payload)
    ensures Coherent(RunOps(store, ops, st))
  {
    hide Coherent, AddsId, ApplyOp;
    if ops != [] {
      var rest, last := ops[..|ops| - 1], ops[|ops| - 1];
      RunsStayCoherent(store, rest, st);
      assert last in ops;
      OpStaysCoherent(store, last, RunOps(store, rest, st));
    }
  }

  lemma SenderLeavesId(cfg: SenderConfig, ns: string, conn: Option<SenderActive>)
    requires DesiredSender(cfg, ns, conn).enabled
    ensures LeavesId(DesiredSender(cfg, ns, conn).payload)
  {
    hide ManagedName, IntArray;
  }

  lemma ReceiverLeavesId(cfg: ReceiverConfig, ns: string, conn: Option<ReceiverActive>)
    requires DesiredReceiver(cfg, ns, conn).enabled
    ensures LeavesId(DesiredReceiver(cfg, ns, conn).payload)
  {
    hide ManagedName, IntArray;
  }

  /** No payload of the bridge brings an id. */
  lemma PayloadsLeaveId(setup: Setup, conns: Connections, d: DesiredStream)
    requires ListsKnown(setup) && d in DesiredFrom(setup, conns) && d.enabled
    ensures LeavesId(d.payload)
  {
    hide DesiredSender, DesiredReceiver, LeavesId;
    var desired, n := DesiredFrom(setup, conns), |setup.senderIds|;
    var i :| 0 <= i < |desired| && desired[i] == d;
    if i < n {
      var k := setup.senderIds[i];
      SenderLeavesId(setup.registry.senders[k], setup.ns, Get(conns.senders, k));
    } else {
      var k := setup.receiverIds[i - n];
      ReceiverLeavesId(setup.registry.receivers[k], setup.ns, Get(conns.receivers, k));
    }
  }

  lemma PlannedPayloadsLeaveId(setup: Setup, conns: Connections, st: DaemonState, op: PlannedOp)
    requires ValidSetup(setup) && op in PlanOps(setup.ns, DesiredFrom(setup, conns), st) && op.action != Remove
    ensures LeavesId(op.payload)
  {
    hide LeavesId, PlanOps, DesiredFrom, Targets.UniqueSlots;
    var desired := DesiredFrom(setup, conns);
    DesiredIsUnique(setup, conns);
    Targets.PlannedIsWanted(setup.ns, desired, st, op);
    var d :| d in desired && d.enabled && d.slot == op.slot && d.payload == op.payload;
    PayloadsLeaveId(setup, conns, d);
  }

  /** Whatever prefix of a pass takes effect, the state it leaves can be read back from its listing, in whatever
      order that comes. */
  lemma PassesReadBack(store: Storage, setup: Setup, conns: Connections, st: DaemonState, k: nat)
    requires AddsId(store) && Coherent(st) && ValidSetup(setup)
    requires k <= |PlanOps(setup.ns, DesiredFrom(setup, conns), st)|
    ensures var after := RunOps(store, PlanOps(setup.ns, DesiredFrom(setup, conns), st)[..k], st);
            Coherent(after) && ReadsBack(after)
  {
    hide PlanOps, Coherent, AddsId, LeavesId;
    var ops := PlanOps(setup.ns, DesiredFrom(setup, conns), st);
    forall op | op in ops[..k] && op.action != Remove
      ensures LeavesId(op.payload)
    {
      PlannedPayloadsLeaveId(setup, conns, st, op);
    }
    RunsStayCoherent(store, ops[..k], st);
    SnapshotIsFaithful(RunOps(store, ops[..k], st));
  }

  // ----- whole runs of the loop -----

  lemma StepStaysCoherent(env: Env, w: World, step: Step)
    requires ValidSetup(env.setup) && Inv(env, w) && Enabled(w, step)
    requires AddsId(env.store) && Coherent(w.daemon) && (step.Outside? ==> Coherent(step.daemon))
    ensures Coherent(After(env, w, step).daemon)
  {
    hide Coherent, AddsId, LeavesId, ApplyOp, DesiredFrom, Lookup;
    hide MutexInv, SnapInv, TimeInv, FlagInv, WakeInv, SyncInv;
    if step.ApplyOk? || step.ApplyFail? {
      var op := w.ops[w.phase.k];
      assert w.version <= |w.log| && op in PlanNow(env, w, w.planned) by {
        RunningPlan(env, w);
      }
      if op.action != Remove {
        PlannedPayloadsLeaveId(env.setup, ActiveAt(w, w.version), w.planned, op);
      }
      OpStaysCoherent(env.store, op, w.daemon);
    }
  }

  lemma RunningPlan(env: Env, w: World)
    requires ValidSetup(env.setup) && Inv(env, w) && w.phase.Applying? && w.phase.k < |w.ops|
    ensures w.version <= |w.log| && w.ops == PlanNow(env, w, w.planned)
  {
  }

  /** In every run of the loop in which the rest of the world, too, leaves the daemon in states it can list, each
      snapshot of the daemon is what the daemon holds. */
  lemma {:induction false} RunsReadBack(env: Env, run: seq<World>, steps: seq<Step>, i: nat)
    requires ValidSetup(env.setup) && IsRun(env, run, steps) && i < |run|
    requires AddsId(env.store) && Coherent(run[0].daemon)
    requires forall m :: 0 <= m < |steps| && steps[m].Outside? ==> Coherent(steps[m].daemon)
    ensures Coherent(run[i].daemon) && ReadsBack(run[i].daemon)
  {
    hide Coherent, AddsId, Inv, ReadsBack, Enabled, After;
    if i > 0 {
      RunsReadBack(env, run, steps, i - 1);
      RunKeepsInv(env, run, steps, i - 1);
      StepStaysCoherent(env, run[i - 1], steps[i - 1]);
    }
    SnapshotIsFaithful(run[i].daemon);
  }
}
