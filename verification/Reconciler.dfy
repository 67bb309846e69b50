/** The ownership-safe reconciler: it plans the requests that bring the daemon to the desired streams, and
    sends them. */
module Reconcilers {
  import IntSets
  import opened Wrappers
  import opened JsonValues
  import opened Ownership
  import opened DaemonStates
  import Daemons

  /** A stream the bridge wants in a slot (enabled), or wants not to own there. */
  datatype DesiredStream = DesiredStream(slot: Slot, nmosId: string, enabled: bool, name: string, payload: Json)

  datatype Action = Create | Update | Remove

  // The payload of a Remove is Null.
  datatype PlannedOp = PlannedOp(action: Action, slot: Slot, payload: Json)

  /** Why an enabled stream was not written: its slot holds a stream the bridge does not own. */
  datatype Conflict = Unmanaged(slot: Slot) | Foreign(slot: Slot, owner: string)

  datatype Report = Report(ops: seq<PlannedOp>, errors: seq<Conflict>)

  // ----- ownership of a listed stream -----

  predicate OwnNamespace(ns: string, stream: DaemonStream) {
    var ownership := ParseManagedName(stream.name);
    ownership.Some? && ownership.value.ns == ns
  }

  /** Owned, and filed on the side its marker names. */
  predicate OwnedOn(ns: string, side: Side, stream: DaemonStream) {
    OwnNamespace(ns, stream) && ParseManagedName(stream.name).value.side == side
  }

  // ----- the plan, one desired stream and one listed stream at a time -----

  function RemoveOp(slot: Slot): PlannedOp {
    PlannedOp(Remove, slot, Null)
  }

  ghost function DesiredOp(ns: string, d: DesiredStream, held: Option<DaemonStream>): Option<PlannedOp> {
    if !d.enabled then
      if held.Some? && OwnedOn(ns, d.slot.side, held.value)
         && ParseManagedName(held.value.name).value.nmosId == d.nmosId
      then Some(RemoveOp(d.slot)) else None
    else if held.None? then Some(PlannedOp(Create, d.slot, d.payload))
    else if OwnNamespace(ns, held.value) && Drifted(held.value.payload, d.payload)
    then Some(PlannedOp(Update, d.slot, d.payload))
    else None
  }

  ghost function DesiredConflict(ns: string, d: DesiredStream, held: Option<DaemonStream>): Option<Conflict> {
    if !d.enabled || held.None? || OwnNamespace(ns, held.value) then None
    else match ParseManagedName(held.value.name)
      case None => Some(Unmanaged(d.slot))
      case Some(ownership) => Some(Foreign(d.slot, ownership.ns))
  }

  function AsSeq<T>(o: Option<T>): seq<T> {
    if o.Some? then [o.value] else []
  }

  ghost function DesiredOps(ns: string, side: Side, desired: seq<DesiredStream>, st: DaemonState): seq<PlannedOp> {
    if desired == [] then [] else
    var rest, d := desired[..|desired| - 1], desired[|desired| - 1];
    DesiredOps(ns, side, rest, st)
    + if d.slot.side == side then AsSeq(DesiredOp(ns, d, Lookup(st, d.slot))) else []
  }

  ghost function DesiredConflicts(ns: string, side: Side, desired: seq<DesiredStream>, st: DaemonState)
    : seq<Conflict>
  {
    if desired == [] then [] else
    var rest, d := desired[..|desired| - 1], desired[|desired| - 1];
    DesiredConflicts(ns, side, rest, st)
    + if d.slot.side == side then AsSeq(DesiredConflict(ns, d, Lookup(st, d.slot))) else []
  }

  /** The ids on one side that the pass over the desired streams has dealt with. */
  ghost function HandledIds(ns: string, side: Side, desired: seq<DesiredStream>, st: DaemonState): set<int> {
    set d | d in desired && d.slot.side == side && (d.enabled || DesiredOp(ns, d, Lookup(st, d.slot)).Some?)
      :: d.slot.id
  }

  /** The cleanup of one listed stream. Unlike the code, it asks neither for the ids of enabled streams nor for
      the slots they want. */
  ghost function OrphanOp(ns: string, side: Side, handled: set<int>, st: DaemonState, id: int): seq<PlannedOp> {
    var stream := Lookup(st, Slot(side, id));
    if id !in handled && stream.Some? && OwnedOn(ns, side, stream.value) then [RemoveOp(Slot(side, id))] else []
  }

  /** Removals of owned streams among ids, in ascending order. */
  ghost function OrphanOps(ns: string, side: Side, handled: set<int>, st: DaemonState, ids: set<int>)
    : seq<PlannedOp>
  {
    if |ids| == 0 then [] else
    var id := IntSets.Least(ids);
    OrphanOp(ns, side, handled, st, id) + OrphanOps(ns, side, handled, st, ids - {id})
  }

  ghost function SideOps(ns: string, side: Side, desired: seq<DesiredStream>, st: DaemonState): seq<PlannedOp> {
    DesiredOps(ns, side, desired, st)
    + OrphanOps(ns, side, HandledIds(ns, side, desired, st), st, ExistingFor(st, side).Keys)
  }

  ghost function PlanOps(ns: string, desired: seq<DesiredStream>, st: DaemonState): seq<PlannedOp> {
    SideOps(ns, Sender, desired, st) + SideOps(ns, Receiver, desired, st)
  }

  ghost function PlanErrors(ns: string, desired: seq<DesiredStream>, st: DaemonState): seq<Conflict> {
    DesiredConflicts(ns, Sender, desired, st) + DesiredConflicts(ns, Receiver, desired, st)
  }

  ghost function PlanOf(ns: string, desired: seq<DesiredStream>, st: DaemonState): Report {
    Report(PlanOps(ns, desired, st), PlanErrors(ns, desired, st))
  }

  // ----- what operations do to the daemon -----

  function Effect(store: Storage, op: PlannedOp): Option<DaemonStream> {
    if op.action == Remove then None else Some(Stored(store, op.slot, op.payload))
  }

  function ApplyOp(store: Storage, op: PlannedOp, st: DaemonState): DaemonState {
    Write(st, op.slot, Effect(store, op))
  }

  function RunOps(store: Storage, ops: seq<PlannedOp>, st: DaemonState): DaemonState {
    if ops == [] then st
    else ApplyOp(store, ops[|ops| - 1], RunOps(store, ops[..|ops| - 1], st))
  }

  /** A whole pass that meets no failure. */
  ghost function Pass(store: Storage, ns: string, desired: seq<DesiredStream>, st: DaemonState): DaemonState {
    RunOps(store, PlanOps(ns, desired, st), st)
  }

  lemma RunOneMore(store: Storage, ops: seq<PlannedOp>, i: nat, st: DaemonState)
    requires i < |ops|
    ensures RunOps(store, ops[..i + 1], st) == ApplyOp(store, ops[i], RunOps(store, ops[..i], st))
  {
    assert ops[..i + 1][..i] == ops[..i];
  }

  // ----- the program -----

  method PlanDesired(ns: string, side: Side, desired: seq<DesiredStream>, st: DaemonState)
    returns (ops: seq<PlannedOp>, errors: seq<Conflict>, handledIds: set<int>)
    ensures ops == DesiredOps(ns, side, desired, st)
    ensures errors == DesiredConflicts(ns, side, desired, st)
    ensures handledIds == HandledIds(ns, side, desired, st)
  {
    ops, errors, handledIds := [], [], {};
    for i := 0 to |desired|
      invariant ops == DesiredOps(ns, side, desired[..i], st)
      invariant errors == DesiredConflicts(ns, side, desired[..i], st)
      invariant handledIds == HandledIds(ns, side, desired[..i], st)
    {
      var d := desired[i];
      assert desired[..i + 1] == desired[..i] + [d];
      assert desired[..i + 1][..i] == desired[..i];
      ghost var opsBefore, errorsBefore, handledBefore := ops, errors, handledIds;
      if d.slot.side == side {
        var held := Lookup(st, d.slot);
        ops, errors, handledIds := PlanOne(ns, d, held, ops, errors, handledIds);
      }
      HandledGrows(ns, side, desired[..i], d, st);
    }
    assert desired[..|desired|] == desired;
  }

  lemma HandledGrows(ns: string, side: Side, desired: seq<DesiredStream>, d: DesiredStream, st: DaemonState)
    ensures HandledIds(ns, side, desired + [d], st) ==
            HandledIds(ns, side, desired, st) +
            if d.slot.side == side && (d.enabled || DesiredOp(ns, d, Lookup(st, d.slot)).Some?)
            then {d.slot.id} else {}
  {
    forall other
      ensures other in desired + [d] <==> other in desired || other == d
    {
    }
  }

  /** The branches for one desired stream of the side at hand. */
  method PlanOne(ns: string, d: DesiredStream, held: Option<DaemonStream>,
                 ops0: seq<PlannedOp>, errors0: seq<Conflict>, handledIds0: set<int>)
    returns (ops: seq<PlannedOp>, errors: seq<Conflict>, handledIds: set<int>)
    ensures ops == ops0 + AsSeq(DesiredOp(ns, d, held))
    ensures errors == errors0 + AsSeq(DesiredConflict(ns, d, held))
    ensures handledIds == handledIds0 + if d.enabled || DesiredOp(ns, d, held).Some? then {d.slot.id} else {}
  {
    ops, errors, handledIds := ops0, errors0, handledIds0;
    if !d.enabled {
      // An own stream goes only if it is this one; any other is left for the orphan loop to judge.
      if held.Some? {
        var ownership := ParseManagedName(held.value.name);
        if ownership.Some? && ownership.value.ns == ns && ownership.value.side == d.slot.side
           && ownership.value.nmosId == d.nmosId {
          ops := ops + [RemoveOp(d.slot)];
          handledIds := handledIds + {d.slot.id};
        }
      }
      return;
    }
    if held.None? {
      ops := ops + [PlannedOp(Create, d.slot, d.payload)];
      handledIds := handledIds + {d.slot.id};
      return;
    }
    var ownership := ParseManagedName(held.value.name);
    if ownership.None? {
      errors := errors + [Unmanaged(d.slot)];
      handledIds := handledIds + {d.slot.id};
      return;
    }
    if ownership.value.ns != ns {
      errors := errors + [Foreign(d.slot, ownership.value.ns)];
      handledIds := handledIds + {d.slot.id};
      return;
    }
    handledIds := handledIds + {d.slot.id};
    var drifted := PayloadDrifted(held.value.payload, d.payload);
    if drifted {
      ops := ops + [PlannedOp(Update, d.slot, d.payload)];
    }
  }

  lemma OrphanStep(ns: string, side: Side, handled: set<int>, st: DaemonState, ids: set<int>, id: int,
                   ops: seq<PlannedOp>)
    requires IntSets.IsLeast(id, ids)
    ensures ops + OrphanOps(ns, side, handled, st, ids)
            == (ops + OrphanOp(ns, side, handled, st, id)) + OrphanOps(ns, side, handled, st, ids - {id})
  {
    hide OrphanOp;
    IntSets.LeastIs(id, ids);
    var one, more := OrphanOp(ns, side, handled, st, id), OrphanOps(ns, side, handled, st, ids - {id});
    assert ops + (one + more) == (ops + one) + more;
  }

  /** Whether the orphan loop removes one listed stream. Every enabled slot has been handled, so the code's own
      test for a wanted stream never keeps one. */
  method IsOrphan(ns: string, side: Side, id: int, name: string, handledIds: set<int>,
                  enabledNmosIds: set<string>, enabledDaemonIds: set<int>)
    returns (orphan: bool)
    requires enabledDaemonIds <= handledIds
    ensures var ownership := ParseManagedName(name);
            orphan <==> id !in handledIds && ownership.Some?
                        && ownership.value.ns == ns && ownership.value.side == side
  {
    if id in handledIds {
      return false;
    }
    var ownership := ParseManagedName(name);
    if ownership.None? || ownership.value.ns != ns || ownership.value.side != side {
      return false;
    }
    var wanted := ownership.value.nmosId in enabledNmosIds && id in enabledDaemonIds;
    return !wanted;
  }

  method PlanOrphans(ns: string, side: Side, st: DaemonState, handledIds: set<int>,
                     enabledNmosIds: set<string>, enabledDaemonIds: set<int>)
    returns (ops: seq<PlannedOp>)
    requires enabledDaemonIds <= handledIds
    ensures ops == OrphanOps(ns, side, handledIds, st, ExistingFor(st, side).Keys)
  {
    ops := [];
    var existing := ExistingFor(st, side);
    var remaining := existing.Keys;
    while |remaining| > 0
      invariant remaining <= existing.Keys
      invariant ops + OrphanOps(ns, side, handledIds, st, remaining)
                == OrphanOps(ns, side, handledIds, st, existing.Keys)
      decreases |remaining|
    {
      IntSets.LeastExists(remaining);
      var id :| id in remaining && IntSets.IsLeast(id, remaining);
      OrphanStep(ns, side, handledIds, st, remaining, id, ops);
      var orphan := IsOrphan(ns, side, id, existing[id].name, handledIds, enabledNmosIds, enabledDaemonIds);
      assert OrphanOp(ns, side, handledIds, st, id) == if orphan then [RemoveOp(Slot(side, id))] else [];
      ops := ops + if orphan then [RemoveOp(Slot(side, id))] else [];
      remaining := remaining - {id};
    }
  }

  method EnabledIds(side: Side, desired: seq<DesiredStream>)
    returns (enabledNmosIds: set<string>, enabledDaemonIds: set<int>)
    ensures enabledNmosIds == set d | d in desired && d.slot.side == side && d.enabled :: d.nmosId
    ensures enabledDaemonIds == set d | d in desired && d.slot.side == side && d.enabled :: d.slot.id
  {
    enabledNmosIds, enabledDaemonIds := {}, {};
    for i := 0 to |desired|
      invariant enabledNmosIds == set d | d in desired[..i] && d.slot.side == side && d.enabled :: d.nmosId
      invariant enabledDaemonIds == set d | d in desired[..i] && d.slot.side == side && d.enabled :: d.slot.id
    {
      assert desired[..i + 1] == desired[..i] + [desired[i]];
      if desired[i].slot.side == side && desired[i].enabled {
        enabledNmosIds := enabledNmosIds + {desired[i].nmosId};
        enabledDaemonIds := enabledDaemonIds + {desired[i].slot.id};
      }
    }
    assert desired[..|desired|] == desired;
  }

  method PlanSide(ns: string, side: Side, desired: seq<DesiredStream>, st: DaemonState) returns (report: Report)
    ensures report == Report(SideOps(ns, side, desired, st), DesiredConflicts(ns, side, desired, st))
  {
    var enabledNmosIds, enabledDaemonIds := EnabledIds(side, desired);
    var ops, errors, handledIds := PlanDesired(ns, side, desired, st);
    var orphans := PlanOrphans(ns, side, st, handledIds, enabledNmosIds, enabledDaemonIds);
    report := Report(ops + orphans, errors);
  }

  datatype Outcome = Completed(report: Report) | Failed

  class Reconciler {
    const ns: string
    const daemon: Daemons.Daemon

    constructor (ns: string, daemon: Daemons.Daemon)
      ensures this.ns == ns && this.daemon == daemon
    {
      this.ns := ns;
      this.daemon := daemon;
    }

    method Plan(desired: seq<DesiredStream>, st: DaemonState) returns (report: Report)
      ensures report == PlanOf(ns, desired, st)
    {
      report := Report([], []);
      var senders := PlanSide(ns, Sender, desired, st);
      var receivers := PlanSide(ns, Receiver, desired, st);
      report := Report(senders.ops + receivers.ops, senders.errors + receivers.errors);
    }

    /** One request. When it fails it may or may not have taken effect. */
    method Apply(op: PlannedOp) returns (ok: bool)
      requires daemon.Valid()
      modifies daemon
      ensures daemon.Valid()
      ensures var before := old(daemon.State());
              daemon.State() == ApplyOp(daemon.store, op, before) || (!ok && daemon.State() == before)
      ensures op.action == Remove && old(Lookup(daemon.State(), op.slot)).None? ==> !ok
      ensures daemon.failures == old(daemon.failures) + if ok then 0 else 1
    {
      if op.slot.side == Sender {
        if op.action == Remove {
          ok := daemon.DeleteSource(op.slot.id);
        } else {
          ok := daemon.PutSource(op.slot.id, op.payload);
        }
      } else {
        if op.action == Remove {
          ok := daemon.DeleteSink(op.slot.id);
        } else {
          ok := daemon.PutSink(op.slot.id, op.payload);
        }
      }
    }

    /** A pass: it ends at the first request that fails, and at no other point, with some prefix of the plan in
        effect. */
    method Reconcile(desired: seq<DesiredStream>) returns (outcome: Outcome)
      requires daemon.Valid()
      modifies daemon
      ensures daemon.Valid()
      ensures outcome.Completed? ==>
                && outcome.report == PlanOf(ns, desired, old(daemon.State()))
                && daemon.State() == Pass(daemon.store, ns, desired, old(daemon.State()))
      ensures daemon.failures == old(daemon.failures) + if outcome.Completed? then 0 else 1
      ensures outcome.Failed? ==>
                var ops := PlanOps(ns, desired, old(daemon.State()));
                exists k :: 0 <= k <= |ops| && daemon.State() == RunOps(daemon.store, ops[..k], old(daemon.State()))
    {
      hide PlanOps, PlanErrors, ApplyOp;
      ghost var before := daemon.State();
      var state := daemon.GetState();
      if state.None? {
        assert PlanOps(ns, desired, before)[..0] == [];
        return Failed;
      }
      var report := Plan(desired, state.value);
      var ops := report.ops;
      for i := 0 to |ops|
        invariant daemon.Valid() && daemon.State() == RunOps(daemon.store, ops[..i], before)
        invariant daemon.failures == old(daemon.failures)
      {
        RunOneMore(daemon.store, ops, i, before);
        var ok := Apply(ops[i]);
        if !ok {
          return Failed;
        }
      }
      assert ops[..|ops|] == ops;
      return Completed(report);
    }
  }
}
