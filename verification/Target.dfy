/** The slot-by-slot rule that a reconcile pass amounts to, and the proof that the planner and its requests
    refine it. */
module Targets {
  import IntSets
  import opened Wrappers
  import opened JsonValues
  import opened Ownership
  import opened DaemonStates
  import opened Reconcilers

  ghost predicate UniqueSlots(desired: seq<DesiredStream>) {
    forall i, j :: 0 <= i < j < |desired| ==> desired[i].slot != desired[j].slot
  }

  /** The payload wanted in a slot. */
  ghost function EnabledAt(desired: seq<DesiredStream>, slot: Slot): Option<Json> {
    if exists d :: d in desired && d.enabled && d.slot == slot then
      var d :| d in desired && d.enabled && d.slot == slot;
      Some(d.payload)
    else None
  }

  /** What a slot holds after a pass, from what it held before. */
  ghost function Target(store: Storage, ns: string, desired: seq<DesiredStream>, slot: Slot,
                        held: Option<DaemonStream>): Option<DaemonStream> {
    match EnabledAt(desired, slot)
    case Some(payload) =>
      if held.None? || (OwnNamespace(ns, held.value) && Drifted(held.value.payload, payload))
      then Some(Stored(store, slot, payload)) else held
    case None =>
      if held.Some? && OwnedOn(ns, slot.side, held.value) then None else held
  }

  /** The one request, if any, that a slot calls for. */
  ghost function NeededOp(ns: string, desired: seq<DesiredStream>, slot: Slot, held: Option<DaemonStream>)
    : Option<PlannedOp> {
    match EnabledAt(desired, slot)
    case Some(payload) =>
      if held.None? then Some(PlannedOp(Create, slot, payload))
      else if OwnNamespace(ns, held.value) && Drifted(held.value.payload, payload)
      then Some(PlannedOp(Update, slot, payload)) else None
    case None =>
      if held.Some? && OwnedOn(ns, slot.side, held.value) then Some(RemoveOp(slot)) else None
  }

  ghost predicate DistinctSlots(ops: seq<PlannedOp>) {
    forall i, j :: 0 <= i < j < |ops| ==> ops[i].slot != ops[j].slot
  }

  // ----- which operations a plan holds -----

  lemma EnabledAtIs(desired: seq<DesiredStream>, d: DesiredStream)
    requires UniqueSlots(desired) && d in desired
    ensures EnabledAt(desired, d.slot) == if d.enabled then Some(d.payload) else None
  {
  }

  lemma {:induction false} InDesiredOps(ns: string, side: Side, desired: seq<DesiredStream>, st: DaemonState,
                                        op: PlannedOp)
    ensures op in DesiredOps(ns, side, desired, st) <==>
            exists d :: d in desired && d.slot.side == side && DesiredOp(ns, d, Lookup(st, d.slot)) == Some(op)
  {
    if desired != [] {
      var rest, d := desired[..|desired| - 1], desired[|desired| - 1];
      assert desired == rest + [d];
      InDesiredOps(ns, side, rest, st, op);
    }
  }

  lemma {:induction false} InOrphanOps(ns: string, side: Side, handled: set<int>, st: DaemonState, ids: set<int>,
                                       op: PlannedOp)
    ensures op in OrphanOps(ns, side, handled, st, ids) <==>
            op.slot.id in ids && op in OrphanOp(ns, side, handled, st, op.slot.id)
    decreases |ids|
  {
    if |ids| > 0 {
      var id := IntSets.Least(ids);
      InOrphanOps(ns, side, handled, st, ids - {id}, op);
    }
  }

  lemma {:induction false} DesiredOpsDistinct(ns: string, side: Side, desired: seq<DesiredStream>, st: DaemonState)
    requires UniqueSlots(desired)
    ensures DistinctSlots(DesiredOps(ns, side, desired, st))
  {
    if desired != [] {
      var rest, d := desired[..|desired| - 1], desired[|desired| - 1];
      DesiredOpsDistinct(ns, side, rest, st);
      forall op | op in DesiredOps(ns, side, rest, st)
        ensures op.slot != d.slot
      {
        InDesiredOps(ns, side, rest, st, op);
      }
    }
  }

  lemma {:induction false} OrphanOpsDistinct(ns: string, side: Side, handled: set<int>, st: DaemonState,
                                             ids: set<int>)
    ensures DistinctSlots(OrphanOps(ns, side, handled, st, ids))
    decreases |ids|
  {
    if |ids| > 0 {
      var id := IntSets.Least(ids);
      OrphanOpsDistinct(ns, side, handled, st, ids - {id});
      forall op | op in OrphanOps(ns, side, handled, st, ids - {id})
        ensures op.slot.id != id
      {
        InOrphanOps(ns, side, handled, st, ids - {id}, op);
      }
    }
  }

  lemma JoinDistinct(a: seq<PlannedOp>, b: seq<PlannedOp>)
    requires DistinctSlots(a) && DistinctSlots(b)
    requires forall x, y :: x in a && y in b ==> x.slot != y.slot
    ensures DistinctSlots(a + b)
  {
  }

  /** The one desired stream of a slot decides whether its pass has dealt with the slot, and how. */
  lemma SlotOfOne(ns: string, side: Side, desired: seq<DesiredStream>, st: DaemonState, d: DesiredStream)
    requires UniqueSlots(desired) && d in desired
    ensures d.slot.side == side ==>
              (d.slot.id in HandledIds(ns, side, desired, st)
               <==> d.enabled || DesiredOp(ns, d, Lookup(st, d.slot)).Some?)
    ensures forall other :: other in desired && other.slot == d.slot ==> other == d
  {
    hide DesiredOp, Lookup;
    assert d.slot == Slot(d.slot.side, d.slot.id);
  }

  /** The operations one side's plan holds are exactly the ones its slots call for. */
  lemma SideOpsNeeded(ns: string, side: Side, desired: seq<DesiredStream>, st: DaemonState, op: PlannedOp)
    requires UniqueSlots(desired)
    ensures op in SideOps(ns, side, desired, st) <==>
            op.slot.side == side && NeededOp(ns, desired, op.slot, Lookup(st, op.slot)) == Some(op)
  {
    hide Drifted, ParseManagedName, DesiredOps, OrphanOps, UniqueSlots;
    var handled := HandledIds(ns, side, desired, st);
    InDesiredOps(ns, side, desired, st, op);
    InOrphanOps(ns, side, handled, st, ExistingFor(st, side).Keys, op);
    if d :| d in desired && d.slot == op.slot {
      EnabledAtIs(desired, d);
      SlotOfOne(ns, side, desired, st, d);
    } else {
      assert EnabledAt(desired, op.slot) == None;
      if op.slot.side == side {
        assert op.slot.id !in handled;
      }
    }
  }

  lemma SideOpsDistinct(ns: string, side: Side, desired: seq<DesiredStream>, st: DaemonState)
    requires UniqueSlots(desired)
    ensures DistinctSlots(SideOps(ns, side, desired, st))
  {
    hide Drifted, ParseManagedName;
    var handled := HandledIds(ns, side, desired, st);
    var a, b := DesiredOps(ns, side, desired, st), OrphanOps(ns, side, handled, st, ExistingFor(st, side).Keys);
    DesiredOpsDistinct(ns, side, desired, st);
    OrphanOpsDistinct(ns, side, handled, st, ExistingFor(st, side).Keys);
    forall x, y | x in a && y in b
      ensures x.slot != y.slot
    {
      InDesiredOps(ns, side, desired, st, x);
      InOrphanOps(ns, side, handled, st, ExistingFor(st, side).Keys, y);
    }
    JoinDistinct(a, b);
  }

  /** A plan holds an operation if and only if its slot calls for it, and never two for one slot. */
  lemma PlanIsSlotwise(ns: string, desired: seq<DesiredStream>, st: DaemonState)
    requires UniqueSlots(desired)
    ensures DistinctSlots(PlanOps(ns, desired, st))
    ensures forall op :: op in PlanOps(ns, desired, st) <==>
                         NeededOp(ns, desired, op.slot, Lookup(st, op.slot)) == Some(op)
  {
    var a, b := SideOps(ns, Sender, desired, st), SideOps(ns, Receiver, desired, st);
    SideOpsDistinct(ns, Sender, desired, st);
    SideOpsDistinct(ns, Receiver, desired, st);
    forall op
      ensures op in a <==> op.slot.side == Sender && NeededOp(ns, desired, op.slot, Lookup(st, op.slot)) == Some(op)
      ensures op in b <==> op.slot.side == Receiver && NeededOp(ns, desired, op.slot, Lookup(st, op.slot)) == Some(op)
    {
      SideOpsNeeded(ns, Sender, desired, st, op);
      SideOpsNeeded(ns, Receiver, desired, st, op);
    }
    JoinDistinct(a, b);
  }

  /** What a plan writes is what some enabled stream wants in that slot. */
  lemma PlannedIsWanted(ns: string, desired: seq<DesiredStream>, st: DaemonState, op: PlannedOp)
    requires UniqueSlots(desired) && op in PlanOps(ns, desired, st) && op.action != Remove
    ensures exists d :: d in desired && d.enabled && d.slot == op.slot && d.payload == op.payload
  {
    hide PlanOps, Drifted;
    PlanIsSlotwise(ns, desired, st);
    assert EnabledAt(desired, op.slot) == Some(op.payload);
  }

  // ----- what a run of operations does to one slot -----

  lemma {:induction false} RunMisses(store: Storage, ops: seq<PlannedOp>, st: DaemonState, slot: Slot)
    requires forall op :: op in ops ==> op.slot != slot
    ensures Lookup(RunOps(store, ops, st), slot) == Lookup(st, slot)
  {
    if ops != [] {
      RunMisses(store, ops[..|ops| - 1], st, slot);
    }
  }

  lemma {:induction false} RunHits(store: Storage, ops: seq<PlannedOp>, st: DaemonState, i: nat)
    requires DistinctSlots(ops) && i < |ops|
    ensures Lookup(RunOps(store, ops, st), ops[i].slot) == Effect(store, ops[i])
  {
    var rest := ops[..|ops| - 1];
    if i < |ops| - 1 {
      RunHits(store, rest, st, i);
      assert rest[i] == ops[i];
    }
  }

  /** Refinement: planning and then sending every request leaves each slot as the slot-by-slot rule says. */
  lemma PassRefinesTarget(store: Storage, ns: string, desired: seq<DesiredStream>, st: DaemonState, slot: Slot)
    requires UniqueSlots(desired)
    ensures Lookup(Pass(store, ns, desired, st), slot)
            == Target(store, ns, desired, slot, Lookup(st, slot))
  {
    PlanPrefix(store, ns, desired, st, |PlanOps(ns, desired, st)|, slot);
    var ops := PlanOps(ns, desired, st);
    assert ops[..|ops|] == ops;
  }

  lemma NeededAppears(ns: string, desired: seq<DesiredStream>, st: DaemonState, slot: Slot)
    requires UniqueSlots(desired)
    ensures NeededOp(ns, desired, slot, Lookup(st, slot)).Some? ==>
              exists i :: 0 <= i < |PlanOps(ns, desired, st)| && PlanOps(ns, desired, st)[i].slot == slot
  {
    PlanIsSlotwise(ns, desired, st);
    var needed := NeededOp(ns, desired, slot, Lookup(st, slot));
    if needed.Some? {
      assert needed.value.slot == slot && needed.value in PlanOps(ns, desired, st);
    }
  }

  /** After any prefix of the plan, each slot holds its target when its operation has been reached or it needs
      none, and what it held before otherwise. */
  lemma PlanPrefix(store: Storage, ns: string, desired: seq<DesiredStream>, st: DaemonState, k: nat, slot: Slot)
    requires UniqueSlots(desired) && k <= |PlanOps(ns, desired, st)|
    ensures var ops := PlanOps(ns, desired, st);
            Lookup(RunOps(store, ops[..k], st), slot) ==
            if exists i :: k <= i < |ops| && ops[i].slot == slot then Lookup(st, slot)
            else Target(store, ns, desired, slot, Lookup(st, slot))
  {
    var ops, held := PlanOps(ns, desired, st), Lookup(st, slot);
    PlanIsSlotwise(ns, desired, st);
    var needed := NeededOp(ns, desired, slot, held);
    if i :| 0 <= i < |ops| && ops[i].slot == slot {
      assert ops[i] in ops && needed == Some(ops[i]);
      if i < k {
        RunHits(store, ops[..k], st, i);
      } else {
        RunMisses(store, ops[..k], st, slot);
      }
    } else {
      NeededAppears(ns, desired, st, slot);
      RunMisses(store, ops[..k], st, slot);
    }
  }

  // ----- safety -----

  /** What the planner may aim an operation at. */
  ghost predicate SafeOp(ns: string, op: PlannedOp, held: Option<DaemonStream>) {
    match op.action
    case Create => held.None?
    case Update => held.Some? && OwnNamespace(ns, held.value) && Drifted(held.value.payload, op.payload)
    case Remove => held.Some? && OwnedOn(ns, op.slot.side, held.value)
  }

  lemma DesiredOpIsSafe(ns: string, d: DesiredStream, held: Option<DaemonStream>)
    ensures var op := DesiredOp(ns, d, held);
            op.Some? ==> op.value.slot == d.slot && SafeOp(ns, op.value, held)
  {
    hide Drifted, ParseManagedName;
  }

  lemma OrphanOpIsSafe(ns: string, side: Side, handled: set<int>, st: DaemonState, op: PlannedOp)
    requires op in OrphanOp(ns, side, handled, st, op.slot.id)
    ensures SafeOp(ns, op, Lookup(st, op.slot))
  {
    hide Drifted, OwnedOn;
  }

  lemma SideFailsClosed(ns: string, side: Side, desired: seq<DesiredStream>, st: DaemonState, op: PlannedOp)
    requires op in SideOps(ns, side, desired, st)
    ensures SafeOp(ns, op, Lookup(st, op.slot))
  {
    hide SafeOp, DesiredOp, OrphanOp, Lookup, ExistingFor;
    var handled := HandledIds(ns, side, desired, st);
    if op in DesiredOps(ns, side, desired, st) {
      InDesiredOps(ns, side, desired, st, op);
      var d :| d in desired && d.slot.side == side && DesiredOp(ns, d, Lookup(st, d.slot)) == Some(op);
      DesiredOpIsSafe(ns, d, Lookup(st, d.slot));
    } else {
      InOrphanOps(ns, side, handled, st, ExistingFor(st, side).Keys, op);
      OrphanOpIsSafe(ns, side, handled, st, op);
    }
  }

  /** For every list of desired streams, unique or not, each operation is aimed at an empty slot or at a stream
      of the bridge's own namespace: creates meet an absent stream, updates a drifted one, and removals one
      that is filed on the side its marker names. */
  lemma PlanFailsClosed(ns: string, desired: seq<DesiredStream>, st: DaemonState, op: PlannedOp)
    requires op in PlanOps(ns, desired, st)
    ensures SafeOp(ns, op, Lookup(st, op.slot))
  {
    SideFailsClosed(ns, if op in SideOps(ns, Sender, desired, st) then Sender else Receiver, desired, st, op);
  }
}
