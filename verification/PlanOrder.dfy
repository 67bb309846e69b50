/** The order in which a plan's operations are sent. */
module PlanOrder {
  import IntSets
  import JsonValues
  import opened Wrappers
  import opened Ownership
  import opened DaemonStates
  import opened Reconcilers
  import opened Targets
  import Convergence

  /** The removal of a listed stream that no desired stream of its slot accounts for: none there is enabled, and none
      has the nmos id of its marker. */
  ghost predicate IsOrphanOp(desired: seq<DesiredStream>, st: DaemonState, op: PlannedOp) {
    && op.action == Remove && Lookup(st, op.slot).Some?
    && forall d :: d in desired && d.slot == op.slot ==>
         && !d.enabled
         && (var owner := ParseManagedName(Lookup(st, op.slot).value.name);
             owner.Some? ==> owner.value.nmosId != d.nmosId)
  }

  /** Two desired streams in the order of the list name the slots. */
  ghost predicate InListOrder(desired: seq<DesiredStream>, a: Slot, b: Slot) {
    exists p, q :: 0 <= p < q < |desired| && desired[p].slot == a && desired[q].slot == b
  }

  lemma {:induction false} DesiredOpsInOrder(ns: string, side: Side, desired: seq<DesiredStream>, st: DaemonState,
                                             i: nat, j: nat)
    requires i < j < |DesiredOps(ns, side, desired, st)|
    ensures var ops := DesiredOps(ns, side, desired, st); InListOrder(desired, ops[i].slot, ops[j].slot)
  {
    var rest, d := desired[..|desired| - 1], desired[|desired| - 1];
    var ops, more := DesiredOps(ns, side, desired, st), DesiredOps(ns, side, rest, st);
    if j < |more| {
      DesiredOpsInOrder(ns, side, rest, st, i, j);
      var p, q :| 0 <= p < q < |rest| && rest[p].slot == more[i].slot && rest[q].slot == more[j].slot;
      assert desired[p].slot == ops[i].slot && desired[q].slot == ops[j].slot;
    } else {
      assert more[i] in more;
      InDesiredOps(ns, side, rest, st, more[i]);
      var e :| e in rest && e.slot.side == side && DesiredOp(ns, e, Lookup(st, e.slot)) == Some(more[i]);
      var p :| 0 <= p < |rest| && rest[p] == e;
      assert desired[p].slot == ops[i].slot && desired[|desired| - 1].slot == ops[j].slot;
    }
  }

  lemma OrphanOpIsOne(ns: string, side: Side, handled: set<int>, st: DaemonState, id: int)
    ensures var ops := OrphanOp(ns, side, handled, st, id); |ops| <= 1 && (ops != [] ==> ops[0].slot.id == id)
  {
    hide OwnedOn, Lookup;
  }

  lemma {:induction false} OrphanOpsAscend(ns: string, side: Side, handled: set<int>, st: DaemonState, ids: set<int>,
                                           i: nat, j: nat)
    requires i < j < |OrphanOps(ns, side, handled, st, ids)|
    ensures var ops := OrphanOps(ns, side, handled, st, ids); ops[i].slot.id < ops[j].slot.id
    decreases |ids|
  {
    hide OrphanOp;
    var id := IntSets.Least(ids);
    var ops := OrphanOps(ns, side, handled, st, ids);
    var first, rest := OrphanOp(ns, side, handled, st, id), OrphanOps(ns, side, handled, st, ids - {id});
    OrphanOpIsOne(ns, side, handled, st, id);
    assert ops == first + rest;
    if i < |first| {
      assert ops[j] == rest[j - |first|];
      LaterOrphans(ns, side, handled, st, ids, j - |first|);
    } else {
      OrphanOpsAscend(ns, side, handled, st, ids - {id}, i - |first|, j - |first|);
    }
  }

  lemma LaterOrphans(ns: string, side: Side, handled: set<int>, st: DaemonState, ids: set<int>, j: nat)
    requires |ids| > 0 && j < |OrphanOps(ns, side, handled, st, ids - {IntSets.Least(ids)})|
    ensures IntSets.Least(ids) < OrphanOps(ns, side, handled, st, ids - {IntSets.Least(ids)})[j].slot.id
  {
    hide OrphanOp, OrphanOps;
    var id := IntSets.Least(ids);
    var rest := OrphanOps(ns, side, handled, st, ids - {id});
    assert rest[j] in rest;
    InOrphanOps(ns, side, handled, st, ids - {id}, rest[j]);
  }

  lemma DrivenIsNoOrphan(ns: string, side: Side, desired: seq<DesiredStream>, st: DaemonState, op: PlannedOp)
    requires op in DesiredOps(ns, side, desired, st)
    ensures op.slot.side == side && !IsOrphanOp(desired, st, op)
  {
    hide JsonValues.Drifted, ParseManagedName;
    InDesiredOps(ns, side, desired, st, op);
  }

  lemma UnhandledIsOrphan(ns: string, side: Side, desired: seq<DesiredStream>, st: DaemonState, op: PlannedOp)
    requires op in OrphanOps(ns, side, HandledIds(ns, side, desired, st), st, ExistingFor(st, side).Keys)
    ensures op.slot.side == side && IsOrphanOp(desired, st, op)
  {
    hide JsonValues.Drifted, ParseManagedName, HandledIds;
    var handled := HandledIds(ns, side, desired, st);
    InOrphanOps(ns, side, handled, st, ExistingFor(st, side).Keys, op);
    forall d | d in desired && d.slot == op.slot
      ensures !d.enabled && DesiredOp(ns, d, Lookup(st, d.slot)).None?
    {
      UnhandledIsIdle(ns, side, desired, st, d);
    }
  }

  lemma UnhandledIsIdle(ns: string, side: Side, desired: seq<DesiredStream>, st: DaemonState, d: DesiredStream)
    requires d in desired && d.slot.side == side && d.slot.id !in HandledIds(ns, side, desired, st)
    ensures !d.enabled && DesiredOp(ns, d, Lookup(st, d.slot)).None?
  {
    hide DesiredOp, Lookup;
  }

  lemma SideInOrder(ns: string, side: Side, desired: seq<DesiredStream>, st: DaemonState, i: nat, j: nat)
    requires i < j < |SideOps(ns, side, desired, st)|
    ensures var ops := SideOps(ns, side, desired, st);
            && ops[i].slot.side == ops[j].slot.side == side
            && (IsOrphanOp(desired, st, ops[i]) ==>
                  IsOrphanOp(desired, st, ops[j]) && ops[i].slot.id < ops[j].slot.id)
            && (!IsOrphanOp(desired, st, ops[j]) ==> InListOrder(desired, ops[i].slot, ops[j].slot))
  {
    hide IsOrphanOp, InListOrder, DesiredOps, OrphanOps, HandledIds;
    var ops := SideOps(ns, side, desired, st);
    var a := DesiredOps(ns, side, desired, st);
    var b := OrphanOps(ns, side, HandledIds(ns, side, desired, st), st, ExistingFor(st, side).Keys);
    if i < |a| {
      assert ops[i] in a;
      DrivenIsNoOrphan(ns, side, desired, st, ops[i]);
    } else {
      assert ops[i] == b[i - |a|] && ops[i] in b;
      UnhandledIsOrphan(ns, side, desired, st, ops[i]);
    }
    if j < |a| {
      assert ops[j] in a;
      DrivenIsNoOrphan(ns, side, desired, st, ops[j]);
      DesiredOpsInOrder(ns, side, desired, st, i, j);
    } else {
      assert ops[j] == b[j - |a|] && ops[j] in b;
      UnhandledIsOrphan(ns, side, desired, st, ops[j]);
      if i >= |a| {
        OrphanOpsAscend(ns, side, HandledIds(ns, side, desired, st), st, ExistingFor(st, side).Keys, i - |a|, j - |a|);
      }
    }
  }

  lemma SideOfOps(ns: string, side: Side, desired: seq<DesiredStream>, st: DaemonState, i: nat)
    requires i < |SideOps(ns, side, desired, st)|
    ensures SideOps(ns, side, desired, st)[i].slot.side == side
  {
    hide DesiredOps, OrphanOps, HandledIds, IsOrphanOp;
    var ops := SideOps(ns, side, desired, st);
    var a := DesiredOps(ns, side, desired, st);
    if i < |a| {
      assert ops[i] in a;
      DrivenIsNoOrphan(ns, side, desired, st, ops[i]);
    } else {
      assert ops[i] in OrphanOps(ns, side, HandledIds(ns, side, desired, st), st, ExistingFor(st, side).Keys);
      UnhandledIsOrphan(ns, side, desired, st, ops[i]);
    }
  }

  /** Of any two operations of a plan: senders' come before receivers'. Within a side, those that desired streams ask
      for come first, in the order of the list; then the removals of orphans, in ascending order of their slots. */
  lemma PlanInOrder(ns: string, desired: seq<DesiredStream>, st: DaemonState, i: nat, j: nat)
    requires i < j < |PlanOps(ns, desired, st)|
    ensures var ops := PlanOps(ns, desired, st);
            && (ops[i].slot.side == Receiver ==> ops[j].slot.side == Receiver)
            && (ops[i].slot.side == ops[j].slot.side ==>
                  && (IsOrphanOp(desired, st, ops[i]) ==>
                        IsOrphanOp(desired, st, ops[j]) && ops[i].slot.id < ops[j].slot.id)
                  && (!IsOrphanOp(desired, st, ops[j]) ==> InListOrder(desired, ops[i].slot, ops[j].slot)))
  {
    hide IsOrphanOp, InListOrder, SideOps;
    var a, b := SideOps(ns, Sender, desired, st), SideOps(ns, Receiver, desired, st);
    if j < |a| {
      SideInOrder(ns, Sender, desired, st, i, j);
    } else if i >= |a| {
      SideInOrder(ns, Receiver, desired, st, i - |a|, j - |a|);
    } else {
      SideOfOps(ns, Sender, desired, st, i);
      SideOfOps(ns, Receiver, desired, st, j - |a|);
    }
  }

  // ----- conflicts -----

  lemma ConflictIsDesired(ns: string, side: Side, desired: seq<DesiredStream>, st: DaemonState, c: Conflict)
    requires c in DesiredConflicts(ns, side, desired, st)
    ensures exists d :: d in desired && d.slot.side == side && d.slot == c.slot
  {
    hide DesiredConflicts;
    Convergence.InConflicts(ns, side, desired, st, c);
  }

  lemma {:induction false} SideConflictsInOrder(ns: string, side: Side, desired: seq<DesiredStream>, st: DaemonState,
                                                i: nat, j: nat)
    requires i < j < |DesiredConflicts(ns, side, desired, st)|
    ensures var errors := DesiredConflicts(ns, side, desired, st);
            InListOrder(desired, errors[i].slot, errors[j].slot)
  {
    hide Lookup, DesiredConflict;
    var rest, d := desired[..|desired| - 1], desired[|desired| - 1];
    var errors, fewer := DesiredConflicts(ns, side, desired, st), DesiredConflicts(ns, side, rest, st);
    ConflictNamesSlot(ns, d, Lookup(st, d.slot));
    if j < |fewer| {
      SideConflictsInOrder(ns, side, rest, st, i, j);
      var p, q :| 0 <= p < q < |rest| && rest[p].slot == fewer[i].slot && rest[q].slot == fewer[j].slot;
      assert desired[p].slot == errors[i].slot && desired[q].slot == errors[j].slot;
    } else {
      assert fewer[i] in fewer;
      ConflictIsDesired(ns, side, rest, st, fewer[i]);
      var e :| e in rest && e.slot.side == side && e.slot == fewer[i].slot;
      var p :| 0 <= p < |rest| && rest[p] == e;
      assert desired[p].slot == errors[i].slot && desired[|desired| - 1].slot == errors[j].slot;
    }
  }

  lemma ConflictNamesSlot(ns: string, d: DesiredStream, held: Option<DaemonStream>)
    ensures DesiredConflict(ns, d, held).Some? ==> DesiredConflict(ns, d, held).value.slot == d.slot
  {
    hide ParseManagedName;
  }

  /** Conflicts are reported senders first, and within a side in the order of the list. */
  lemma ConflictsInOrder(ns: string, desired: seq<DesiredStream>, st: DaemonState, i: nat, j: nat)
    requires i < j < |PlanErrors(ns, desired, st)|
    ensures var errors := PlanErrors(ns, desired, st);
            && (errors[i].slot.side == Receiver ==> errors[j].slot.side == Receiver)
            && (errors[i].slot.side == errors[j].slot.side ==> InListOrder(desired, errors[i].slot, errors[j].slot))
  {
    hide DesiredConflicts, InListOrder;
    var a, b := DesiredConflicts(ns, Sender, desired, st), DesiredConflicts(ns, Receiver, desired, st);
    var errors := PlanErrors(ns, desired, st);
    if j < |a| {
      SideConflictsInOrder(ns, Sender, desired, st, i, j);
      assert errors[i] in a && errors[j] in a;
      ConflictIsDesired(ns, Sender, desired, st, errors[i]);
    } else {
      assert errors[j] == b[j - |a|] && errors[j] in b;
      ConflictIsDesired(ns, Receiver, desired, st, errors[j]);
      if i >= |a| {
        SideConflictsInOrder(ns, Receiver, desired, st, i - |a|, j - |a|);
      } else {
        assert errors[i] in a;
        ConflictIsDesired(ns, Sender, desired, st, errors[i]);
      }
    }
  }
}
