/** How many operations a plan holds, how each one counts, and in which orders they may be sent. */
module PlanMeasure {
  import opened Wrappers
  import opened Ownership
  import opened DaemonStates
  import opened Reconcilers
  import opened Targets
  import opened Convergence

  /** The slots either listed by the daemon or named by a desired stream. */
  function Slots(desired: seq<DesiredStream>, st: DaemonState): set<Slot> {
    (set d | d in desired :: d.slot)
    + (set id | id in st.sources :: Slot(Sender, id))
    + (set id | id in st.sinks :: Slot(Receiver, id))
  }

  /** The slots that do not hold what a pass would leave there. */
  ghost function Disagreeing(store: Storage, ns: string, desired: seq<DesiredStream>, st: DaemonState)
    : set<Slot>
  {
    set slot | slot in Slots(desired, st) && Target(store, ns, desired, slot, Lookup(st, slot)) != Lookup(st, slot)
  }

  ghost function SlotsOf(ops: seq<PlannedOp>): set<Slot> {
    set op | op in ops :: op.slot
  }

  lemma DisagreeingIs(store: Storage, ns: string, desired: seq<DesiredStream>, st: DaemonState, slot: Slot)
    ensures slot in Disagreeing(store, ns, desired, st)
            <==> Target(store, ns, desired, slot, Lookup(st, slot)) != Lookup(st, slot)
  {
    if slot !in Slots(desired, st) {
      assert slot == Slot(slot.side, slot.id);
      assert Lookup(st, slot) == None;
      assert EnabledAt(desired, slot) == None;
    }
  }

  lemma {:induction false} SlotCount(ops: seq<PlannedOp>)
    ensures |SlotsOf(ops)| <= |ops|
    ensures DistinctSlots(ops) ==> |SlotsOf(ops)| == |ops|
  {
    if ops != [] {
      var rest, op := ops[..|ops| - 1], ops[|ops| - 1];
      assert ops == rest + [op];
      SlotCount(rest);
      assert SlotsOf(ops) == SlotsOf(rest) + {op.slot};
    }
  }

  /** After k operations of the plan, the slots still disagreeing are exactly those of the operations to come. */
  lemma DisagreeingAfter(store: Storage, ns: string, desired: seq<DesiredStream>, st: DaemonState, k: nat)
    requires UniqueSlots(desired) && NoneRewritten(store, ns, desired) && k <= |PlanOps(ns, desired, st)|
    ensures Disagreeing(store, ns, desired, RunOps(store, PlanOps(ns, desired, st)[..k], st))
            == SlotsOf(PlanOps(ns, desired, st)[k..])
  {
    var ops := PlanOps(ns, desired, st);
    var mid := RunOps(store, ops[..k], st);
    PlanIsSlotwise(ns, desired, st);
    forall slot
      ensures slot in Disagreeing(store, ns, desired, mid) <==> slot in SlotsOf(ops[k..])
    {
      DisagreeingIs(store, ns, desired, mid, slot);
      PlanPrefix(store, ns, desired, st, k, slot);
      TargetIdempotent(store, ns, desired, slot, Lookup(st, slot));
      NeededIffDisagrees(store, ns, desired, slot, Lookup(st, slot));
      ToCome(ops, k, slot);
    }
  }

  lemma ToCome(ops: seq<PlannedOp>, k: nat, slot: Slot)
    requires k <= |ops|
    ensures slot in SlotsOf(ops[k..]) <==> exists i :: k <= i < |ops| && ops[i].slot == slot
  {
    if i :| k <= i < |ops| && ops[i].slot == slot {
      assert ops[k..][i - k] == ops[i];
    }
    if op :| op in ops[k..] && op.slot == slot {
      var j :| 0 <= j < |ops[k..]| && ops[k..][j] == op;
      assert ops[k + j] == op;
    }
  }

  /** The plan holds one operation per disagreeing slot, and each one sent lowers their number by exactly one. */
  lemma EachOpCountsOnce(store: Storage, ns: string, desired: seq<DesiredStream>, st: DaemonState, k: nat)
    requires UniqueSlots(desired) && NoneRewritten(store, ns, desired) && k <= |PlanOps(ns, desired, st)|
    ensures |Disagreeing(store, ns, desired, RunOps(store, PlanOps(ns, desired, st)[..k], st))|
            == |PlanOps(ns, desired, st)| - k
    ensures |Disagreeing(store, ns, desired, st)| == |PlanOps(ns, desired, st)|
  {
    var ops := PlanOps(ns, desired, st);
    PlanIsSlotwise(ns, desired, st);
    DisagreeingAfter(store, ns, desired, st, k);
    SlotCount(ops[k..]);
    DisagreeingAfter(store, ns, desired, st, 0);
    assert ops[..0] == [] && ops[0..] == ops;
    SlotCount(ops);
  }

  /** No shorter list of operations, planned in whatever way, reaches the same state. */
  lemma PlanIsMinimal(store: Storage, ns: string, desired: seq<DesiredStream>, st: DaemonState,
                      other: seq<PlannedOp>)
    requires UniqueSlots(desired) && NoneRewritten(store, ns, desired)
    requires RunOps(store, other, st) == Pass(store, ns, desired, st)
    ensures |PlanOps(ns, desired, st)| <= |other|
  {
    var changed := Disagreeing(store, ns, desired, st);
    forall slot | slot in changed
      ensures slot in SlotsOf(other)
    {
      PassRefinesTarget(store, ns, desired, st, slot);
      if slot !in SlotsOf(other) {
        RunMisses(store, other, st, slot);
      }
    }
    assert changed <= SlotsOf(other);
    CardinalityGrows(changed, SlotsOf(other));
    SlotCount(other);
    EachOpCountsOnce(store, ns, desired, st, 0);
  }

  lemma CardinalityGrows(a: set<Slot>, b: set<Slot>)
    requires a <= b
    ensures |a| <= |b|
  {
    assert b == a + (b - a);
  }

  // ----- order does not matter -----

  lemma RepeatsCount(ops: seq<PlannedOp>, i: nat, j: nat)
    requires i < j < |ops| && ops[i] == ops[j]
    ensures multiset(ops)[ops[i]] >= 2
  {
    assert ops == ops[..j] + [ops[j]] + ops[j + 1..];
    assert ops[..j][i] == ops[i];
    assert ops[i] in multiset(ops[..j]);
  }

  lemma {:induction false} DistinctCounts(ops: seq<PlannedOp>, op: PlannedOp)
    requires DistinctSlots(ops)
    ensures multiset(ops)[op] <= 1
  {
    if ops != [] {
      var rest, last := ops[..|ops| - 1], ops[|ops| - 1];
      assert ops == rest + [last];
      DistinctCounts(rest, op);
      assert forall i :: 0 <= i < |rest| ==> ops[i].slot != last.slot;
      assert last !in rest;
    }
  }

  lemma SameSlotSameOp(ops: seq<PlannedOp>, x: PlannedOp, y: PlannedOp)
    requires DistinctSlots(ops) && x in ops && y in ops && x.slot == y.slot
    ensures x == y
  {
    var i :| 0 <= i < |ops| && ops[i] == x;
    var j :| 0 <= j < |ops| && ops[j] == y;
  }

  lemma PermutationIsDistinct(ops: seq<PlannedOp>, perm: seq<PlannedOp>)
    requires DistinctSlots(ops) && multiset(perm) == multiset(ops)
    ensures DistinctSlots(perm)
    ensures forall op :: op in perm <==> op in ops
  {
    forall op
      ensures op in perm <==> op in ops
    {
      assert op in multiset(perm) <==> op in multiset(ops);
    }
    forall i, j | 0 <= i < j < |perm|
      ensures perm[i].slot != perm[j].slot
    {
      if perm[i].slot == perm[j].slot {
        assert perm[i] in perm && perm[j] in perm;
        SameSlotSameOp(ops, perm[i], perm[j]);
        RepeatsCount(perm, i, j);
        DistinctCounts(ops, perm[i]);
        assert false;
      }
    }
  }

  /** Sent in any order, a plan's operations end in the same daemon state. */
  lemma OrderDoesNotMatter(store: Storage, ns: string, desired: seq<DesiredStream>, st: DaemonState,
                           perm: seq<PlannedOp>)
    requires UniqueSlots(desired)
    requires multiset(perm) == multiset(PlanOps(ns, desired, st))
    ensures RunOps(store, perm, st) == Pass(store, ns, desired, st)
  {
    var ops := PlanOps(ns, desired, st);
    PlanIsSlotwise(ns, desired, st);
    PermutationIsDistinct(ops, perm);
    forall slot
      ensures Lookup(RunOps(store, perm, st), slot) == Lookup(RunOps(store, ops, st), slot)
    {
      if i :| 0 <= i < |perm| && perm[i].slot == slot {
        var j :| 0 <= j < |ops| && ops[j] == perm[i];
        RunHits(store, perm, st, i);
        RunHits(store, ops, st, j);
      } else {
        RunMisses(store, perm, st, slot);
        RunMisses(store, ops, st, slot);
      }
    }
    SameState(RunOps(store, perm, st), Pass(store, ns, desired, st));
  }

  /** In any order, each operation still meets its slot as it was when the plan was made: creates an empty one,
      updates and removals a present stream of the namespace. */
  lemma EachOpMeetsItsSlot(store: Storage, ns: string, desired: seq<DesiredStream>, st: DaemonState,
                           perm: seq<PlannedOp>, k: nat)
    requires UniqueSlots(desired)
    requires multiset(perm) == multiset(PlanOps(ns, desired, st)) && k < |perm|
    ensures Lookup(RunOps(store, perm[..k], st), perm[k].slot) == Lookup(st, perm[k].slot)
    ensures SafeOp(ns, perm[k], Lookup(RunOps(store, perm[..k], st), perm[k].slot))
  {
    PlanIsSlotwise(ns, desired, st);
    PermutationIsDistinct(PlanOps(ns, desired, st), perm);
    RunMisses(store, perm[..k], st, perm[k].slot);
    assert perm[k] in perm;
    PlanFailsClosed(ns, desired, st, perm[k]);
  }
}
