/** What repeated, interrupted and reordered passes come to. */
module Convergence {
  import opened Wrappers
  import opened JsonValues
  import opened Ownership
  import opened DaemonStates
  import opened Reconcilers
  import opened Targets

  // ----- the slot rule settles at once -----

  /** A second pass changes nothing in any slot. This asks nothing of names or namespaces, nor of what the daemon
      keeps of a payload. */
  lemma TargetIdempotent(store: Storage, ns: string, desired: seq<DesiredStream>, slot: Slot,
                         held: Option<DaemonStream>)
    ensures var after := Target(store, ns, desired, slot, held);
            Target(store, ns, desired, slot, after) == after
  {
    match EnabledAt(desired, slot)
    case Some(_) =>
    case None =>
  }

  /** The stream would be taken for the bridge's own and yet for drifted, as soon as it is stored. */
  ghost predicate RewrittenOnSight(store: Storage, ns: string, d: DesiredStream) {
    OwnNamespace(ns, Stored(store, d.slot, d.payload)) && Drifted(store(d.slot, d.payload), d.payload)
  }

  ghost predicate NoneRewritten(store: Storage, ns: string, desired: seq<DesiredStream>) {
    forall d :: d in desired && d.enabled ==> !RewrittenOnSight(store, ns, d)
  }

  /** The daemon keeps every field the enabled streams set. */
  ghost predicate Keeps(store: Storage, desired: seq<DesiredStream>) {
    forall d :: d in desired && d.enabled ==> !Drifted(store(d.slot, d.payload), d.payload)
  }

  lemma KeptAreNotRewritten(store: Storage, ns: string, desired: seq<DesiredStream>)
    requires Keeps(store, desired)
    ensures NoneRewritten(store, ns, desired)
  {
    hide Drifted, OwnNamespace;
  }

  /** A slot that disagrees with its target calls for an operation, and for one that brings the target about. */
  lemma NeededWhenDisagrees(store: Storage, ns: string, desired: seq<DesiredStream>, slot: Slot,
                            held: Option<DaemonStream>)
    ensures Target(store, ns, desired, slot, held) != held ==> NeededOp(ns, desired, slot, held).Some?
    ensures var needed := NeededOp(ns, desired, slot, held);
            needed.Some? ==> Effect(store, needed.value) == Target(store, ns, desired, slot, held)
  {
    hide Drifted, OwnNamespace;
  }

  /** Where nothing is rewritten on sight, a slot calls for an operation exactly when it disagrees with its target:
      fields only the daemon added never call for one. */
  lemma NeededIffDisagrees(store: Storage, ns: string, desired: seq<DesiredStream>, slot: Slot,
                           held: Option<DaemonStream>)
    requires NoneRewritten(store, ns, desired)
    ensures NeededOp(ns, desired, slot, held).Some? <==> Target(store, ns, desired, slot, held) != held
    ensures var needed := NeededOp(ns, desired, slot, held);
            needed.Some? ==> Effect(store, needed.value) == Target(store, ns, desired, slot, held)
  {
    hide Drifted, ParseManagedName;
    if EnabledAt(desired, slot).Some? {
      var d :| d in desired && d.enabled && d.slot == slot && EnabledAt(desired, slot) == Some(d.payload);
      assert !RewrittenOnSight(store, ns, d);
    }
  }

  /** Every slot holds its target. */
  ghost predicate Settled(store: Storage, ns: string, desired: seq<DesiredStream>, st: DaemonState) {
    forall slot :: Target(store, ns, desired, slot, Lookup(st, slot)) == Lookup(st, slot)
  }

  /** A bridge that plans nothing has every slot at its target, whatever the daemon keeps of payloads. */
  lemma QuietIsSettled(store: Storage, ns: string, desired: seq<DesiredStream>, st: DaemonState)
    requires UniqueSlots(desired) && PlanOps(ns, desired, st) == []
    ensures Settled(store, ns, desired, st)
  {
    forall slot
      ensures Target(store, ns, desired, slot, Lookup(st, slot)) == Lookup(st, slot)
    {
      NeededWhenDisagrees(store, ns, desired, slot, Lookup(st, slot));
      NeededAppears(ns, desired, st, slot);
    }
  }

  /** Where nothing is rewritten on sight, that is all there is to it. */
  lemma QuietIffSettled(store: Storage, ns: string, desired: seq<DesiredStream>, st: DaemonState)
    requires UniqueSlots(desired) && NoneRewritten(store, ns, desired)
    ensures PlanOps(ns, desired, st) == [] <==> Settled(store, ns, desired, st)
  {
    var ops := PlanOps(ns, desired, st);
    if ops == [] {
      QuietIsSettled(store, ns, desired, st);
    } else {
      PlanIsSlotwise(ns, desired, st);
      var slot := ops[0].slot;
      assert ops[0] in ops;
      NeededIffDisagrees(store, ns, desired, slot, Lookup(st, slot));
    }
  }

  /** A complete pass leaves every slot at its target. */
  lemma PassSettles(store: Storage, ns: string, desired: seq<DesiredStream>, st: DaemonState)
    requires UniqueSlots(desired)
    ensures Settled(store, ns, desired, Pass(store, ns, desired, st))
  {
    forall slot
      ensures var after := Lookup(Pass(store, ns, desired, st), slot);
              Target(store, ns, desired, slot, after) == after
    {
      PassRefinesTarget(store, ns, desired, st, slot);
      TargetIdempotent(store, ns, desired, slot, Lookup(st, slot));
    }
  }

  /** Whether a slot calls for an operation right after a pass. */
  lemma NeededAfterPass(store: Storage, ns: string, desired: seq<DesiredStream>, st: DaemonState, slot: Slot)
    requires UniqueSlots(desired)
    ensures NeededOp(ns, desired, slot, Lookup(Pass(store, ns, desired, st), slot)).Some? ==>
              exists d :: d in desired && d.enabled && d.slot == slot && RewrittenOnSight(store, ns, d)
    ensures Lookup(st, slot).None? ==>
              forall d :: d in desired && d.enabled && d.slot == slot && RewrittenOnSight(store, ns, d) ==>
                NeededOp(ns, desired, slot, Lookup(Pass(store, ns, desired, st), slot)).Some?
  {
    hide Drifted;
    PassRefinesTarget(store, ns, desired, st, slot);
    forall d | d in desired && d.enabled && d.slot == slot
      ensures EnabledAt(desired, slot) == Some(d.payload)
    {
      EnabledAtIs(desired, d);
    }
  }

  /** Whatever the daemon keeps of payloads: from every state, a complete pass leaves nothing to plan, if and only
      if no enabled stream is one the bridge would rewrite on sight. */
  lemma QuietIffNoneRewritten(store: Storage, ns: string, desired: seq<DesiredStream>)
    requires UniqueSlots(desired)
    ensures (forall st :: PlanOps(ns, desired, Pass(store, ns, desired, st)) == [])
            <==> NoneRewritten(store, ns, desired)
  {
    forall st | PlanOps(ns, desired, Pass(store, ns, desired, st)) != []
      ensures exists d :: d in desired && d.enabled && RewrittenOnSight(store, ns, d)
    {
      var after := Pass(store, ns, desired, st);
      PlanIsSlotwise(ns, desired, after);
      var op := PlanOps(ns, desired, after)[0];
      assert op in PlanOps(ns, desired, after);
      NeededAfterPass(store, ns, desired, st, op.slot);
    }
    var empty := DaemonState(map[], map[]);
    forall d | d in desired && d.enabled && RewrittenOnSight(store, ns, d)
      ensures PlanOps(ns, desired, Pass(store, ns, desired, empty)) != []
    {
      NeededAfterPass(store, ns, desired, empty, d.slot);
      NeededAppears(ns, desired, Pass(store, ns, desired, empty), d.slot);
    }
  }

  /** Where nothing is rewritten on sight, a complete pass leaves nothing to plan. */
  lemma PassIsQuiet(store: Storage, ns: string, desired: seq<DesiredStream>, st: DaemonState)
    requires UniqueSlots(desired) && NoneRewritten(store, ns, desired)
    ensures PlanOps(ns, desired, Pass(store, ns, desired, st)) == []
  {
    QuietIffNoneRewritten(store, ns, desired);
  }

  // ----- resumption -----

  /** A pass cut short after any prefix of its plan is made good by the next complete pass. */
  lemma ResumeAfterFailure(store: Storage, ns: string, desired: seq<DesiredStream>, st: DaemonState, k: nat)
    requires UniqueSlots(desired) && k <= |PlanOps(ns, desired, st)|
    ensures Pass(store, ns, desired, RunOps(store, PlanOps(ns, desired, st)[..k], st))
            == Pass(store, ns, desired, st)
  {
    var cut := RunOps(store, PlanOps(ns, desired, st)[..k], st);
    forall slot
      ensures Lookup(Pass(store, ns, desired, cut), slot) == Lookup(Pass(store, ns, desired, st), slot)
    {
      PassRefinesTarget(store, ns, desired, cut, slot);
      PassRefinesTarget(store, ns, desired, st, slot);
      PlanPrefix(store, ns, desired, st, k, slot);
      TargetIdempotent(store, ns, desired, slot, Lookup(st, slot));
    }
    SameState(Pass(store, ns, desired, cut), Pass(store, ns, desired, st));
  }

  /** The state after a row of failed passes; each cut says how many requests of that pass took effect. */
  ghost function AfterFailures(store: Storage, ns: string, desired: seq<DesiredStream>, st: DaemonState,
                               cuts: seq<nat>): DaemonState
    decreases |cuts|
  {
    if cuts == [] then st else
    var ops := PlanOps(ns, desired, st);
    var k := if cuts[0] <= |ops| then cuts[0] else |ops|;
    AfterFailures(store, ns, desired, RunOps(store, ops[..k], st), cuts[1..])
  }

  /** However many passes fail, and wherever, one complete pass then reaches the state an uninterrupted pass
      would have reached at the start. */
  lemma {:induction false} ResumeAfterFailures(store: Storage, ns: string, desired: seq<DesiredStream>,
                                               st: DaemonState, cuts: seq<nat>)
    requires UniqueSlots(desired)
    ensures Pass(store, ns, desired, AfterFailures(store, ns, desired, st, cuts))
            == Pass(store, ns, desired, st)
    decreases |cuts|
  {
    if cuts != [] {
      var ops := PlanOps(ns, desired, st);
      var k := if cuts[0] <= |ops| then cuts[0] else |ops|;
      ResumeAfterFailures(store, ns, desired, RunOps(store, ops[..k], st), cuts[1..]);
      ResumeAfterFailure(store, ns, desired, st, k);
    }
  }

  // ----- conflicts -----

  predicate Explains(ns: string, d: DesiredStream, stream: DaemonStream, c: Conflict) {
    match ParseManagedName(stream.name)
    case None => c == Unmanaged(d.slot)
    case Some(owner) => owner.ns != ns && c == Foreign(d.slot, owner.ns)
  }

  /** A conflict is reported if and only if an enabled stream's slot holds a stream outside the namespace. */
  lemma ErrorsAreSlotwise(ns: string, desired: seq<DesiredStream>, st: DaemonState, c: Conflict)
    ensures c in PlanErrors(ns, desired, st) <==>
            exists d :: && d in desired && d.enabled && Lookup(st, d.slot).Some?
                        && Explains(ns, d, Lookup(st, d.slot).value, c)
  {
    InConflicts(ns, Sender, desired, st, c);
    InConflicts(ns, Receiver, desired, st, c);
  }

  lemma {:induction false} InConflicts(ns: string, side: Side, desired: seq<DesiredStream>, st: DaemonState,
                                       c: Conflict)
    ensures c in DesiredConflicts(ns, side, desired, st) <==>
            exists d :: d in desired && d.slot.side == side && DesiredConflict(ns, d, Lookup(st, d.slot)) == Some(c)
  {
    if desired != [] {
      var rest, d := desired[..|desired| - 1], desired[|desired| - 1];
      assert desired == rest + [d];
      InConflicts(ns, side, rest, st, c);
    }
  }

  ghost predicate Named(payload: Json) {
    HasField(payload, "name") && payload.fields["name"].String?
  }

  /** The name the bridge writes is one it will know as its own. */
  ghost predicate Recognised(ns: string, d: DesiredStream) {
    var ownership := ParseManagedName(NameOf(d.payload));
    ownership.Some? && ownership.value.ns == ns
  }

  lemma StoredIsOwn(store: Storage, ns: string, d: DesiredStream)
    requires Named(d.payload) && !Drifted(store(d.slot, d.payload), d.payload)
    ensures OwnNamespace(ns, Stored(store, d.slot, d.payload)) <==> Recognised(ns, d)
  {
    UndriftedKeepsName(store(d.slot, d.payload), d.payload);
  }

  lemma {:induction false} SameConflicts(ns: string, side: Side, desired: seq<DesiredStream>, st: DaemonState,
                                         st': DaemonState)
    requires forall d :: d in desired ==>
               DesiredConflict(ns, d, Lookup(st, d.slot)) == DesiredConflict(ns, d, Lookup(st', d.slot))
    ensures DesiredConflicts(ns, side, desired, st) == DesiredConflicts(ns, side, desired, st')
  {
    if desired != [] {
      SameConflicts(ns, side, desired[..|desired| - 1], st, st');
    }
  }

  ghost predicate ErrorsPersist(store: Storage, ns: string, desired: seq<DesiredStream>, st: DaemonState) {
    PlanErrors(ns, desired, Pass(store, ns, desired, st)) == PlanErrors(ns, desired, st)
  }

  /** From every state, planning again after a complete pass yields no operation and the same conflicts. */
  ghost predicate Converges(store: Storage, ns: string, desired: seq<DesiredStream>) {
    forall st :: PlanOps(ns, desired, Pass(store, ns, desired, st)) == [] && ErrorsPersist(store, ns, desired, st)
  }

  /** What the daemon makes of the stream is still the bridge's own, and has not drifted. */
  ghost predicate KeptAsOwn(store: Storage, ns: string, d: DesiredStream) {
    OwnNamespace(ns, Stored(store, d.slot, d.payload)) && !Drifted(store(d.slot, d.payload), d.payload)
  }

  /** Convergence, with its exact condition for any daemon: each enabled stream is kept as the bridge's own. */
  lemma ConvergesIffKept(store: Storage, ns: string, desired: seq<DesiredStream>)
    requires UniqueSlots(desired)
    ensures Converges(store, ns, desired) <==> forall d :: d in desired && d.enabled ==> KeptAsOwn(store, ns, d)
  {
    QuietIffNoneRewritten(store, ns, desired);
    if forall d :: d in desired && d.enabled ==> KeptAsOwn(store, ns, d) {
      forall st
        ensures ErrorsPersist(store, ns, desired, st)
      {
        KeptErrorsPersist(store, ns, desired, st);
      }
    }
    if d :| d in desired && d.enabled && !KeptAsOwn(store, ns, d) && !RewrittenOnSight(store, ns, d) {
      UnownedConflicts(store, ns, desired, d);
    }
  }

  /** With a daemon that keeps what the streams set: each enabled stream carries a name the bridge recognises. */
  lemma ConvergesIffRecognised(store: Storage, ns: string, desired: seq<DesiredStream>)
    requires UniqueSlots(desired) && Keeps(store, desired)
    requires forall d :: d in desired && d.enabled ==> Named(d.payload)
    ensures Converges(store, ns, desired) <==> forall d :: d in desired && d.enabled ==> Recognised(ns, d)
  {
    ConvergesIffKept(store, ns, desired);
    forall d | d in desired && d.enabled
      ensures KeptAsOwn(store, ns, d) <==> Recognised(ns, d)
    {
      StoredIsOwn(store, ns, d);
    }
  }

  lemma KeptErrorsPersist(store: Storage, ns: string, desired: seq<DesiredStream>, st: DaemonState)
    requires UniqueSlots(desired)
    requires forall d :: d in desired && d.enabled ==> KeptAsOwn(store, ns, d)
    ensures ErrorsPersist(store, ns, desired, st)
  {
    var after := Pass(store, ns, desired, st);
    forall d | d in desired
      ensures DesiredConflict(ns, d, Lookup(after, d.slot)) == DesiredConflict(ns, d, Lookup(st, d.slot))
    {
      PassRefinesTarget(store, ns, desired, st, d.slot);
      EnabledAtIs(desired, d);
    }
    SameConflicts(ns, Sender, desired, after, st);
    SameConflicts(ns, Receiver, desired, after, st);
  }

  lemma {:induction false} EmptyHasNoConflicts(ns: string, side: Side, desired: seq<DesiredStream>)
    ensures DesiredConflicts(ns, side, desired, DaemonState(map[], map[])) == []
  {
    if desired != [] {
      EmptyHasNoConflicts(ns, side, desired[..|desired| - 1]);
    }
  }

  /** A stream that is stored under another name than an own one is, once created, a conflict for the very bridge
      that created it. */
  lemma UnownedConflicts(store: Storage, ns: string, desired: seq<DesiredStream>, d: DesiredStream)
    requires UniqueSlots(desired) && d in desired && d.enabled
    requires !OwnNamespace(ns, Stored(store, d.slot, d.payload))
    ensures !ErrorsPersist(store, ns, desired, DaemonState(map[], map[]))
  {
    var empty := DaemonState(map[], map[]);
    var after := Pass(store, ns, desired, empty);
    PassRefinesTarget(store, ns, desired, empty, d.slot);
    EnabledAtIs(desired, d);
    assert Lookup(after, d.slot) == Some(Stored(store, d.slot, d.payload));
    var c := DesiredConflict(ns, d, Lookup(after, d.slot)).value;
    InConflicts(ns, d.slot.side, desired, after, c);
    EmptyHasNoConflicts(ns, Sender, desired);
    EmptyHasNoConflicts(ns, Receiver, desired);
    assert c in PlanErrors(ns, desired, after);
  }

  // ----- the last desired list wins -----

  /** A slot's two contents that the bridge cannot tell apart: equal where it may not write, and both holding
      every field it sets where it does. */
  ghost predicate Alike(ns: string, desired: seq<DesiredStream>, slot: Slot,
                        a: Option<DaemonStream>, b: Option<DaemonStream>) {
    a == b
    || (&& a.Some? && b.Some? && EnabledAt(desired, slot).Some?
        && OwnNamespace(ns, a.value) && OwnNamespace(ns, b.value)
        && !Drifted(a.value.payload, EnabledAt(desired, slot).value)
        && !Drifted(b.value.payload, EnabledAt(desired, slot).value))
  }

  /** An own-namespace stream on the wrong side, about to be rewritten by the stale list and unwanted by the
      current one. */
  ghost predicate Misfiled(ns: string, stale: seq<DesiredStream>, current: seq<DesiredStream>, slot: Slot,
                           held: Option<DaemonStream>) {
    && held.Some? && OwnNamespace(ns, held.value) && !OwnedOn(ns, slot.side, held.value)
    && EnabledAt(current, slot).None?
    && EnabledAt(stale, slot).Some? && Drifted(held.value.payload, EnabledAt(stale, slot).value)
  }

  /** The stream's payload names the bridge, and the side the stream is filed on. */
  ghost predicate MarkedOn(ns: string, d: DesiredStream) {
    && Named(d.payload) && Recognised(ns, d)
    && ParseManagedName(NameOf(d.payload)).value.side == d.slot.side
  }

  ghost predicate WellMarked(ns: string, desired: seq<DesiredStream>) {
    forall d :: d in desired && d.enabled ==> MarkedOn(ns, d)
  }

  lemma StoredIsOwned(store: Storage, ns: string, desired: seq<DesiredStream>, slot: Slot)
    requires WellMarked(ns, desired) && Keeps(store, desired) && EnabledAt(desired, slot).Some?
    ensures OwnedOn(ns, slot.side, Stored(store, slot, EnabledAt(desired, slot).value))
  {
    var d :| d in desired && d.enabled && d.slot == slot && EnabledAt(desired, slot) == Some(d.payload);
    assert MarkedOn(ns, d);
    UndriftedKeepsName(store(slot, d.payload), d.payload);
  }

  lemma LastWinsInSlot(store: Storage, ns: string, stale: seq<DesiredStream>, current: seq<DesiredStream>,
                       slot: Slot, held: Option<DaemonStream>)
    requires WellMarked(ns, stale) && WellMarked(ns, current) && Keeps(store, stale) && Keeps(store, current)
    ensures Alike(ns, current, slot,
                  Target(store, ns, current, slot, Target(store, ns, stale, slot, held)),
                  Target(store, ns, current, slot, held))
            <==> !Misfiled(ns, stale, current, slot, held)
  {
    if EnabledAt(stale, slot).Some? {
      StoredIsOwned(store, ns, stale, slot);
    }
    if EnabledAt(current, slot).Some? {
      StoredIsOwned(store, ns, current, slot);
      assert !Drifted(store(slot, EnabledAt(current, slot).value), EnabledAt(current, slot).value);
    }
  }

  /** Reconciling with a stale list and then the current one leaves what reconciling with the current one alone
      leaves, up to fields only the daemon sets, if and only if no slot holds a misfiled stream of the
      namespace that the stale list rewrites and the current one does not want. */
  lemma LastDesiredWins(store: Storage, ns: string, stale: seq<DesiredStream>, current: seq<DesiredStream>,
                        st: DaemonState)
    requires UniqueSlots(stale) && WellMarked(ns, stale) && Keeps(store, stale)
    requires UniqueSlots(current) && WellMarked(ns, current) && Keeps(store, current)
    ensures var both := Pass(store, ns, current, Pass(store, ns, stale, st));
            var alone := Pass(store, ns, current, st);
            (forall slot :: Alike(ns, current, slot, Lookup(both, slot), Lookup(alone, slot)))
            <==> forall slot :: !Misfiled(ns, stale, current, slot, Lookup(st, slot))
  {
    var mid := Pass(store, ns, stale, st);
    var both, alone := Pass(store, ns, current, mid), Pass(store, ns, current, st);
    forall slot
      ensures Alike(ns, current, slot, Lookup(both, slot), Lookup(alone, slot))
              <==> !Misfiled(ns, stale, current, slot, Lookup(st, slot))
    {
      PassRefinesTarget(store, ns, stale, st, slot);
      PassRefinesTarget(store, ns, current, mid, slot);
      PassRefinesTarget(store, ns, current, st, slot);
      LastWinsInSlot(store, ns, stale, current, slot, Lookup(st, slot));
    }
  }
}
