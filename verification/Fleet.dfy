/** Several bridges sharing one daemon, each with its own namespace. */
module Fleet {
  import opened Wrappers
  import opened JsonValues
  import opened Ownership
  import opened DaemonStates
  import opened Reconcilers
  import opened Targets
  import opened Convergence

  datatype Bridge = Bridge(ns: string, desired: seq<DesiredStream>)

  /** Nothing the one bridge writes is, as the daemon lists it, a stream the other takes for its own. */
  ghost predicate Spares(store: Storage, writer: Bridge, other: Bridge) {
    forall d :: d in writer.desired && d.enabled ==> !OwnNamespace(other.ns, Stored(store, d.slot, d.payload))
  }

  /** Bridges that leave one another alone. A name in nobody's namespace, not even its writer's, is allowed. */
  ghost predicate ValidFleet(store: Storage, bridges: seq<Bridge>) {
    && (forall i :: 0 <= i < |bridges| ==> UniqueSlots(bridges[i].desired))
    && (forall i, j :: 0 <= i < |bridges| && 0 <= j < |bridges| && i != j ==> Spares(store, bridges[i], bridges[j]))
  }

  /** Where the daemon keeps what the bridges set, different namespaces and well marked names are enough. */
  lemma WellMarkedFleet(store: Storage, bridges: seq<Bridge>)
    requires forall i, j :: 0 <= i < j < |bridges| ==> bridges[i].ns != bridges[j].ns
    requires forall i :: 0 <= i < |bridges| ==>
               && UniqueSlots(bridges[i].desired) && WellMarked(bridges[i].ns, bridges[i].desired)
               && Keeps(store, bridges[i].desired)
    ensures ValidFleet(store, bridges)
    ensures forall i :: 0 <= i < |bridges| ==> NoneRewritten(store, bridges[i].ns, bridges[i].desired)
  {
    forall i, j | 0 <= i < |bridges| && 0 <= j < |bridges| && i != j
      ensures Spares(store, bridges[i], bridges[j])
    {
      assert bridges[i].ns != bridges[j].ns;
      WellMarkedSpares(store, bridges[i], bridges[j]);
    }
    forall i | 0 <= i < |bridges|
      ensures NoneRewritten(store, bridges[i].ns, bridges[i].desired)
    {
      KeptAreNotRewritten(store, bridges[i].ns, bridges[i].desired);
    }
  }

  lemma WellMarkedSpares(store: Storage, writer: Bridge, other: Bridge)
    requires WellMarked(writer.ns, writer.desired) && Keeps(store, writer.desired) && writer.ns != other.ns
    ensures Spares(store, writer, other)
  {
    hide Drifted;
    forall d | d in writer.desired && d.enabled
      ensures !OwnNamespace(other.ns, Stored(store, d.slot, d.payload))
    {
      assert MarkedOn(writer.ns, d);
      StoredIsOwn(store, writer.ns, d);
    }
  }

  /** The order in which bridges take their passes; passes do not overlap. */
  ghost predicate Schedule(bridges: seq<Bridge>, turns: seq<nat>) {
    forall k :: 0 <= k < |turns| ==> turns[k] < |bridges|
  }

  /** A full round: every bridge takes at least one pass, in any order and however often. */
  ghost predicate Round(bridges: seq<Bridge>, turns: seq<nat>) {
    Schedule(bridges, turns) && forall i :: 0 <= i < |bridges| ==> i in turns
  }

  ghost function RunFleet(store: Storage, bridges: seq<Bridge>, turns: seq<nat>, st: DaemonState): DaemonState
    requires Schedule(bridges, turns)
  {
    if turns == [] then st else
    var b := bridges[turns[|turns| - 1]];
    Pass(store, b.ns, b.desired, RunFleet(store, bridges, turns[..|turns| - 1], st))
  }

  /** Bridge i's rule for one slot. */
  ghost function Rule(store: Storage, b: Bridge, slot: Slot, held: Option<DaemonStream>): Option<DaemonStream> {
    Target(store, b.ns, b.desired, slot, held)
  }

  /** The slot holds nothing that bridge b would rewrite or remove. */
  ghost predicate LetAlone(store: Storage, b: Bridge, slot: Slot, held: Option<DaemonStream>) {
    held.None? || Rule(store, b, slot, held) == held
  }

  ghost predicate AllLetAlone(store: Storage, bridges: seq<Bridge>, slot: Slot, held: Option<DaemonStream>) {
    forall i :: 0 <= i < |bridges| ==> LetAlone(store, bridges[i], slot, held)
  }

  lemma FleetSlot(store: Storage, bridges: seq<Bridge>, turns: seq<nat>, st: DaemonState, slot: Slot)
    requires ValidFleet(store, bridges) && Schedule(bridges, turns) && turns != []
    ensures var before := RunFleet(store, bridges, turns[..|turns| - 1], st);
            Lookup(RunFleet(store, bridges, turns, st), slot)
            == Rule(store, bridges[turns[|turns| - 1]], slot, Lookup(before, slot))
  {
    var b := bridges[turns[|turns| - 1]];
    PassRefinesTarget(store, b.ns, b.desired, RunFleet(store, bridges, turns[..|turns| - 1], st), slot);
  }

  /** One bridge's pass never unsettles a slot for another that it spares. */
  lemma OthersLetAlone(store: Storage, b: Bridge, other: Bridge, slot: Slot, held: Option<DaemonStream>)
    requires Spares(store, other, b)
    requires LetAlone(store, b, slot, held)
    ensures LetAlone(store, b, slot, Rule(store, other, slot, held))
  {
    hide Drifted, OwnNamespace;
  }

  /** Once a bridge has had a pass, every slot is settled for it, and stays so. */
  lemma {:induction false} SettledAfterTurn(store: Storage, bridges: seq<Bridge>, turns: seq<nat>,
                                            st: DaemonState, slot: Slot, i: nat)
    requires ValidFleet(store, bridges) && Schedule(bridges, turns) && i < |bridges|
    requires i in turns || LetAlone(store, bridges[i], slot, Lookup(st, slot))
    ensures LetAlone(store, bridges[i], slot, Lookup(RunFleet(store, bridges, turns, st), slot))
    decreases |turns|
  {
    hide Target, Lookup, PlanOps, Spares;
    if turns != [] {
      var rest, last := turns[..|turns| - 1], turns[|turns| - 1];
      assert turns == rest + [last];
      var before := Lookup(RunFleet(store, bridges, rest, st), slot);
      FleetSlot(store, bridges, turns, st, slot);
      if last == i {
        TargetIdempotent(store, bridges[i].ns, bridges[i].desired, slot, before);
      } else {
        SettledAfterTurn(store, bridges, rest, st, slot, i);
        OthersLetAlone(store, bridges[i], bridges[last], slot, before);
      }
    }
  }

  /** From a slot settled for all, a bridge that has had its turn has nothing left to do there: either some
      bridge has filled the slot, or this one does not want it. */
  lemma {:induction false} TurnFixesSlot(store: Storage, bridges: seq<Bridge>, turns: seq<nat>,
                                         st: DaemonState, slot: Slot, i: nat)
    requires ValidFleet(store, bridges) && Schedule(bridges, turns) && i in turns
    requires AllLetAlone(store, bridges, slot, Lookup(st, slot))
    ensures var held := Lookup(RunFleet(store, bridges, turns, st), slot);
            Rule(store, bridges[i], slot, held) == held
    decreases |turns|
  {
    var rest, last := turns[..|turns| - 1], turns[|turns| - 1];
    assert turns == rest + [last];
    var before := Lookup(RunFleet(store, bridges, rest, st), slot);
    FleetSlot(store, bridges, turns, st, slot);
    forall j | 0 <= j < |bridges|
      ensures LetAlone(store, bridges[j], slot, before)
    {
      SettledAfterTurn(store, bridges, rest, st, slot, j);
    }
    if last == i {
      TargetIdempotent(store, bridges[i].ns, bridges[i].desired, slot, before);
    } else {
      TurnFixesSlot(store, bridges, rest, st, slot, i);
      OthersLetAlone(store, bridges[i], bridges[last], slot, before);
    }
  }

  lemma {:induction false} FleetAppends(store: Storage, bridges: seq<Bridge>, first: seq<nat>,
                                        second: seq<nat>, st: DaemonState)
    requires Schedule(bridges, first) && Schedule(bridges, second)
    ensures Schedule(bridges, first + second)
    ensures RunFleet(store, bridges, first + second, st)
            == RunFleet(store, bridges, second, RunFleet(store, bridges, first, st))
    decreases |second|
  {
    hide Pass;
    if second == [] {
      assert first + second == first;
    } else {
      var rest := second[..|second| - 1];
      assert (first + second)[..|first + second| - 1] == first + rest;
      FleetAppends(store, bridges, first, rest, st);
    }
  }

  /** After two full rounds every slot is as each bridge of the fleet wants it, whatever the daemon held at the
      start, even where bridges want the same slots. A bridge with nothing to rewrite on sight then plans nothing. */
  lemma TwoRoundsSettleTheFleet(store: Storage, bridges: seq<Bridge>, first: seq<nat>, second: seq<nat>,
                                st: DaemonState, i: nat)
    requires ValidFleet(store, bridges) && Round(bridges, first) && Round(bridges, second) && i < |bridges|
    ensures Schedule(bridges, first + second)
    ensures var b, end := bridges[i], RunFleet(store, bridges, first + second, st);
            && Settled(store, b.ns, b.desired, end)
            && (NoneRewritten(store, b.ns, b.desired) ==> PlanOps(b.ns, b.desired, end) == [])
  {
    hide NoneRewritten;
    FleetAppends(store, bridges, first, second, st);
    var mid := RunFleet(store, bridges, first, st);
    var end := RunFleet(store, bridges, second, mid);
    forall slot
      ensures Target(store, bridges[i].ns, bridges[i].desired, slot, Lookup(end, slot)) == Lookup(end, slot)
    {
      AllLetAloneAfterRound(store, bridges, first, st, slot);
      TurnFixesSlot(store, bridges, second, mid, slot, i);
    }
    if NoneRewritten(store, bridges[i].ns, bridges[i].desired) {
      QuietIffSettled(store, bridges[i].ns, bridges[i].desired, end);
    }
  }

  lemma AllLetAloneAfterRound(store: Storage, bridges: seq<Bridge>, turns: seq<nat>, st: DaemonState, slot: Slot)
    requires ValidFleet(store, bridges) && Round(bridges, turns)
    ensures AllLetAlone(store, bridges, slot, Lookup(RunFleet(store, bridges, turns, st), slot))
  {
    forall j | 0 <= j < |bridges|
      ensures LetAlone(store, bridges[j], slot, Lookup(RunFleet(store, bridges, turns, st), slot))
    {
      SettledAfterTurn(store, bridges, turns, st, slot, j);
    }
  }

  /** After one full round the bridges only create: no later plan of any of them updates or removes. */
  lemma LaterRoundsOnlyCreate(store: Storage, bridges: seq<Bridge>, first: seq<nat>, later: seq<nat>,
                              st: DaemonState, i: nat, op: PlannedOp)
    requires ValidFleet(store, bridges) && Round(bridges, first) && Schedule(bridges, later) && i < |bridges|
    requires NoneRewritten(store, bridges[i].ns, bridges[i].desired)
    requires Schedule(bridges, first + later)
    requires op in PlanOps(bridges[i].ns, bridges[i].desired, RunFleet(store, bridges, first + later, st))
    ensures op.action == Create
  {
    var b := bridges[i];
    var now := RunFleet(store, bridges, first + later, st);
    PlanIsSlotwise(b.ns, b.desired, now);
    SettledAfterTurn(store, bridges, first + later, st, op.slot, i);
    NeededIffDisagrees(store, b.ns, b.desired, op.slot, Lookup(now, op.slot));
  }

  // ----- bridges that do not spare each other -----

  /** What a bridge would put in a slot. */
  ghost function Wanted(store: Storage, b: Bridge, slot: Slot): Option<DaemonStream> {
    match EnabledAt(b.desired, slot)
    case Some(payload) => Some(Stored(store, slot, payload))
    case None => None
  }

  /** The bridge would write over what the slot holds. */
  ghost predicate Takes(b: Bridge, slot: Slot, held: DaemonStream) {
    match EnabledAt(b.desired, slot)
    case Some(payload) => OwnNamespace(b.ns, held) && Drifted(held.payload, payload)
    case None => OwnedOn(b.ns, slot.side, held)
  }

  /** The second bridge takes what the first one puts in the slot for its own, and removes it or, where the first
      in turn rewrites what it is replaced by, rewrites it. */
  ghost predicate Undoes(store: Storage, second: Bridge, first: Bridge, slot: Slot) {
    var a, b := Wanted(store, first, slot), Wanted(store, second, slot);
    a.Some? && Takes(second, slot, a.value) && (b.Some? ==> a != b && Takes(first, slot, b.value))
  }

  /** A pair of bridges at odds over a slot. */
  ghost predicate Clash(store: Storage, a: Bridge, b: Bridge, slot: Slot) {
    Undoes(store, a, b, slot) || Undoes(store, b, a, slot)
  }

  ghost function Turns(i: nat, j: nat, n: nat): seq<nat> {
    if n == 0 then [] else Turns(i, j, n - 1) + [i, j]
  }

  /** What the second bridge leaves of what the first one wrote is empty or its own, and either way the first
      bridge has its stream to write again. */
  lemma UndoneAgain(store: Storage, first: Bridge, second: Bridge, slot: Slot, held: Option<DaemonStream>)
    requires Undoes(store, second, first, slot) && (held.None? || held == Wanted(store, second, slot))
    ensures Rule(store, first, slot, held) == Wanted(store, first, slot) != held
    ensures Rule(store, second, slot, Wanted(store, first, slot)) == Wanted(store, second, slot)
  {
    hide Drifted, OwnNamespace;
  }

  lemma TwoTurns(store: Storage, bridges: seq<Bridge>, i: nat, j: nat, st: DaemonState)
    requires i < |bridges| && j < |bridges|
    ensures Schedule(bridges, [i, j])
    ensures RunFleet(store, bridges, [i, j], st)
            == Pass(store, bridges[j].ns, bridges[j].desired,
                    Pass(store, bridges[i].ns, bridges[i].desired, st))
  {
    var turns: seq<nat> := [i, j];
    var one: seq<nat> := [i];
    assert turns[..1] == one && one[..0] == [];
    assert RunFleet(store, bridges, one, st) == Pass(store, bridges[i].ns, bridges[i].desired, st);
  }

  /** From an empty slot, a pair of which the one undoes the other never comes to rest: after any number of turns
      of both, the first plans to write its stream again. */
  lemma {:induction false} UndoneForEver(store: Storage, bridges: seq<Bridge>, i: nat, j: nat, slot: Slot,
                                         n: nat, st: DaemonState)
    requires i < |bridges| && j < |bridges|
    requires UniqueSlots(bridges[i].desired) && UniqueSlots(bridges[j].desired)
    requires Undoes(store, bridges[j], bridges[i], slot) && Lookup(st, slot).None?
    ensures Schedule(bridges, Turns(i, j, n))
    ensures var held := Lookup(RunFleet(store, bridges, Turns(i, j, n), st), slot);
            held.None? || held == Wanted(store, bridges[j], slot)
    ensures !Settled(store, bridges[i].ns, bridges[i].desired, RunFleet(store, bridges, Turns(i, j, n), st))
    ensures PlanOps(bridges[i].ns, bridges[i].desired, RunFleet(store, bridges, Turns(i, j, n), st)) != []
  {
    hide Undoes, PlanOps, Lookup, Wanted, Target;
    var first, second := bridges[i], bridges[j];
    if n > 0 {
      UndoneForEver(store, bridges, i, j, slot, n - 1, st);
      var before := RunFleet(store, bridges, Turns(i, j, n - 1), st);
      TwoTurns(store, bridges, i, j, before);
      FleetAppends(store, bridges, Turns(i, j, n - 1), [i, j], st);
      var mid := Pass(store, first.ns, first.desired, before);
      PassRefinesTarget(store, first.ns, first.desired, before, slot);
      PassRefinesTarget(store, second.ns, second.desired, mid, slot);
      UndoneAgain(store, first, second, slot, Lookup(before, slot));
    }
    var now := RunFleet(store, bridges, Turns(i, j, n), st);
    UndoneAgain(store, first, second, slot, Lookup(now, slot));
    assert Rule(store, first, slot, Lookup(now, slot)) != Lookup(now, slot);
    if PlanOps(first.ns, first.desired, now) == [] {
      QuietIsSettled(store, first.ns, first.desired, now);
      assert false;
    }
  }

  // ----- two bridges: exactly when they settle -----

  /** The slot is as both bridges want it. */
  ghost predicate AtRest(store: Storage, a: Bridge, b: Bridge, slot: Slot, held: Option<DaemonStream>) {
    Rule(store, a, slot, held) == held && Rule(store, b, slot, held) == held
  }

  /** Without a clash, a turn of the one, the other and the one again bring any slot to rest. */
  lemma ThreeTurnsRest(store: Storage, a: Bridge, b: Bridge, slot: Slot, held: Option<DaemonStream>)
    requires !Clash(store, a, b, slot)
    ensures var once := Rule(store, a, slot, held);
            AtRest(store, a, b, slot, Rule(store, a, slot, Rule(store, b, slot, once)))
  {
    hide Drifted, OwnNamespace, ParseManagedName;
  }

  /** After a round of two bridges, a slot is as the last of them left what the other had left. */
  lemma {:induction false} RoundOfTwo(store: Storage, bridges: seq<Bridge>, turns: seq<nat>, st: DaemonState,
                                      slot: Slot) returns (once: Option<DaemonStream>, twice: Option<DaemonStream>)
    requires |bridges| == 2 && AllUnique(bridges)
    requires Schedule(bridges, turns) && turns != []
    ensures var last := turns[|turns| - 1];
            var now := Lookup(RunFleet(store, bridges, turns, st), slot);
            && now == Rule(store, bridges[last], slot, once)
            && (1 - last in turns ==> once == Rule(store, bridges[1 - last], slot, twice))
    decreases |turns|
  {
    hide Target, PlanOps, Lookup;
    var rest, last := turns[..|turns| - 1], turns[|turns| - 1];
    assert turns == rest + [last];
    var before := RunFleet(store, bridges, rest, st);
    PassRefinesTarget(store, bridges[last].ns, bridges[last].desired, before, slot);
    once, twice := Lookup(before, slot), None;
    if rest != [] {
      var o, t := RoundOfTwo(store, bridges, rest, st, slot);
      if rest[|rest| - 1] == last {
        TargetIdempotent(store, bridges[last].ns, bridges[last].desired, slot, o);
        once, twice := o, t;
      } else {
        twice := o;
      }
    }
  }

  /** A slot that one more turn of bridge j brings to rest comes to rest with j's next turn, and stays there. */
  lemma {:induction false} OneTurnLeft(store: Storage, bridges: seq<Bridge>, turns: seq<nat>, st: DaemonState,
                                       slot: Slot, j: nat)
    requires |bridges| == 2 && AllUnique(bridges)
    requires Schedule(bridges, turns) && j < 2
    requires var held := Lookup(st, slot);
             && Rule(store, bridges[1 - j], slot, held) == held
             && AtRest(store, bridges[0], bridges[1], slot, Rule(store, bridges[j], slot, held))
    ensures var held, now := Lookup(st, slot), Lookup(RunFleet(store, bridges, turns, st), slot);
            now == if j in turns then Rule(store, bridges[j], slot, held) else held
    decreases |turns|
  {
    hide Target, PlanOps, Lookup;
    if turns != [] {
      var rest, last := turns[..|turns| - 1], turns[|turns| - 1];
      assert turns == rest + [last];
      OneTurnLeft(store, bridges, rest, st, slot, j);
      PassRefinesTarget(store, bridges[last].ns, bridges[last].desired, RunFleet(store, bridges, rest, st), slot);
    }
  }

  lemma PairRests(store: Storage, bridges: seq<Bridge>, first: seq<nat>, second: seq<nat>, st: DaemonState,
                  slot: Slot)
    requires |bridges| == 2 && AllUnique(bridges)
    requires Round(bridges, first) && Round(bridges, second) && !Clash(store, bridges[0], bridges[1], slot)
    ensures var end := RunFleet(store, bridges, second, RunFleet(store, bridges, first, st));
            AtRest(store, bridges[0], bridges[1], slot, Lookup(end, slot))
  {
    hide Target, PlanOps, Lookup, Clash;
    assert 0 in first && 0 in second && 1 in first && 1 in second;
    var once, twice := RoundOfTwo(store, bridges, first, st, slot);
    var last := first[|first| - 1];
    var i, j := bridges[last], bridges[1 - last];
    ClashIsMutual(store, bridges[0], bridges[1], slot);
    ThreeTurnsRest(store, j, i, slot, twice);
    TargetIdempotent(store, i.ns, i.desired, slot, once);
    OneTurnLeft(store, bridges, second, RunFleet(store, bridges, first, st), slot, 1 - last);
  }

  lemma ClashIsMutual(store: Storage, a: Bridge, b: Bridge, slot: Slot)
    ensures Clash(store, a, b, slot) == Clash(store, b, a, slot)
  {
  }

  ghost predicate Quiet(bridges: seq<Bridge>, st: DaemonState) {
    forall i :: 0 <= i < |bridges| ==> PlanOps(bridges[i].ns, bridges[i].desired, st) == []
  }

  /** Every slot is as each bridge wants it. */
  ghost predicate AllSettled(store: Storage, bridges: seq<Bridge>, st: DaemonState) {
    forall i :: 0 <= i < |bridges| ==> Settled(store, bridges[i].ns, bridges[i].desired, st)
  }

  ghost predicate AllUnique(bridges: seq<Bridge>) {
    forall i :: 0 <= i < |bridges| ==> UniqueSlots(bridges[i].desired)
  }

  ghost predicate NoneOfThemRewritten(store: Storage, bridges: seq<Bridge>) {
    forall i :: 0 <= i < |bridges| ==> NoneRewritten(store, bridges[i].ns, bridges[i].desired)
  }

  lemma QuietIffAllSettled(store: Storage, bridges: seq<Bridge>, st: DaemonState)
    requires AllUnique(bridges)
    ensures Quiet(bridges, st) ==> AllSettled(store, bridges, st)
    ensures NoneOfThemRewritten(store, bridges) ==> (Quiet(bridges, st) <==> AllSettled(store, bridges, st))
  {
    hide PlanOps, Settled, NoneRewritten, UniqueSlots;
    forall i | 0 <= i < |bridges|
      ensures PlanOps(bridges[i].ns, bridges[i].desired, st) == [] ==>
                Settled(store, bridges[i].ns, bridges[i].desired, st)
      ensures NoneRewritten(store, bridges[i].ns, bridges[i].desired) ==>
                (PlanOps(bridges[i].ns, bridges[i].desired, st) == [] <==>
                 Settled(store, bridges[i].ns, bridges[i].desired, st))
    {
      if PlanOps(bridges[i].ns, bridges[i].desired, st) == [] {
        QuietIsSettled(store, bridges[i].ns, bridges[i].desired, st);
      }
      if NoneRewritten(store, bridges[i].ns, bridges[i].desired) {
        QuietIffSettled(store, bridges[i].ns, bridges[i].desired, st);
      }
    }
  }

  ghost function TwoRounds(store: Storage, bridges: seq<Bridge>, first: seq<nat>, second: seq<nat>, st: DaemonState)
    : DaemonState
    requires Round(bridges, first) && Round(bridges, second)
  {
    RunFleet(store, bridges, second, RunFleet(store, bridges, first, st))
  }

  /** From every state, two full rounds bring every slot to rest. */
  ghost predicate RestsInTwoRounds(store: Storage, bridges: seq<Bridge>) {
    forall st, first, second :: Round(bridges, first) && Round(bridges, second) ==>
      AllSettled(store, bridges, TwoRounds(store, bridges, first, second, st))
  }

  /** From every state, two full rounds leave no bridge anything to plan. */
  ghost predicate SettlesInTwoRounds(store: Storage, bridges: seq<Bridge>) {
    forall st, first, second :: Round(bridges, first) && Round(bridges, second) ==>
      Quiet(bridges, TwoRounds(store, bridges, first, second, st))
  }

  ghost predicate NoClash(store: Storage, a: Bridge, b: Bridge) {
    forall slot :: !Clash(store, a, b, slot)
  }

  /** Two bridges come to rest, from every state, if and only if they clash over no slot. Whatever their namespaces,
      their names and what the daemon keeps of them: it takes more for a clash than that one takes the other's
      stream for its own. */
  lemma PairRestsIff(store: Storage, bridges: seq<Bridge>)
    requires |bridges| == 2 && AllUnique(bridges)
    ensures RestsInTwoRounds(store, bridges) <==> NoClash(store, bridges[0], bridges[1])
  {
    hide Clash, TwoRounds, AllSettled;
    if NoClash(store, bridges[0], bridges[1]) {
      forall st, first, second | Round(bridges, first) && Round(bridges, second)
        ensures AllSettled(store, bridges, TwoRounds(store, bridges, first, second, st))
      {
        PairComesToRest(store, bridges, first, second, st);
      }
    } else {
      var slot :| Clash(store, bridges[0], bridges[1], slot);
      ClashingPairNeverRests(store, bridges, slot);
    }
  }

  /** Where nothing is rewritten on sight, the same goes for planning nothing more. */
  lemma PairSettlesIff(store: Storage, bridges: seq<Bridge>)
    requires |bridges| == 2 && AllUnique(bridges) && NoneOfThemRewritten(store, bridges)
    ensures SettlesInTwoRounds(store, bridges) <==> NoClash(store, bridges[0], bridges[1])
  {
    hide Quiet, AllSettled, NoClash, AllUnique, NoneOfThemRewritten, TwoRounds;
    PairRestsIff(store, bridges);
    forall st
      ensures Quiet(bridges, st) <==> AllSettled(store, bridges, st)
    {
      QuietIffAllSettled(store, bridges, st);
    }
  }

  /** To plan nothing is to be at rest. */
  lemma SettlingRests(store: Storage, bridges: seq<Bridge>)
    requires AllUnique(bridges) && SettlesInTwoRounds(store, bridges)
    ensures RestsInTwoRounds(store, bridges)
  {
    hide Quiet, AllSettled, AllUnique, TwoRounds;
    forall st
      ensures Quiet(bridges, st) ==> AllSettled(store, bridges, st)
    {
      QuietIffAllSettled(store, bridges, st);
    }
  }

  lemma PairComesToRest(store: Storage, bridges: seq<Bridge>, first: seq<nat>, second: seq<nat>, st: DaemonState)
    requires |bridges| == 2 && AllUnique(bridges)
    requires Round(bridges, first) && Round(bridges, second) && NoClash(store, bridges[0], bridges[1])
    ensures AllSettled(store, bridges, TwoRounds(store, bridges, first, second, st))
  {
    hide Clash, Target, PlanOps, Lookup;
    forall slot
      ensures AtRest(store, bridges[0], bridges[1], slot,
                     Lookup(TwoRounds(store, bridges, first, second, st), slot))
    {
      PairRests(store, bridges, first, second, st, slot);
    }
  }

  lemma ClashingPairNeverRests(store: Storage, bridges: seq<Bridge>, slot: Slot)
    requires |bridges| == 2 && AllUnique(bridges)
    requires Clash(store, bridges[0], bridges[1], slot)
    ensures !RestsInTwoRounds(store, bridges)
  {
    hide Undoes, PlanOps, RunFleet, Settled;
    var i: nat := if Undoes(store, bridges[1], bridges[0], slot) then 0 else 1;
    var empty := DaemonState(map[], map[]);
    var turns: seq<nat> := [i, 1 - i];
    assert turns[0] == i && turns[1] == 1 - i;
    assert Round(bridges, turns);
    UndoneForEver(store, bridges, i, 1 - i, slot, 2, empty);
    assert Turns(i, 1 - i, 2) == turns + turns by {
      assert Turns(i, 1 - i, 1) == turns;
    }
    FleetAppends(store, bridges, turns, turns, empty);
    var end := TwoRounds(store, bridges, turns, turns, empty);
    assert !Settled(store, bridges[i].ns, bridges[i].desired, end);
    assert !AllSettled(store, bridges, end);
  }

  /** A bridge that would rewrite on sight what it puts in a slot, and the other leaves there, always has something
      to plan once it holds the slot. */
  lemma RewrittenNeverSettles(store: Storage, bridges: seq<Bridge>, i: nat, d: DesiredStream)
    requires |bridges| == 2 && AllUnique(bridges) && i < 2 && d in bridges[i].desired && d.enabled
    requires RewrittenOnSight(store, bridges[i].ns, d)
    requires !Takes(bridges[1 - i], d.slot, Stored(store, d.slot, d.payload))
    ensures !SettlesInTwoRounds(store, bridges)
  {
    hide Drifted, OwnNamespace, PlanOps;
    var held := Some(Stored(store, d.slot, d.payload));
    var st := Write(DaemonState(map[], map[]), d.slot, held);
    EnabledAtIs(bridges[i].desired, d);
    var turns: seq<nat> := [0, 1];
    assert turns[0] == 0 && turns[1] == 1;
    assert Round(bridges, turns);
    OneTurnLeft(store, bridges, turns, st, d.slot, i);
    OneTurnLeft(store, bridges, turns, RunFleet(store, bridges, turns, st), d.slot, i);
    NeededAppears(bridges[i].ns, bridges[i].desired, TwoRounds(store, bridges, turns, turns, st), d.slot);
    assert !Quiet(bridges, TwoRounds(store, bridges, turns, turns, st));
  }

  // ----- the condition on the names -----

  /** An enabled stream of the one bridge in the slot carries a name that parses to the other's namespace. */
  ghost predicate NamedFor(writer: Bridge, other: Bridge, slot: Slot) {
    exists d :: d in writer.desired && d.enabled && d.slot == slot && Recognised(other.ns, d)
  }

  /** And the marker names the slot's side. */
  ghost predicate MarkedFor(writer: Bridge, other: Bridge, slot: Slot) {
    exists d :: d in writer.desired && d.enabled && d.slot == slot && MarkedOn(other.ns, d)
  }

  /** With a daemon that keeps what the bridges set, and different namespaces: the second bridge undoes the first's
      work in a slot exactly when it wants nothing there and the first writes its marker, or each writes the
      other's. */
  lemma UndoesIffNamed(store: Storage, second: Bridge, first: Bridge, slot: Slot)
    requires UniqueSlots(first.desired) && UniqueSlots(second.desired) && first.ns != second.ns
    requires Keeps(store, first.desired) && Keeps(store, second.desired)
    requires forall d :: d in first.desired + second.desired && d.enabled ==> Named(d.payload)
    ensures Undoes(store, second, first, slot)
            <==> if EnabledAt(second.desired, slot).None? then MarkedFor(first, second, slot)
                 else NamedFor(first, second, slot) && NamedFor(second, first, slot)
  {
    hide Drifted, ParseManagedName;
    if d :| d in first.desired && d.enabled && d.slot == slot {
      EnabledAtIs(first.desired, d);
      UndriftedKeepsName(store(slot, d.payload), d.payload);
      if e :| e in second.desired && e.enabled && e.slot == slot {
        EnabledAtIs(second.desired, e);
        UndriftedKeepsName(store(slot, e.payload), e.payload);
        if Recognised(second.ns, d) && Recognised(first.ns, e) {
          OtherNameDrifts(store(slot, d.payload), d.payload, e.payload);
          OtherNameDrifts(store(slot, e.payload), e.payload, d.payload);
        }
      }
    }
  }

  /** A copy of the one payload has drifted from another payload of another name. */
  lemma OtherNameDrifts(copy: Json, payload: Json, other: Json)
    requires Named(payload) && Named(other) && !Drifted(copy, payload) && NameOf(payload) != NameOf(other)
    ensures Drifted(copy, other)
  {
    UndriftedKeepsName(copy, payload);
    assert "name" in other.fields;
  }
}
