/** Any number of bridges with different namespaces on one daemon: exactly when they come to rest. */
module Takeovers {
  import JsonValues
  import opened Wrappers
  import opened DaemonStates
  import opened Reconcilers
  import opened Targets
  import opened Convergence
  import Configs
  import opened Fleet

  ghost predicate DistinctNamespaces(bridges: seq<Bridge>) {
    forall i, j :: 0 <= i < j < |bridges| ==> bridges[i].ns != bridges[j].ns
  }

  // ----- one slot -----

  /** What a row of turns makes of one slot. */
  ghost function RunSlot(store: Storage, bridges: seq<Bridge>, turns: seq<nat>, slot: Slot, held: Option<DaemonStream>)
    : Option<DaemonStream>
    requires Schedule(bridges, turns)
  {
    if turns == [] then held else
    Rule(store, bridges[turns[|turns| - 1]], slot, RunSlot(store, bridges, turns[..|turns| - 1], slot, held))
  }

  lemma {:induction false} RunFleetSlot(store: Storage, bridges: seq<Bridge>, turns: seq<nat>, st: DaemonState,
                                        slot: Slot)
    requires AllUnique(bridges) && Schedule(bridges, turns)
    ensures Lookup(RunFleet(store, bridges, turns, st), slot) == RunSlot(store, bridges, turns, slot, Lookup(st, slot))
    decreases |turns|
  {
    hide Target, Lookup, PlanOps;
    if turns != [] {
      var rest, b := turns[..|turns| - 1], bridges[turns[|turns| - 1]];
      RunFleetSlot(store, bridges, rest, st, slot);
      PassRefinesTarget(store, b.ns, b.desired, RunFleet(store, bridges, rest, st), slot);
    }
  }

  lemma {:induction false} SlotAppends(store: Storage, bridges: seq<Bridge>, first: seq<nat>, second: seq<nat>,
                                       slot: Slot, held: Option<DaemonStream>)
    requires Schedule(bridges, first) && Schedule(bridges, second)
    ensures Schedule(bridges, first + second)
    ensures RunSlot(store, bridges, first + second, slot, held)
            == RunSlot(store, bridges, second, slot, RunSlot(store, bridges, first, slot, held))
    decreases |second|
  {
    hide Rule;
    if second == [] {
      assert first + second == first;
    } else {
      var rest := second[..|second| - 1];
      assert (first + second)[..|first + second| - 1] == first + rest;
      SlotAppends(store, bridges, first, rest, slot, held);
    }
  }

  /** Bridge i would write over what the slot holds. */
  ghost predicate Moves(store: Storage, bridges: seq<Bridge>, slot: Slot, i: nat, held: Option<DaemonStream>)
    requires i < |bridges|
  {
    Rule(store, bridges[i], slot, held) != held
  }

  ghost predicate SlotAtRest(store: Storage, bridges: seq<Bridge>, slot: Slot, held: Option<DaemonStream>) {
    forall i: nat :: i < |bridges| ==> !Moves(store, bridges, slot, i, held)
  }

  /** A stream has at most one taker: the bridge its name belongs to. */
  lemma OneTaker(store: Storage, bridges: seq<Bridge>, slot: Slot, i: nat, j: nat, held: Option<DaemonStream>)
    requires DistinctNamespaces(bridges) && i < |bridges| && j < |bridges| && held.Some?
    requires Moves(store, bridges, slot, i, held) && Moves(store, bridges, slot, j, held)
    ensures i == j
  {
    hide JsonValues.Drifted;
    assert OwnNamespace(bridges[i].ns, held.value) && OwnNamespace(bridges[j].ns, held.value);
  }

  /** What its taker makes of a stream. */
  ghost function Next(store: Storage, bridges: seq<Bridge>, slot: Slot, held: Option<DaemonStream>)
    : Option<DaemonStream>
  {
    if held.Some? && exists i: nat :: i < |bridges| && Moves(store, bridges, slot, i, held) then
      var i: nat :| i < |bridges| && Moves(store, bridges, slot, i, held);
      Rule(store, bridges[i], slot, held)
    else held
  }

  lemma TurnIsNext(store: Storage, bridges: seq<Bridge>, slot: Slot, i: nat, held: Option<DaemonStream>)
    requires DistinctNamespaces(bridges) && i < |bridges| && held.Some?
    ensures Rule(store, bridges[i], slot, held)
            == if Moves(store, bridges, slot, i, held) then Next(store, bridges, slot, held) else held
  {
    hide Rule;
    if Moves(store, bridges, slot, i, held) {
      var j: nat :| j < |bridges| && Moves(store, bridges, slot, j, held)
                    && Next(store, bridges, slot, held) == Rule(store, bridges[j], slot, held);
      OneTaker(store, bridges, slot, i, j, held);
    }
  }

  /** The stream's fate after n takings. */
  ghost function Fate(store: Storage, bridges: seq<Bridge>, slot: Slot, held: Option<DaemonStream>, n: nat)
    : Option<DaemonStream>
  {
    if n == 0 then held else Next(store, bridges, slot, Fate(store, bridges, slot, held, n - 1))
  }

  lemma {:induction false} FateStays(store: Storage, bridges: seq<Bridge>, slot: Slot, held: Option<DaemonStream>,
                                     n: nat, m: nat)
    requires n <= m
    requires var at := Fate(store, bridges, slot, held, n); at.None? || SlotAtRest(store, bridges, slot, at)
    ensures Fate(store, bridges, slot, held, m) == Fate(store, bridges, slot, held, n)
    decreases m - n
  {
    hide Moves;
    if n < m {
      FateStays(store, bridges, slot, held, n, m - 1);
    }
  }

  lemma {:induction false} FateRepeats(store: Storage, bridges: seq<Bridge>, slot: Slot, held: Option<DaemonStream>,
                                       a: nat, b: nat, t: nat)
    requires Fate(store, bridges, slot, held, a) == Fate(store, bridges, slot, held, b)
    ensures Fate(store, bridges, slot, held, a + t) == Fate(store, bridges, slot, held, b + t)
  {
    hide Next;
    if t > 0 {
      FateRepeats(store, bridges, slot, held, a, b, t - 1);
    }
  }

  lemma {:induction false} FateCycles(store: Storage, bridges: seq<Bridge>, slot: Slot, held: Option<DaemonStream>,
                                      a: nat, period: nat, x: nat, c: nat)
    requires Fate(store, bridges, slot, held, a) == Fate(store, bridges, slot, held, a + period) && a <= x
    ensures Fate(store, bridges, slot, held, x + c * period) == Fate(store, bridges, slot, held, x)
    decreases c
  {
    hide Fate;
    if c > 0 {
      FateCycles(store, bridges, slot, held, a, period, x, c - 1);
      var t := x - a + (c - 1) * period;
      FateRepeats(store, bridges, slot, held, a, a + period, t);
      assert a + t == x + (c - 1) * period;
      assert a + period + t == x + c * period;
    } else {
      assert x + c * period == x;
    }
  }

  // ----- the condition -----

  /** Bridge i wants something in the slot. */
  ghost predicate Wants(store: Storage, bridges: seq<Bridge>, slot: Slot, i: nat) {
    i < |bridges| && Wanted(store, bridges[i], slot).Some?
  }

  /** Whoever's stream is put in the slot, it comes to rest there after no more takings than there are bridges: the
      takers form no ring, and none removes what another put there. */
  ghost predicate NoRing(store: Storage, bridges: seq<Bridge>, slot: Slot) {
    forall i: nat :: Wants(store, bridges, slot, i) ==>
      SlotAtRest(store, bridges, slot, Fate(store, bridges, slot, Wanted(store, bridges[i], slot), |bridges|))
  }

  lemma WriterMovesEmpty(store: Storage, bridges: seq<Bridge>, slot: Slot, i: nat)
    requires Wants(store, bridges, slot, i)
    ensures !SlotAtRest(store, bridges, slot, None)
    ensures Rule(store, bridges[i], slot, None) == Wanted(store, bridges[i], slot)
  {
    assert Moves(store, bridges, slot, i, None);
  }

  /** A turn leaves a slot as it is, or frees it, or fills it with what the bridge wants. */
  lemma TurnOptions(store: Storage, b: Bridge, slot: Slot, held: Option<DaemonStream>)
    ensures var now := Rule(store, b, slot, held);
            now == held || now == None || (Wanted(store, b, slot).Some? && now == Wanted(store, b, slot))
    ensures held.None? ==> Rule(store, b, slot, held) == Wanted(store, b, slot)
  {
    hide JsonValues.Drifted, OwnNamespace;
  }

  lemma NextOptions(store: Storage, bridges: seq<Bridge>, slot: Slot, held: Option<DaemonStream>)
    returns (i: nat)
    ensures var now := Next(store, bridges, slot, held);
            now == held || now == None || (Wants(store, bridges, slot, i) && now == Wanted(store, bridges[i], slot))
  {
    i := 0;
    hide Rule, Wanted;
    if held.Some? && exists j: nat :: j < |bridges| && Moves(store, bridges, slot, j, held) {
      i :| i < |bridges| && Moves(store, bridges, slot, i, held)
           && Next(store, bridges, slot, held) == Rule(store, bridges[i], slot, held);
      TurnOptions(store, bridges[i], slot, held);
    }
  }

  /** Until it is empty, the slot holds some bridge's stream. */
  lemma {:induction false} FateIsWanted(store: Storage, bridges: seq<Bridge>, slot: Slot, i: nat, n: nat)
    returns (j: nat)
    requires Wants(store, bridges, slot, i)
    ensures var at := Fate(store, bridges, slot, Wanted(store, bridges[i], slot), n);
            at.None? || (Wants(store, bridges, slot, j) && at == Wanted(store, bridges[j], slot))
  {
    hide Next, Wanted;
    if n == 0 {
      j := i;
    } else {
      var k := FateIsWanted(store, bridges, slot, i, n - 1);
      j := NextOptions(store, bridges, slot, Fate(store, bridges, slot, Wanted(store, bridges[i], slot), n - 1));
      if Fate(store, bridges, slot, Wanted(store, bridges[i], slot), n)
         == Fate(store, bridges, slot, Wanted(store, bridges[i], slot), n - 1) {
        j := k;
      }
    }
  }

  lemma FirstFate(store: Storage, bridges: seq<Bridge>, slot: Slot, i: nat, n: nat) returns (ids: seq<int>)
    requires Wants(store, bridges, slot, i)
    requires forall m: nat :: m < n ==> Fate(store, bridges, slot, Wanted(store, bridges[i], slot), m).Some?
    ensures |ids| == n
    ensures forall m :: 0 <= m < n ==>
              && 0 <= ids[m] < |bridges|
              && Fate(store, bridges, slot, Wanted(store, bridges[i], slot), m) == Wanted(store, bridges[ids[m]], slot)
  {
    hide Fate, Wanted;
    ids := [];
    for m := 0 to n
      invariant |ids| == m
      invariant forall k :: 0 <= k < m ==>
                  && 0 <= ids[k] < |bridges|
                  && Fate(store, bridges, slot, Wanted(store, bridges[i], slot), k)
                     == Wanted(store, bridges[ids[k]], slot)
    {
      var j := FateIsWanted(store, bridges, slot, i, m);
      ids := ids + [j];
    }
  }

  /** Among one more takings than there are bridges, some stream comes back. */
  lemma FateComesBack(store: Storage, bridges: seq<Bridge>, slot: Slot, i: nat) returns (a: nat, b: nat)
    requires Wants(store, bridges, slot, i)
    requires forall m: nat :: m <= |bridges| ==> Fate(store, bridges, slot, Wanted(store, bridges[i], slot), m).Some?
    ensures a < b <= |bridges|
    ensures var w := Wanted(store, bridges[i], slot);
            Fate(store, bridges, slot, w, a) == Fate(store, bridges, slot, w, b)
  {
    hide Fate, Wanted;
    var ids := FirstFate(store, bridges, slot, i, |bridges| + 1);
    if forall x, y :: 0 <= x < y < |ids| ==> ids[x] != ids[y] {
      Configs.DistinctBelow(ids, |bridges|);
      assert false;
    }
    a, b :| a < b < |ids| && ids[a] == ids[b];
  }

  /** A stream that comes to rest at all does so within as many takings as there are bridges. */
  lemma RestsSoonOrNever(store: Storage, bridges: seq<Bridge>, slot: Slot, i: nat, n: nat)
    requires Wants(store, bridges, slot, i)
    requires SlotAtRest(store, bridges, slot, Fate(store, bridges, slot, Wanted(store, bridges[i], slot), n))
    ensures SlotAtRest(store, bridges, slot,
                       Fate(store, bridges, slot, Wanted(store, bridges[i], slot), |bridges|))
  {
    hide Fate, SlotAtRest, Wanted;
    var w, size := Wanted(store, bridges[i], slot), |bridges|;
    WriterMovesEmpty(store, bridges, slot, i);
    if n <= size {
      FateStays(store, bridges, slot, w, n, size);
    } else {
      forall m: nat | m <= size
        ensures Fate(store, bridges, slot, w, m).Some?
      {
        if Fate(store, bridges, slot, w, m).None? {
          FateStays(store, bridges, slot, w, m, n);
          assert false;
        }
      }
      var a, b := FateComesBack(store, bridges, slot, i);
      LongFate(store, bridges, slot, w, a, b - a, size, n);
    }
  }

  lemma LongFate(store: Storage, bridges: seq<Bridge>, slot: Slot, w: Option<DaemonStream>,
                 a: nat, period: nat, size: nat, n: nat)
    requires period > 0 && a <= size && Fate(store, bridges, slot, w, a) == Fate(store, bridges, slot, w, a + period)
    requires SlotAtRest(store, bridges, slot, Fate(store, bridges, slot, w, n))
    ensures Fate(store, bridges, slot, w, size) == Fate(store, bridges, slot, w, n)
  {
    hide Fate, SlotAtRest;
    FateCycles(store, bridges, slot, w, a, period, size, n);
    assert n <= size + n * period;
    FateStays(store, bridges, slot, w, n, size + n * period);
  }

  // ----- without a ring: every slot comes to rest -----

  lemma FateIsSome(store: Storage, bridges: seq<Bridge>, slot: Slot, i: nat, n: nat)
    requires NoRing(store, bridges, slot) && Wants(store, bridges, slot, i)
    ensures Fate(store, bridges, slot, Wanted(store, bridges[i], slot), n).Some?
    ensures n >= |bridges| ==>
              SlotAtRest(store, bridges, slot, Fate(store, bridges, slot, Wanted(store, bridges[i], slot), n))
  {
    hide Fate, SlotAtRest, Wanted;
    var w, size := Wanted(store, bridges[i], slot), |bridges|;
    WriterMovesEmpty(store, bridges, slot, i);
    if n <= size {
      if Fate(store, bridges, slot, w, n).None? {
        FateStays(store, bridges, slot, w, n, size);
        assert false;
      }
    } else {
      FateStays(store, bridges, slot, w, size, n);
    }
  }

  /** The slot holds some bridge's stream after at least m takings. */
  ghost predicate OnChain(store: Storage, bridges: seq<Bridge>, slot: Slot, held: Option<DaemonStream>, m: nat) {
    exists i: nat, n: nat {:trigger Fate(store, bridges, slot, Wanted(store, bridges[i], slot), n)} ::
      Wants(store, bridges, slot, i) && m <= n && held == Fate(store, bridges, slot, Wanted(store, bridges[i], slot), n)
  }

  /** Turns take a stream further, unless no bridge among them takes it. */
  lemma {:induction false} TurnsTake(store: Storage, bridges: seq<Bridge>, turns: seq<nat>, slot: Slot,
                                     i: nat, n: nat) returns (n': nat)
    requires DistinctNamespaces(bridges) && NoRing(store, bridges, slot)
    requires Schedule(bridges, turns) && Wants(store, bridges, slot, i)
    ensures n <= n'
    ensures var w := Wanted(store, bridges[i], slot);
            var held := Fate(store, bridges, slot, w, n);
            && RunSlot(store, bridges, turns, slot, held) == Fate(store, bridges, slot, w, n')
            && (n' == n ==> forall j :: j in turns ==> !Moves(store, bridges, slot, j, held))
    decreases |turns|
  {
    hide Rule, Wanted, NoRing, Moves, Next;
    var w := Wanted(store, bridges[i], slot);
    if turns == [] {
      n' := n;
    } else {
      var rest, last := turns[..|turns| - 1], turns[|turns| - 1];
      assert turns == rest + [last];
      n' := TurnsTake(store, bridges, rest, slot, i, n);
      var before := Fate(store, bridges, slot, w, n');
      FateIsSome(store, bridges, slot, i, n');
      TurnIsNext(store, bridges, slot, last, before);
      if Moves(store, bridges, slot, last, before) {
        n' := n' + 1;
      } else {
        Unmoved(store, bridges, slot, last, before);
      }
    }
  }

  lemma Unmoved(store: Storage, bridges: seq<Bridge>, slot: Slot, i: nat, held: Option<DaemonStream>)
    requires i < |bridges|
    ensures !Moves(store, bridges, slot, i, held) <==> Rule(store, bridges[i], slot, held) == held
  {
  }

  lemma RestIsFate(store: Storage, bridges: seq<Bridge>, slot: Slot, held: Option<DaemonStream>, n: nat)
    requires SlotAtRest(store, bridges, slot, Fate(store, bridges, slot, held, n))
    ensures Fate(store, bridges, slot, held, n + 1) == Fate(store, bridges, slot, held, n)
  {
    FateStays(store, bridges, slot, held, n, n + 1);
  }

  /** A round takes a stream at least one step on. */
  lemma RoundTakes(store: Storage, bridges: seq<Bridge>, turns: seq<nat>, slot: Slot, held: Option<DaemonStream>,
                   m: nat)
    requires DistinctNamespaces(bridges) && NoRing(store, bridges, slot) && Round(bridges, turns)
    requires OnChain(store, bridges, slot, held, m)
    ensures OnChain(store, bridges, slot, RunSlot(store, bridges, turns, slot, held), m + 1)
  {
    hide Rule, Wanted, NoRing, Moves, Fate, RunSlot;
    var i: nat, n: nat :|
      Wants(store, bridges, slot, i) && m <= n
      && held == Fate(store, bridges, slot, Wanted(store, bridges[i], slot), n);
    var n' := TurnsTake(store, bridges, turns, slot, i, n);
    if n' == n {
      RestIsFate(store, bridges, slot, Wanted(store, bridges[i], slot), n);
      n' := n + 1;
    }
    assert RunSlot(store, bridges, turns, slot, held)
           == Fate(store, bridges, slot, Wanted(store, bridges[i], slot), n');
  }

  lemma {:induction false} RestIsKept(store: Storage, bridges: seq<Bridge>, turns: seq<nat>, slot: Slot,
                                      held: Option<DaemonStream>)
    requires SlotAtRest(store, bridges, slot, held) && Schedule(bridges, turns)
    ensures RunSlot(store, bridges, turns, slot, held) == held
    decreases |turns|
  {
    hide Rule;
    if turns != [] {
      RestIsKept(store, bridges, turns[..|turns| - 1], slot, held);
      assert !Moves(store, bridges, slot, turns[|turns| - 1], held);
    }
  }

  lemma WantedIsOnChain(store: Storage, bridges: seq<Bridge>, slot: Slot, i: nat)
    requires Wants(store, bridges, slot, i)
    ensures OnChain(store, bridges, slot, Wanted(store, bridges[i], slot), 0)
  {
    hide Wanted;
    assert Fate(store, bridges, slot, Wanted(store, bridges[i], slot), 0) == Wanted(store, bridges[i], slot);
  }

  lemma TurnKeepsChain(store: Storage, bridges: seq<Bridge>, slot: Slot, j: nat, held: Option<DaemonStream>)
    requires DistinctNamespaces(bridges) && NoRing(store, bridges, slot) && j < |bridges|
    requires OnChain(store, bridges, slot, held, 0)
    ensures OnChain(store, bridges, slot, Rule(store, bridges[j], slot, held), 0)
  {
    hide Rule, Wanted, NoRing, Next;
    var i: nat, n: nat :|
      Wants(store, bridges, slot, i) && held == Fate(store, bridges, slot, Wanted(store, bridges[i], slot), n);
    FateIsSome(store, bridges, slot, i, n);
    TurnIsNext(store, bridges, slot, j, held);
    assert Next(store, bridges, slot, held) == Fate(store, bridges, slot, Wanted(store, bridges[i], slot), n + 1);
  }

  /** What turns make of a slot: nothing, or an empty slot, or some bridge's stream. An empty slot stays empty only
      while nobody wants it. */
  lemma {:induction false} TurnsFromAny(store: Storage, bridges: seq<Bridge>, turns: seq<nat>, slot: Slot,
                                        held: Option<DaemonStream>)
    requires DistinctNamespaces(bridges) && NoRing(store, bridges, slot) && Schedule(bridges, turns)
    ensures var now := RunSlot(store, bridges, turns, slot, held);
            || (now == held && forall j :: j in turns ==> !Moves(store, bridges, slot, j, held))
            || (now.None? && held.Some?)
            || OnChain(store, bridges, slot, now, 0)
    decreases |turns|
  {
    hide Rule, Wanted, NoRing, OnChain, Moves;
    if turns != [] {
      var rest, last := turns[..|turns| - 1], turns[|turns| - 1];
      assert turns == rest + [last];
      TurnsFromAny(store, bridges, rest, slot, held);
      var before := RunSlot(store, bridges, rest, slot, held);
      TurnOptions(store, bridges[last], slot, before);
      Unmoved(store, bridges, slot, last, before);
      if Wants(store, bridges, slot, last) {
        WantedIsOnChain(store, bridges, slot, last);
      }
      if OnChain(store, bridges, slot, before, 0) {
        TurnKeepsChain(store, bridges, slot, last, before);
      }
    }
  }

  /** How far r rounds have brought a slot. */
  ghost predicate Progress(store: Storage, bridges: seq<Bridge>, slot: Slot, held: Option<DaemonStream>, r: nat) {
    || SlotAtRest(store, bridges, slot, held) || r == 0 || (r == 1 && held.None?)
    || OnChain(store, bridges, slot, held, if r >= 2 then r - 2 else 0)
  }

  lemma RoundProgresses(store: Storage, bridges: seq<Bridge>, turns: seq<nat>, slot: Slot, held: Option<DaemonStream>,
                        r: nat)
    requires DistinctNamespaces(bridges) && NoRing(store, bridges, slot) && Round(bridges, turns)
    requires Progress(store, bridges, slot, held, r)
    ensures Progress(store, bridges, slot, RunSlot(store, bridges, turns, slot, held), r + 1)
  {
    hide NoRing, OnChain, Moves, RunSlot;
    if SlotAtRest(store, bridges, slot, held) {
      RestIsKept(store, bridges, turns, slot, held);
    } else if r >= 2 {
      RoundTakes(store, bridges, turns, slot, held, r - 2);
    } else if OnChain(store, bridges, slot, held, 0) {
      RoundTakes(store, bridges, turns, slot, held, 0);
      EarlierOnChain(store, bridges, slot, RunSlot(store, bridges, turns, slot, held), 1, 0);
    } else {
      TurnsFromAny(store, bridges, turns, slot, held);
    }
  }

  lemma EarlierOnChain(store: Storage, bridges: seq<Bridge>, slot: Slot, held: Option<DaemonStream>, m: nat, n: nat)
    requires OnChain(store, bridges, slot, held, m) && n <= m
    ensures OnChain(store, bridges, slot, held, n)
  {
  }

  lemma ProgressEnds(store: Storage, bridges: seq<Bridge>, slot: Slot, held: Option<DaemonStream>)
    requires NoRing(store, bridges, slot) && Progress(store, bridges, slot, held, |bridges| + 2)
    ensures SlotAtRest(store, bridges, slot, held)
  {
    hide NoRing, SlotAtRest, Fate, Wanted;
    if !SlotAtRest(store, bridges, slot, held) {
      var i: nat, n: nat :| Wants(store, bridges, slot, i) && |bridges| <= n
                            && held == Fate(store, bridges, slot, Wanted(store, bridges[i], slot), n);
      FateIsSome(store, bridges, slot, i, n);
    }
  }

  // ----- whole fleets -----

  ghost predicate AllRounds(bridges: seq<Bridge>, rounds: seq<seq<nat>>) {
    forall k :: 0 <= k < |rounds| ==> Round(bridges, rounds[k])
  }

  ghost function RunRounds(store: Storage, bridges: seq<Bridge>, rounds: seq<seq<nat>>, st: DaemonState): DaemonState
    requires AllRounds(bridges, rounds)
  {
    if rounds == [] then st else
    var last := rounds[|rounds| - 1];
    assert Round(bridges, last);
    RunFleet(store, bridges, last, RunRounds(store, bridges, rounds[..|rounds| - 1], st))
  }

  /** From every state, any k full rounds bring every slot to rest. */
  ghost predicate RestsIn(store: Storage, bridges: seq<Bridge>, k: nat) {
    forall rounds, st :: |rounds| == k && AllRounds(bridges, rounds) ==>
      AllSettled(store, bridges, RunRounds(store, bridges, rounds, st))
  }

  ghost predicate NoRings(store: Storage, bridges: seq<Bridge>) {
    forall slot :: NoRing(store, bridges, slot)
  }

  lemma {:induction false} RoundsProgress(store: Storage, bridges: seq<Bridge>, rounds: seq<seq<nat>>, st: DaemonState,
                                          slot: Slot)
    requires AllUnique(bridges) && DistinctNamespaces(bridges) && NoRing(store, bridges, slot)
    requires AllRounds(bridges, rounds)
    ensures Progress(store, bridges, slot, Lookup(RunRounds(store, bridges, rounds, st), slot), |rounds|)
    decreases |rounds|
  {
    hide Progress, NoRing, RunSlot, RunFleet, Lookup, AllUnique, DistinctNamespaces;
    if rounds == [] {
      ProgressBegins(store, bridges, slot, Lookup(st, slot));
    } else {
      var rest, last := rounds[..|rounds| - 1], rounds[|rounds| - 1];
      RoundsProgress(store, bridges, rest, st, slot);
      var before := RunRounds(store, bridges, rest, st);
      RunFleetSlot(store, bridges, last, before, slot);
      RoundProgresses(store, bridges, last, slot, Lookup(before, slot), |rest|);
    }
  }

  lemma ProgressBegins(store: Storage, bridges: seq<Bridge>, slot: Slot, held: Option<DaemonStream>)
    ensures Progress(store, bridges, slot, held, 0)
  {
  }

  lemma SettledIffAtRest(store: Storage, bridges: seq<Bridge>, st: DaemonState)
    ensures AllSettled(store, bridges, st) <==> forall slot :: SlotAtRest(store, bridges, slot, Lookup(st, slot))
  {
    hide Lookup, Target;
    if AllSettled(store, bridges, st) {
      forall slot, i: nat | i < |bridges|
        ensures !Moves(store, bridges, slot, i, Lookup(st, slot))
      {
        assert Settled(store, bridges[i].ns, bridges[i].desired, st);
      }
    }
    if forall slot :: SlotAtRest(store, bridges, slot, Lookup(st, slot)) {
      forall slot, i: nat | i < |bridges|
        ensures Rule(store, bridges[i], slot, Lookup(st, slot)) == Lookup(st, slot)
      {
        assert !Moves(store, bridges, slot, i, Lookup(st, slot));
      }
    }
  }

  lemma NoRingsRest(store: Storage, bridges: seq<Bridge>)
    requires AllUnique(bridges) && DistinctNamespaces(bridges) && NoRings(store, bridges)
    ensures RestsIn(store, bridges, |bridges| + 2)
  {
    hide NoRing, Progress, AllSettled, RunRounds, AllUnique, DistinctNamespaces, SlotAtRest, Lookup;
    forall rounds, st | |rounds| == |bridges| + 2 && AllRounds(bridges, rounds)
      ensures AllSettled(store, bridges, RunRounds(store, bridges, rounds, st))
    {
      forall slot
        ensures SlotAtRest(store, bridges, slot, Lookup(RunRounds(store, bridges, rounds, st), slot))
      {
        RoundsProgress(store, bridges, rounds, st, slot);
        ProgressEnds(store, bridges, slot, Lookup(RunRounds(store, bridges, rounds, st), slot));
      }
      SettledIffAtRest(store, bridges, RunRounds(store, bridges, rounds, st));
    }
  }

  // ----- with a ring: some schedule of full rounds never comes to rest -----

  /** All indices below n but t. */
  function AllBut(n: nat, t: nat): (turns: seq<nat>)
    ensures forall i: nat :: i in turns <==> i < n && i != t
  {
    if n == 0 then [] else if n - 1 == t then AllBut(n - 1, t) else AllBut(n - 1, t) + [n - 1]
  }

  lemma {:induction false} OthersLeave(store: Storage, bridges: seq<Bridge>, turns: seq<nat>, slot: Slot, t: nat,
                                       held: Option<DaemonStream>)
    requires DistinctNamespaces(bridges) && Schedule(bridges, turns) && t !in turns
    requires t < |bridges| && held.Some? && Moves(store, bridges, slot, t, held)
    ensures RunSlot(store, bridges, turns, slot, held) == held
    decreases |turns|
  {
    hide Rule;
    if turns != [] {
      var last := turns[|turns| - 1];
      OthersLeave(store, bridges, turns[..|turns| - 1], slot, t, held);
      if Moves(store, bridges, slot, last, held) {
        OneTaker(store, bridges, slot, t, last, held);
      }
    }
  }

  /** A full round that takes a stream exactly one step on: its taker comes last. */
  lemma RoundOfOneTaking(store: Storage, bridges: seq<Bridge>, slot: Slot, held: Option<DaemonStream>)
    returns (turns: seq<nat>)
    requires DistinctNamespaces(bridges) && held.Some? && !SlotAtRest(store, bridges, slot, held)
    ensures Round(bridges, turns)
    ensures RunSlot(store, bridges, turns, slot, held) == Next(store, bridges, slot, held)
  {
    hide Rule, Next;
    var t: nat :| t < |bridges| && Moves(store, bridges, slot, t, held);
    var others := AllBut(|bridges|, t);
    turns := others + [t];
    assert turns[..|turns| - 1] == others;
    assert Schedule(bridges, others) by {
      assert forall k :: 0 <= k < |others| ==> others[k] in others;
    }
    OthersLeave(store, bridges, others, slot, t, held);
    TurnIsNext(store, bridges, slot, t, held);
    forall i: nat | i < |bridges|
      ensures i in turns
    {
      assert i in others || i == t;
    }
  }

  /** The states a stream of bridge i goes through, over and over. */
  ghost predicate OnRing(store: Storage, bridges: seq<Bridge>, slot: Slot, i: nat, held: Option<DaemonStream>)
    requires i < |bridges|
  {
    held.None? || exists n: nat :: held == Fate(store, bridges, slot, Wanted(store, bridges[i], slot), n)
  }

  ghost predicate NeverRests(store: Storage, bridges: seq<Bridge>, slot: Slot, i: nat)
    requires i < |bridges|
  {
    forall n: nat :: !SlotAtRest(store, bridges, slot, Fate(store, bridges, slot, Wanted(store, bridges[i], slot), n))
  }

  lemma RoundOnRing(store: Storage, bridges: seq<Bridge>, slot: Slot, i: nat, held: Option<DaemonStream>)
    returns (turns: seq<nat>)
    requires DistinctNamespaces(bridges) && Wants(store, bridges, slot, i) && NeverRests(store, bridges, slot, i)
    requires OnRing(store, bridges, slot, i, held)
    ensures Round(bridges, turns) && OnRing(store, bridges, slot, i, RunSlot(store, bridges, turns, slot, held))
  {
    hide Rule, Wanted, SlotAtRest, Next;
    var w := Wanted(store, bridges[i], slot);
    if held.Some? {
      var n: nat :| held == Fate(store, bridges, slot, w, n);
      turns := RoundOfOneTaking(store, bridges, slot, held);
      assert Next(store, bridges, slot, held) == Fate(store, bridges, slot, w, n + 1);
    } else {
      WriterMovesEmpty(store, bridges, slot, i);
      assert Fate(store, bridges, slot, w, 0) == w;
      WantedIsSome(store, bridges, slot, i);
      var round := RoundOfOneTaking(store, bridges, slot, w);
      var opening: seq<nat> := [i];
      turns := opening + round;
      assert opening[..0] == [];
      assert RunSlot(store, bridges, opening, slot, held) == w;
      SlotAppends(store, bridges, opening, round, slot, held);
      assert Next(store, bridges, slot, w) == Fate(store, bridges, slot, w, 1);
    }
  }

  lemma WantedIsSome(store: Storage, bridges: seq<Bridge>, slot: Slot, i: nat)
    requires Wants(store, bridges, slot, i)
    ensures Wanted(store, bridges[i], slot).Some?
  {
  }

  lemma {:induction false} RoundsOnRing(store: Storage, bridges: seq<Bridge>, slot: Slot, i: nat, k: nat)
    returns (rounds: seq<seq<nat>>)
    requires AllUnique(bridges) && DistinctNamespaces(bridges)
    requires Wants(store, bridges, slot, i) && NeverRests(store, bridges, slot, i)
    ensures |rounds| == k && AllRounds(bridges, rounds)
    ensures OnRing(store, bridges, slot, i,
                   Lookup(RunRounds(store, bridges, rounds, DaemonState(map[], map[])), slot))
  {
    hide NeverRests, RunFleet, RunSlot, AllUnique, DistinctNamespaces, Wanted;
    var empty := DaemonState(map[], map[]);
    if k == 0 {
      rounds := [];
    } else {
      var rest := RoundsOnRing(store, bridges, slot, i, k - 1);
      var before := RunRounds(store, bridges, rest, empty);
      var turns := RoundOnRing(store, bridges, slot, i, Lookup(before, slot));
      RunFleetSlot(store, bridges, turns, before, slot);
      rounds := rest + [turns];
      assert rounds[..|rounds| - 1] == rest;
    }
  }

  lemma RingNeverRests(store: Storage, bridges: seq<Bridge>, slot: Slot, k: nat)
    requires AllUnique(bridges) && DistinctNamespaces(bridges) && !NoRing(store, bridges, slot)
    ensures !RestsIn(store, bridges, k)
  {
    hide Fate, SlotAtRest, AllUnique, DistinctNamespaces, Wanted, Lookup, RunRounds, AllSettled;
    var i: nat :| Wants(store, bridges, slot, i)
                  && !SlotAtRest(store, bridges, slot,
                                 Fate(store, bridges, slot, Wanted(store, bridges[i], slot), |bridges|));
    forall n: nat
      ensures !SlotAtRest(store, bridges, slot, Fate(store, bridges, slot, Wanted(store, bridges[i], slot), n))
    {
      if SlotAtRest(store, bridges, slot, Fate(store, bridges, slot, Wanted(store, bridges[i], slot), n)) {
        RestsSoonOrNever(store, bridges, slot, i, n);
      }
    }
    var rounds := RoundsOnRing(store, bridges, slot, i, k);
    var end := RunRounds(store, bridges, rounds, DaemonState(map[], map[]));
    WriterMovesEmpty(store, bridges, slot, i);
    assert !SlotAtRest(store, bridges, slot, Lookup(end, slot));
    SettledIffAtRest(store, bridges, end);
  }

  /** Any number of bridges with different namespaces: some number of rounds brings them to rest from every state if
      and only if in no slot the takers of a stream form a ring or remove it, and then two rounds more than there
      are bridges are enough. */
  lemma FleetRestsIff(store: Storage, bridges: seq<Bridge>)
    requires AllUnique(bridges) && DistinctNamespaces(bridges)
    ensures (exists k :: RestsIn(store, bridges, k)) <==> NoRings(store, bridges)
    ensures NoRings(store, bridges) ==> RestsIn(store, bridges, |bridges| + 2)
  {
    hide NoRing, RestsIn, AllUnique, DistinctNamespaces;
    if NoRings(store, bridges) {
      NoRingsRest(store, bridges);
    } else {
      var slot :| !NoRing(store, bridges, slot);
      forall k: nat
        ensures !RestsIn(store, bridges, k)
      {
        RingNeverRests(store, bridges, slot, k);
      }
    }
  }
}
