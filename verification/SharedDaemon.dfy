/** Any number of settings on one daemon: exactly which of them come to rest, and plan nothing more. */
module SharedDaemon {
  import JsonValues
  import opened Wrappers
  import opened Ownership
  import opened OwnershipLaws
  import opened DaemonStates
  import opened Reconcilers
  import opened Targets
  import opened Convergence
  import opened Sanitising
  import opened Configs
  import opened DesiredState
  import opened ConfigConvergence
  import opened StreamMarks
  import opened Fleet
  import opened FleetSettings
  import opened Takeovers

  ghost predicate ValidSetups(setups: seq<Setup>) {
    && (forall i :: 0 <= i < |setups| ==> ValidSetup(setups[i]))
    && (forall i, j :: 0 <= i < j < |setups| ==> setups[i].ns != setups[j].ns)
  }

  ghost function BridgesOf(setups: seq<Setup>, conns: seq<Connections>): (bridges: seq<Bridge>)
    requires ValidSetups(setups) && |conns| == |setups|
    ensures |bridges| == |setups|
    ensures forall i :: 0 <= i < |setups| ==> bridges[i] == BridgeOf(setups[i], conns[i])
  {
    seq(|setups|, i requires 0 <= i < |setups| => BridgeOf(setups[i], conns[i]))
  }

  lemma BridgesAreDistinct(setups: seq<Setup>, conns: seq<Connections>)
    requires ValidSetups(setups) && |conns| == |setups|
    ensures AllUnique(BridgesOf(setups, conns)) && DistinctNamespaces(BridgesOf(setups, conns))
  {
    hide DesiredFrom, UniqueSlots, ValidSetup;
    forall i | 0 <= i < |setups|
      ensures UniqueSlots(BridgesOf(setups, conns)[i].desired)
    {
      assert ValidSetup(setups[i]);
      DesiredIsUnique(setups[i], conns[i]);
    }
  }

  /** No setup has a stream that is listed as one of another, on its own side. */
  ghost predicate NoneTaken(sanitises: bool, setups: seq<Setup>) {
    forall i, j :: 0 <= i < |setups| && 0 <= j < |setups| && i != j ==> !SomeTaken(sanitises, setups[i], setups[j].ns)
  }

  // ----- enough: namespaces get shorter with each taking -----

  lemma OwnWriteStays(store: Storage, bridges: seq<Bridge>, slot: Slot, i: nat)
    requires Wants(store, bridges, slot, i)
    ensures !Moves(store, bridges, slot, i, Wanted(store, bridges[i], slot))
  {
    hide JsonValues.Drifted, OwnNamespace;
  }

  /** The taker of a bridge's stream has a shorter namespace, and wants the slot itself. */
  lemma TakerIsShorter(decorate: Decoration, sanitises: bool, setups: seq<Setup>, conns: seq<Connections>, slot: Slot,
                       j: nat, t: nat)
    requires ValidSetups(setups) && |conns| == |setups| && NoneTaken(sanitises, setups) && t < |setups|
    requires Wants(Storing(decorate, sanitises), BridgesOf(setups, conns), slot, j)
    requires var store, bridges := Storing(decorate, sanitises), BridgesOf(setups, conns);
             Moves(store, bridges, slot, t, Wanted(store, bridges[j], slot))
    ensures |setups[t].ns| < |setups[j].ns|
    ensures Wants(Storing(decorate, sanitises), BridgesOf(setups, conns), slot, t)
    ensures var store, bridges := Storing(decorate, sanitises), BridgesOf(setups, conns);
            Rule(store, bridges[t], slot, Wanted(store, bridges[j], slot)) == Wanted(store, bridges[t], slot)
  {
    hide Storing, DesiredFrom, JsonValues.Drifted, ParseManagedName, ListedOwner, Bears, StripBrackets;
    var store, bridges := Storing(decorate, sanitises), BridgesOf(setups, conns);
    OwnWriteStays(store, bridges, slot, j);
    var a := bridges[j];
    var d :| d in a.desired && d.enabled && d.slot == slot && EnabledAt(a.desired, slot) == Some(d.payload);
    var mark := EnabledIsRegistered(setups[j], conns[j], d);
    OwnerOfStored(decorate, sanitises, setups[j].ns, d, mark);
    OwnerOpensWriter(sanitises, setups[j].ns, mark);
    StripShortens(setups[j].ns);
    assert setups[t].ns != setups[j].ns;
    assert !SomeTaken(sanitises, setups[j], setups[t].ns);
    assert !TakenBy(sanitises, setups[t].ns, setups[j].ns, mark);
  }

  /** After n takings a stream has come to rest, or has reached a bridge whose namespace is shorter by n. */
  lemma {:induction false} FateShortens(decorate: Decoration, sanitises: bool, setups: seq<Setup>,
                                        conns: seq<Connections>, slot: Slot, i: nat, n: nat)
    returns (j: nat, m: nat)
    requires ValidSetups(setups) && |conns| == |setups| && NoneTaken(sanitises, setups)
    requires Wants(Storing(decorate, sanitises), BridgesOf(setups, conns), slot, i)
    ensures var store, bridges := Storing(decorate, sanitises), BridgesOf(setups, conns);
            var w := Wanted(store, bridges[i], slot);
            || SlotAtRest(store, bridges, slot, Fate(store, bridges, slot, w, m))
            || (&& Wants(store, bridges, slot, j) && Fate(store, bridges, slot, w, n) == Wanted(store, bridges[j], slot)
                && |setups[j].ns| + n <= |setups[i].ns|)
  {
    hide Storing, DesiredFrom, Rule, Wanted, NoneTaken, Next, Moves;
    var store, bridges := Storing(decorate, sanitises), BridgesOf(setups, conns);
    var w := Wanted(store, bridges[i], slot);
    if n == 0 {
      j, m := i, 0;
    } else {
      j, m := FateShortens(decorate, sanitises, setups, conns, slot, i, n - 1);
      if !SlotAtRest(store, bridges, slot, Fate(store, bridges, slot, w, m)) {
        var held := Fate(store, bridges, slot, w, n - 1);
        if SlotAtRest(store, bridges, slot, held) {
          m := n - 1;
        } else {
          var t: nat :| t < |bridges| && Moves(store, bridges, slot, t, held);
          BridgesAreDistinct(setups, conns);
          WantedIsSome(store, bridges, slot, j);
          TurnIsNext(store, bridges, slot, t, held);
          TakerIsShorter(decorate, sanitises, setups, conns, slot, j, t);
          j := t;
        }
      }
    }
  }

  lemma NoneTakenNoRings(decorate: Decoration, sanitises: bool, setups: seq<Setup>, conns: seq<Connections>)
    requires ValidSetups(setups) && |conns| == |setups| && NoneTaken(sanitises, setups)
    ensures NoRings(Storing(decorate, sanitises), BridgesOf(setups, conns))
  {
    hide Storing, DesiredFrom, Wanted, NoneTaken, Fate, SlotAtRest;
    var store, bridges := Storing(decorate, sanitises), BridgesOf(setups, conns);
    forall slot, i: nat | Wants(store, bridges, slot, i)
      ensures SlotAtRest(store, bridges, slot,
                         Fate(store, bridges, slot, Wanted(store, bridges[i], slot), |bridges|))
    {
      var j, m := FateShortens(decorate, sanitises, setups, conns, slot, i, |setups[i].ns| + 1);
      RestsSoonOrNever(store, bridges, slot, i, m);
    }
  }

  // ----- necessary -----

  /** Setup i with all its streams active, and the others idle. */
  ghost function OnlyActive(setups: seq<Setup>, i: nat): (conns: seq<Connections>)
    requires i < |setups|
    ensures |conns| == |setups|
    ensures forall j :: 0 <= j < |setups| ==> conns[j] == if j == i then AllActive(setups[i]) else NoneActive()
  {
    seq(|setups|, j requires 0 <= j < |setups| => if j == i then AllActive(setups[i]) else NoneActive())
  }

  lemma TakenMakesRing(decorate: Decoration, sanitises: bool, setups: seq<Setup>, i: nat, j: nat)
    requires ValidSetups(setups) && i < |setups| && j < |setups| && i != j
    requires SomeTaken(sanitises, setups[i], setups[j].ns)
    ensures !NoRings(Storing(decorate, sanitises), BridgesOf(setups, OnlyActive(setups, i)))
  {
    hide Storing, DesiredFrom, Undoes, Registered, TakenBy, AllActive, NoneActive, OwnedOn, Moves;
    var store, bridges := Storing(decorate, sanitises), BridgesOf(setups, OnlyActive(setups, i));
    var mark :| Registered(setups[i], mark) && TakenBy(sanitises, setups[j].ns, setups[i].ns, mark);
    assert ValidSetup(setups[i]) && ValidSetup(setups[j]);
    TakenIsUndone(decorate, sanitises, setups[i], setups[j], mark);
    NoneActiveIsIdle(setups[j], mark.slot);
    UndoneByIdle(store, bridges, i, j, mark.slot);
    BridgesAreDistinct(setups, OnlyActive(setups, i));
    var w := Wanted(store, bridges[i], mark.slot);
    TurnIsNext(store, bridges, mark.slot, j, w);
    assert Fate(store, bridges, mark.slot, w, 0) == w;
    assert Fate(store, bridges, mark.slot, w, 1) == None;
    FateStays(store, bridges, mark.slot, w, 1, |bridges|);
    WriterMovesEmpty(store, bridges, mark.slot, i);
    assert !NoRing(store, bridges, mark.slot);
  }

  lemma UndoneByIdle(store: Storage, bridges: seq<Bridge>, i: nat, j: nat, slot: Slot)
    requires i < |bridges| && j < |bridges| && Undoes(store, bridges[j], bridges[i], slot)
    requires EnabledAt(bridges[j].desired, slot).None?
    ensures Wants(store, bridges, slot, i)
    ensures Rule(store, bridges[j], slot, Wanted(store, bridges[i], slot)) == None
    ensures Wanted(store, bridges[i], slot).Some? && Moves(store, bridges, slot, j, Wanted(store, bridges[i], slot))
  {
    hide JsonValues.Drifted, OwnedOn;
  }

  /** Whatever is active at each, some number of full rounds brings every slot to rest from every state. */
  ghost predicate AllComeToRest(decorate: Decoration, sanitises: bool, setups: seq<Setup>)
    requires ValidSetups(setups)
  {
    forall conns :: |conns| == |setups| ==>
      exists k :: RestsIn(Storing(decorate, sanitises), BridgesOf(setups, conns), k)
  }

  /** Any number of bridges with different namespaces: whatever is active and whatever the daemon holds, they come to
      rest in some number of rounds if and only if none has a stream that is listed as one of another, on its own
      side. Two rounds more than there are bridges are then enough. */
  lemma SetupsComeToRestIff(decorate: Decoration, sanitises: bool, setups: seq<Setup>)
    requires ValidSetups(setups)
    ensures AllComeToRest(decorate, sanitises, setups) <==> NoneTaken(sanitises, setups)
    ensures NoneTaken(sanitises, setups) ==>
              forall conns :: |conns| == |setups| ==>
                RestsIn(Storing(decorate, sanitises), BridgesOf(setups, conns), |setups| + 2)
  {
    hide Storing, RestsIn, SomeTaken, ValidSetups, AllUnique, DistinctNamespaces, NoRings;
    var store := Storing(decorate, sanitises);
    if NoneTaken(sanitises, setups) {
      forall conns | |conns| == |setups|
        ensures RestsIn(store, BridgesOf(setups, conns), |setups| + 2)
      {
        NoneTakenNoRings(decorate, sanitises, setups, conns);
        BridgesAreDistinct(setups, conns);
        FleetRestsIff(store, BridgesOf(setups, conns));
      }
    } else {
      var i: nat, j: nat :| i < |setups| && j < |setups| && i != j && SomeTaken(sanitises, setups[i], setups[j].ns);
      TakenMakesRing(decorate, sanitises, setups, i, j);
      BridgesAreDistinct(setups, OnlyActive(setups, i));
      FleetRestsIff(store, BridgesOf(setups, OnlyActive(setups, i)));
      assert !(exists k :: RestsIn(store, BridgesOf(setups, OnlyActive(setups, i)), k));
    }
  }

  // ----- and nothing left to plan -----

  /** From every state, any k full rounds leave no bridge anything to plan. */
  ghost predicate QuietIn(store: Storage, bridges: seq<Bridge>, k: nat) {
    forall rounds, st :: |rounds| == k && AllRounds(bridges, rounds) ==>
      Quiet(bridges, RunRounds(store, bridges, rounds, st))
  }

  lemma QuietInRests(store: Storage, bridges: seq<Bridge>, k: nat)
    requires AllUnique(bridges)
    ensures QuietIn(store, bridges, k) ==> RestsIn(store, bridges, k)
    ensures NoneOfThemRewritten(store, bridges) && RestsIn(store, bridges, k) ==> QuietIn(store, bridges, k)
  {
    hide Quiet, AllSettled, RunRounds, AllUnique, NoneOfThemRewritten;
    forall st
      ensures Quiet(bridges, st) ==> AllSettled(store, bridges, st)
      ensures NoneOfThemRewritten(store, bridges) && AllSettled(store, bridges, st) ==> Quiet(bridges, st)
    {
      QuietIffAllSettled(store, bridges, st);
    }
  }

  lemma NoneMarkedNoneRewritten(decorate: Decoration, sanitises: bool, setups: seq<Setup>, conns: seq<Connections>)
    requires ValidSetups(setups) && |conns| == |setups|
    requires forall i :: 0 <= i < |setups| ==> !SomeRewritten(sanitises, setups[i])
    ensures NoneOfThemRewritten(Storing(decorate, sanitises), BridgesOf(setups, conns))
  {
    hide Storing, DesiredFrom, NoneRewritten, SomeRewritten;
    forall i | 0 <= i < |setups|
      ensures NoneRewritten(Storing(decorate, sanitises), setups[i].ns, BridgesOf(setups, conns)[i].desired)
    {
      NoneMarkedRewritten(decorate, sanitises, setups[i], conns[i]);
    }
  }

  lemma SomeRound(bridges: seq<Bridge>) returns (turns: seq<nat>)
    ensures Round(bridges, turns)
  {
    turns := AllBut(|bridges|, |bridges|);
    assert forall k :: 0 <= k < |turns| ==> turns[k] in turns;
  }

  lemma {:induction false} RestThroughRounds(store: Storage, bridges: seq<Bridge>, k: nat, slot: Slot, st: DaemonState)
    returns (rounds: seq<seq<nat>>)
    requires AllUnique(bridges) && SlotAtRest(store, bridges, slot, Lookup(st, slot))
    ensures |rounds| == k && AllRounds(bridges, rounds)
    ensures Lookup(RunRounds(store, bridges, rounds, st), slot) == Lookup(st, slot)
  {
    hide SlotAtRest, RunFleet, RunSlot, AllUnique, Lookup, Round;
    if k == 0 {
      rounds := [];
    } else {
      var rest := RestThroughRounds(store, bridges, k - 1, slot, st);
      var turns := SomeRound(bridges);
      RoundIsSchedule(bridges, turns);
      rounds := rest + [turns];
      assert rounds[..|rounds| - 1] == rest;
      RunFleetSlot(store, bridges, turns, RunRounds(store, bridges, rest, st), slot);
      RestIsKept(store, bridges, turns, slot, Lookup(st, slot));
    }
  }

  lemma RoundIsSchedule(bridges: seq<Bridge>, turns: seq<nat>)
    requires Round(bridges, turns)
    ensures Schedule(bridges, turns)
  {
  }

  /** A stream that rests in its slot and is rewritten on sight leaves its bridge always something to plan. */
  lemma RewrittenIsNeverQuiet(store: Storage, bridges: seq<Bridge>, i: nat, d: DesiredStream, k: nat)
    requires AllUnique(bridges) && i < |bridges| && d in bridges[i].desired && d.enabled
    requires RewrittenOnSight(store, bridges[i].ns, d)
    requires SlotAtRest(store, bridges, d.slot, Some(Stored(store, d.slot, d.payload)))
    ensures !QuietIn(store, bridges, k)
  {
    hide JsonValues.Drifted, OwnNamespace, PlanOps, SlotAtRest, RunRounds, AllRounds;
    var held := Some(Stored(store, d.slot, d.payload));
    var st := Write(DaemonState(map[], map[]), d.slot, held);
    EnabledAtIs(bridges[i].desired, d);
    var rounds := RestThroughRounds(store, bridges, k, d.slot, st);
    var end := RunRounds(store, bridges, rounds, st);
    NeededAppears(bridges[i].ns, bridges[i].desired, end, d.slot);
    assert PlanOps(bridges[i].ns, bridges[i].desired, end) != [];
    assert !Quiet(bridges, end);
  }

  /** With the others idle and no stream taken, what bridge i puts in a slot rests there. */
  lemma RestsAmongIdle(decorate: Decoration, sanitises: bool, setups: seq<Setup>, i: nat, d: DesiredStream,
                       mark: StreamMark)
    requires ValidSetups(setups) && NoneTaken(sanitises, setups) && i < |setups|
    requires d in DesiredFrom(setups[i], AllActive(setups[i])) && Registered(setups[i], mark)
    requires Bears(setups[i].ns, d, mark)
    ensures d.enabled
    ensures SlotAtRest(Storing(decorate, sanitises), BridgesOf(setups, OnlyActive(setups, i)), d.slot,
                       Some(Stored(Storing(decorate, sanitises), d.slot, d.payload)))
  {
    hide Storing, DesiredFrom, AllActive, NoneActive, Registered, TakenBy, UniqueSlots, Takes;
    var store, bridges := Storing(decorate, sanitises), BridgesOf(setups, OnlyActive(setups, i));
    var held := Stored(store, d.slot, d.payload);
    DesiredIsUnique(setups[i], AllActive(setups[i]));
    EnabledAtIs(bridges[i].desired, d);
    assert Wanted(store, bridges[i], d.slot) == Some(held);
    forall j: nat | j < |bridges|
      ensures !Moves(store, bridges, d.slot, j, Some(held))
    {
      if j == i {
        OwnWriteStays(store, bridges, d.slot, i);
      } else {
        assert !SomeTaken(sanitises, setups[i], setups[j].ns);
        NotTakenWhileIdle(decorate, sanitises, setups[i], setups[j], d, mark);
        NotTakenStays(store, bridges[j], d.slot, held);
      }
    }
  }

  lemma NotTakenStays(store: Storage, b: Bridge, slot: Slot, held: DaemonStream)
    requires !Takes(b, slot, held)
    ensures Rule(store, b, slot, Some(held)) == Some(held)
  {
    hide JsonValues.Drifted, OwnNamespace;
  }

  lemma MarkedRewrittenIsNeverQuiet(decorate: Decoration, sanitises: bool, setups: seq<Setup>, i: nat, k: nat)
    requires ValidSetups(setups) && NoneTaken(sanitises, setups) && i < |setups|
    requires SomeRewritten(sanitises, setups[i])
    ensures !QuietIn(Storing(decorate, sanitises), BridgesOf(setups, OnlyActive(setups, i)), k)
  {
    hide Storing, DesiredFrom, AllActive, NoneActive, Registered, Bears, RewrittenMark, RewrittenOnSight, SlotAtRest;
    hide NoneTaken, QuietIn, AllUnique;
    var setup := setups[i];
    var mark :| Registered(setup, mark) && RewrittenMark(sanitises, setup.ns, mark);
    var d := RegisteredIsEnabled(setup, mark);
    RewrittenIffMarked(decorate, sanitises, setup.ns, d, mark);
    RestsAmongIdle(decorate, sanitises, setups, i, d, mark);
    BridgesAreDistinct(setups, OnlyActive(setups, i));
    RewrittenIsNeverQuiet(Storing(decorate, sanitises), BridgesOf(setups, OnlyActive(setups, i)), i, d, k);
  }

  /** Whatever is active at each, some number of full rounds leaves no bridge anything to plan. */
  ghost predicate AllSettleDown(decorate: Decoration, sanitises: bool, setups: seq<Setup>)
    requires ValidSetups(setups)
  {
    forall conns :: |conns| == |setups| ==>
      exists k :: QuietIn(Storing(decorate, sanitises), BridgesOf(setups, conns), k)
  }

  ghost predicate NoneHasRewritten(sanitises: bool, setups: seq<Setup>) {
    forall i :: 0 <= i < |setups| ==> !SomeRewritten(sanitises, setups[i])
  }

  /** And they plan nothing more if and only if, besides, none has a stream that is listed as its own without the
      brackets it was written with. */
  lemma SetupsSettleDownIff(decorate: Decoration, sanitises: bool, setups: seq<Setup>)
    requires ValidSetups(setups)
    ensures AllSettleDown(decorate, sanitises, setups)
            <==> NoneTaken(sanitises, setups) && NoneHasRewritten(sanitises, setups)
    ensures NoneTaken(sanitises, setups) && NoneHasRewritten(sanitises, setups) ==>
              forall conns :: |conns| == |setups| ==>
                QuietIn(Storing(decorate, sanitises), BridgesOf(setups, conns), |setups| + 2)
  {
    hide Storing, RestsIn, QuietIn, SomeRewritten, NoneTaken, ValidSetups, AllUnique, DistinctNamespaces;
    hide NoneOfThemRewritten;
    var store := Storing(decorate, sanitises);
    SetupsComeToRestIff(decorate, sanitises, setups);
    forall conns, k: nat | |conns| == |setups|
      ensures QuietIn(store, BridgesOf(setups, conns), k) ==> RestsIn(store, BridgesOf(setups, conns), k)
      ensures NoneHasRewritten(sanitises, setups) && RestsIn(store, BridgesOf(setups, conns), k) ==>
                QuietIn(store, BridgesOf(setups, conns), k)
    {
      BridgesAreDistinct(setups, conns);
      QuietInRests(store, BridgesOf(setups, conns), k);
      if NoneHasRewritten(sanitises, setups) {
        NoneMarkedNoneRewritten(decorate, sanitises, setups, conns);
      }
    }
    if AllSettleDown(decorate, sanitises, setups) {
      forall conns | |conns| == |setups|
        ensures exists k :: RestsIn(store, BridgesOf(setups, conns), k)
      {
        var k :| QuietIn(store, BridgesOf(setups, conns), k);
      }
    }
    if i: nat :| i < |setups| && NoneTaken(sanitises, setups) && SomeRewritten(sanitises, setups[i]) {
      forall k: nat
        ensures !QuietIn(store, BridgesOf(setups, OnlyActive(setups, i)), k)
      {
        MarkedRewrittenIsNeverQuiet(decorate, sanitises, setups, i, k);
      }
      var conns := OnlyActive(setups, i);
      assert |conns| == |setups| && !(exists k :: QuietIn(store, BridgesOf(setups, conns), k));
    }
  }

  // ----- from the settings -----

  /** A bridge as it is set up from its settings; its resource ids come from a seed of its own. */
  datatype Installation = Installation(config: BridgeConfig, setup: Setup,
                                       senderId: string -> string, receiverId: string -> string)

  ghost predicate Sound(x: Installation) {
    && ValidConfig(x.config) && SetUpFrom(x.setup, x.config, x.senderId, x.receiverId)
    && IdsSeparate(x.config, x.senderId, x.receiverId)
  }

  function SetupsOf(xs: seq<Installation>): (setups: seq<Setup>)
    ensures |setups| == |xs| && forall i :: 0 <= i < |xs| ==> setups[i] == xs[i].setup
  {
    seq(|xs|, i requires 0 <= i < |xs| => xs[i].setup)
  }

  /** For any number of validated sets of settings with different namespaces: the bridges come to rest, whatever is
      active and whatever the daemon holds, if and only if no configured stream of any is listed as one of another
      on its own side; and they then plan nothing more if and only if, besides, none is listed as its own without
      the brackets it was written with. */
  lemma SettingsSettleIff(decorate: Decoration, sanitises: bool, xs: seq<Installation>)
    requires forall i :: 0 <= i < |xs| ==> Sound(xs[i])
    requires forall i, j :: 0 <= i < j < |xs| ==> xs[i].config.ns != xs[j].config.ns
    ensures ValidSetups(SetupsOf(xs))
    ensures AllComeToRest(decorate, sanitises, SetupsOf(xs))
            <==> forall i, j :: 0 <= i < |xs| && 0 <= j < |xs| && i != j ==>
                   !TakenIn(sanitises, xs[i].config, xs[j].config.ns)
    ensures AllSettleDown(decorate, sanitises, SetupsOf(xs))
            <==> && (forall i, j :: 0 <= i < |xs| && 0 <= j < |xs| && i != j ==>
                       !TakenIn(sanitises, xs[i].config, xs[j].config.ns))
                 && (forall i :: 0 <= i < |xs| ==> !RewrittenIn(sanitises, xs[i].config))
  {
    hide SomeTaken, SomeRewritten, TakenIn, RewrittenIn, AllComeToRest, AllSettleDown, ValidSetup;
    var setups := SetupsOf(xs);
    forall i | 0 <= i < |xs|
      ensures ValidSetup(setups[i]) && setups[i].ns == xs[i].config.ns
      ensures SomeRewritten(sanitises, setups[i]) <==> RewrittenIn(sanitises, xs[i].config)
      ensures forall j :: 0 <= j < |xs| ==>
                (SomeTaken(sanitises, setups[i], setups[j].ns) <==> TakenIn(sanitises, xs[i].config, setups[j].ns))
    {
      assert Sound(xs[i]);
      SetUpIsValid(xs[i].setup, xs[i].config, xs[i].senderId, xs[i].receiverId);
      SameMarks(sanitises, xs[i].setup, xs[i].config, xs[i].senderId, xs[i].receiverId, "");
      forall j | 0 <= j < |xs|
        ensures SomeTaken(sanitises, setups[i], setups[j].ns) <==> TakenIn(sanitises, xs[i].config, setups[j].ns)
      {
        SameMarks(sanitises, xs[i].setup, xs[i].config, xs[i].senderId, xs[i].receiverId, setups[j].ns);
      }
    }
    SetupsComeToRestIff(decorate, sanitises, setups);
    SetupsSettleDownIff(decorate, sanitises, setups);
  }
}
