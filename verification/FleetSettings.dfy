/** Which settings make bridges on one daemon settle, and which make them undo each other's work for ever. */
module FleetSettings {
  import JsonValues
  import opened Wrappers
  import opened Ownership
  import opened OwnershipLaws
  import opened DaemonStates
  import opened Reconcilers
  import opened Targets
  import opened Convergence
  import opened Sanitising
  import opened Configs
  import opened DesiredState
  import opened ConfigConvergence
  import opened StreamMarks
  import opened Fleet

  ghost function BridgeOf(setup: Setup, conns: Connections): Bridge
    requires ListsKnown(setup)
  {
    Bridge(setup.ns, DesiredFrom(setup, conns))
  }

  // ----- settings that settle -----

  lemma FitSetupKeeps(decorate: Decoration, sanitises: bool, setup: Setup, conns: Connections)
    requires ValidSetup(setup) && FitSetup(sanitises, setup)
    ensures UniqueSlots(DesiredFrom(setup, conns)) && WellMarked(setup.ns, DesiredFrom(setup, conns))
    ensures Keeps(Storing(decorate, sanitises), DesiredFrom(setup, conns))
  {
    hide Storing, DesiredFrom;
    DesiredIsUnique(setup, conns);
    assert PlainSetup(setup);
    DesiredIsWellMarked(setup, conns);
    FitsAreKept(decorate, sanitises, setup, conns);
  }

  /** What validation does not ask for is enough: any number of bridges with different namespaces, each of whose
      streams fit the daemon, plan nothing after two full rounds, whatever is active at each of them. */
  lemma FitSettingsSettle(decorate: Decoration, sanitises: bool, setups: seq<Setup>, conns: seq<Connections>,
                          bridges: seq<Bridge>, first: seq<nat>, second: seq<nat>, st: DaemonState)
    requires |setups| == |conns| == |bridges|
    requires forall i, j :: 0 <= i < j < |setups| ==> setups[i].ns != setups[j].ns
    requires forall i :: 0 <= i < |setups| ==>
               && ValidSetup(setups[i]) && FitSetup(sanitises, setups[i])
               && bridges[i] == BridgeOf(setups[i], conns[i])
    requires Round(bridges, first) && Round(bridges, second)
    ensures Schedule(bridges, first + second)
    ensures Quiet(bridges, RunFleet(Storing(decorate, sanitises), bridges, first + second, st))
  {
    hide PlanOps, DesiredFrom, FitSetup, ValidSetup, WellMarked, UniqueSlots, Keeps, NoneRewritten, Settled, Storing;
    var store := Storing(decorate, sanitises);
    forall i | 0 <= i < |bridges|
      ensures && UniqueSlots(bridges[i].desired) && WellMarked(bridges[i].ns, bridges[i].desired)
              && Keeps(store, bridges[i].desired)
    {
      assert ValidSetup(setups[i]) && FitSetup(sanitises, setups[i]);
      FitSetupKeeps(decorate, sanitises, setups[i], conns[i]);
    }
    WellMarkedFleet(store, bridges);
    FleetAppends(store, bridges, first, second, st);
    forall i | 0 <= i < |bridges|
      ensures PlanOps(bridges[i].ns, bridges[i].desired, RunFleet(store, bridges, first + second, st)) == []
    {
      TwoRoundsSettleTheFleet(store, bridges, first, second, st, i);
    }
  }

  // ----- two bridges: exactly which settings settle -----

  /** Some stream of the setup is, in the daemon's listing, one of the other namespace. */
  ghost predicate SomeTaken(sanitises: bool, setup: Setup, other: string) {
    exists mark :: Registered(setup, mark) && TakenBy(sanitises, other, setup.ns, mark)
  }

  /** With different namespaces, a bridge that undoes the other's work takes a stream of its marked for it. */
  lemma UndoneIsTaken(decorate: Decoration, sanitises: bool, first: Setup, second: Setup,
                      firstConns: Connections, secondConns: Connections, slot: Slot)
    requires ValidSetup(first) && ValidSetup(second) && first.ns != second.ns
    requires Undoes(Storing(decorate, sanitises), BridgeOf(second, secondConns), BridgeOf(first, firstConns), slot)
    ensures SomeTaken(sanitises, first, second.ns)
  {
    hide Storing, DesiredFrom, JsonValues.Drifted, ParseManagedName, ListedOwner, Bears;
    var a, b := BridgeOf(first, firstConns), BridgeOf(second, secondConns);
    var d :| d in a.desired && d.enabled && d.slot == slot && EnabledAt(a.desired, slot) == Some(d.payload);
    var mark := EnabledIsRegistered(first, firstConns, d);
    OwnerOfStored(decorate, sanitises, first.ns, d, mark);
    if EnabledAt(b.desired, slot).Some? {
      var e :| e in b.desired && e.enabled && e.slot == slot && EnabledAt(b.desired, slot) == Some(e.payload);
      var markE := EnabledIsRegistered(second, secondConns, e);
      OwnerOfStored(decorate, sanitises, second.ns, e, markE);
      NotEachOther(sanitises, first.ns, second.ns, mark, markE);
      assert false;
    }
  }

  lemma OwnerOfStored(decorate: Decoration, sanitises: bool, ns: string, d: DesiredStream, mark: StreamMark)
    requires Bears(ns, d, mark)
    ensures d.slot == mark.slot
    ensures forall other ::
              OwnNamespace(other, Stored(Storing(decorate, sanitises), d.slot, d.payload))
              <==> ListedOwner(sanitises, ns, mark).Some? && ListedOwner(sanitises, ns, mark).value.ns == other
    ensures forall other ::
              OwnedOn(other, d.slot.side, Stored(Storing(decorate, sanitises), d.slot, d.payload))
              <==> TakenBy(sanitises, other, ns, mark)
  {
    hide Storing, ParseManagedName;
    BearerIsListed(decorate, sanitises, ns, d, mark);
  }

  /** A bridge with a stream that another takes for its own is undone by that one while it has nothing active. */
  lemma TakenIsUndone(decorate: Decoration, sanitises: bool, first: Setup, second: Setup, mark: StreamMark)
    requires ValidSetup(first) && ValidSetup(second)
    requires Registered(first, mark) && TakenBy(sanitises, second.ns, first.ns, mark)
    ensures UniqueSlots(DesiredFrom(first, AllActive(first))) && UniqueSlots(DesiredFrom(second, NoneActive()))
    ensures Undoes(Storing(decorate, sanitises), BridgeOf(second, NoneActive()), BridgeOf(first, AllActive(first)),
                   mark.slot)
  {
    hide Storing, DesiredFrom, JsonValues.Drifted, ParseManagedName, ListedOwner, AllActive;
    var d := RegisteredIsEnabled(first, mark);
    DesiredIsUnique(first, AllActive(first));
    DesiredIsUnique(second, NoneActive());
    EnabledAtIs(DesiredFrom(first, AllActive(first)), d);
    OwnerOfStored(decorate, sanitises, first.ns, d, mark);
    NoneActiveIsIdle(second, mark.slot);
  }

  /** The two bridges come to rest in two rounds, whatever is active at either. */
  ghost predicate AlwaysRest(decorate: Decoration, sanitises: bool, a: Setup, b: Setup)
    requires ListsKnown(a) && ListsKnown(b)
  {
    forall connsA, connsB ::
      RestsInTwoRounds(Storing(decorate, sanitises), [BridgeOf(a, connsA), BridgeOf(b, connsB)])
  }

  /** And have nothing left to plan. */
  ghost predicate AlwaysSettle(decorate: Decoration, sanitises: bool, a: Setup, b: Setup)
    requires ListsKnown(a) && ListsKnown(b)
  {
    forall connsA, connsB ::
      SettlesInTwoRounds(Storing(decorate, sanitises), [BridgeOf(a, connsA), BridgeOf(b, connsB)])
  }

  lemma PairIsUnique(a: Setup, b: Setup, connsA: Connections, connsB: Connections)
    requires ValidSetup(a) && ValidSetup(b)
    ensures AllUnique([BridgeOf(a, connsA), BridgeOf(b, connsB)])
  {
    DesiredIsUnique(a, connsA);
    DesiredIsUnique(b, connsB);
  }

  /** Two bridges of different namespaces come to rest, whatever is active and whatever the daemon holds, if and
      only if neither has a stream that is listed as one of the other, on its own side. */
  lemma SetupsRestIff(decorate: Decoration, sanitises: bool, a: Setup, b: Setup)
    requires ValidSetup(a) && ValidSetup(b) && a.ns != b.ns
    ensures AlwaysRest(decorate, sanitises, a, b)
            <==> !SomeTaken(sanitises, a, b.ns) && !SomeTaken(sanitises, b, a.ns)
  {
    hide Storing, DesiredFrom, Undoes, RestsInTwoRounds, SomeTaken, AllUnique;
    var store := Storing(decorate, sanitises);
    if !SomeTaken(sanitises, a, b.ns) && !SomeTaken(sanitises, b, a.ns) {
      forall connsA, connsB
        ensures RestsInTwoRounds(store, [BridgeOf(a, connsA), BridgeOf(b, connsB)])
      {
        NoneTakenRests(decorate, sanitises, a, b, connsA, connsB);
      }
    }
    if SomeTaken(sanitises, a, b.ns) {
      TakenNeverRests(decorate, sanitises, a, b, true);
    } else if SomeTaken(sanitises, b, a.ns) {
      TakenNeverRests(decorate, sanitises, a, b, false);
    }
  }

  lemma NoneTakenRests(decorate: Decoration, sanitises: bool, a: Setup, b: Setup,
                       connsA: Connections, connsB: Connections)
    requires ValidSetup(a) && ValidSetup(b) && a.ns != b.ns
    requires !SomeTaken(sanitises, a, b.ns) && !SomeTaken(sanitises, b, a.ns)
    ensures RestsInTwoRounds(Storing(decorate, sanitises), [BridgeOf(a, connsA), BridgeOf(b, connsB)])
  {
    hide Storing, DesiredFrom, Undoes, RestsInTwoRounds, SomeTaken, AllUnique;
    var store, x, y := Storing(decorate, sanitises), BridgeOf(a, connsA), BridgeOf(b, connsB);
    forall slot
      ensures !Clash(store, x, y, slot)
    {
      if Undoes(store, y, x, slot) {
        UndoneIsTaken(decorate, sanitises, a, b, connsA, connsB, slot);
      }
      if Undoes(store, x, y, slot) {
        UndoneIsTaken(decorate, sanitises, b, a, connsB, connsA, slot);
      }
    }
    PairIsUnique(a, b, connsA, connsB);
    PairRestsIff(store, [x, y]);
  }

  lemma TakenNeverRests(decorate: Decoration, sanitises: bool, a: Setup, b: Setup, first: bool)
    requires ValidSetup(a) && ValidSetup(b)
    requires if first then SomeTaken(sanitises, a, b.ns) else SomeTaken(sanitises, b, a.ns)
    ensures !AlwaysRest(decorate, sanitises, a, b)
  {
    hide Storing, DesiredFrom, Undoes, RestsInTwoRounds, AllUnique, Registered, TakenBy, AllActive, NoneActive;
    var store := Storing(decorate, sanitises);
    var connsA := if first then AllActive(a) else NoneActive();
    var connsB := if first then NoneActive() else AllActive(b);
    var bridges := [BridgeOf(a, connsA), BridgeOf(b, connsB)];
    PairIsUnique(a, b, connsA, connsB);
    if first {
      var mark :| Registered(a, mark) && TakenBy(sanitises, b.ns, a.ns, mark);
      TakenIsUndone(decorate, sanitises, a, b, mark);
      ClashingPairNeverRests(store, bridges, mark.slot);
    } else {
      var mark :| Registered(b, mark) && TakenBy(sanitises, a.ns, b.ns, mark);
      TakenIsUndone(decorate, sanitises, b, a, mark);
      ClashingPairNeverRests(store, bridges, mark.slot);
    }
    assert !RestsInTwoRounds(store, [BridgeOf(a, connsA), BridgeOf(b, connsB)]);
  }

  /** Some stream of the setup has brackets to lose and yet is listed as one of its own bridge. */
  ghost predicate SomeRewritten(sanitises: bool, setup: Setup) {
    exists mark :: Registered(setup, mark) && RewrittenMark(sanitises, setup.ns, mark)
  }

  predicate RewrittenMark(sanitises: bool, ns: string, mark: StreamMark) {
    var owner := ListedOwner(sanitises, ns, mark);
    sanitises && owner.Some? && owner.value.ns == ns && !BracketFree(MarkedName(ns, mark))
  }

  lemma RewrittenIffMarked(decorate: Decoration, sanitises: bool, ns: string, d: DesiredStream, mark: StreamMark)
    requires Bears(ns, d, mark)
    ensures RewrittenOnSight(Storing(decorate, sanitises), ns, d) <==> RewrittenMark(sanitises, ns, mark)
  {
    hide Storing, ParseManagedName, RewrittenOnSight, BracketFree;
    RewrittenIff(decorate, sanitises, ns, d);
  }

  lemma NoneMarkedRewritten(decorate: Decoration, sanitises: bool, setup: Setup, conns: Connections)
    requires ValidSetup(setup) && !SomeRewritten(sanitises, setup)
    ensures NoneRewritten(Storing(decorate, sanitises), setup.ns, DesiredFrom(setup, conns))
  {
    hide Storing, DesiredFrom, RewrittenOnSight, RewrittenMark, Bears;
    forall d | d in DesiredFrom(setup, conns) && d.enabled
      ensures !RewrittenOnSight(Storing(decorate, sanitises), setup.ns, d)
    {
      var mark := EnabledIsRegistered(setup, conns, d);
      RewrittenIffMarked(decorate, sanitises, setup.ns, d, mark);
    }
  }

  lemma MarkedRewrittenNeverSettles(decorate: Decoration, sanitises: bool, a: Setup, b: Setup, first: bool)
    requires ValidSetup(a) && ValidSetup(b) && !SomeTaken(sanitises, a, b.ns) && !SomeTaken(sanitises, b, a.ns)
    requires SomeRewritten(sanitises, if first then a else b)
    ensures !AlwaysSettle(decorate, sanitises, a, b)
  {
    hide Storing, DesiredFrom, RewrittenOnSight, RewrittenMark, Bears, SettlesInTwoRounds, AllUnique, Registered;
    hide AllActive, NoneActive, TakenBy;
    var store := Storing(decorate, sanitises);
    var connsA := if first then AllActive(a) else NoneActive();
    var connsB := if first then NoneActive() else AllActive(b);
    var bridges := [BridgeOf(a, connsA), BridgeOf(b, connsB)];
    PairIsUnique(a, b, connsA, connsB);
    var setup, other := if first then a else b, if first then b else a;
    var mark :| Registered(setup, mark) && RewrittenMark(sanitises, setup.ns, mark);
    var d := RegisteredIsEnabled(setup, mark);
    RewrittenIffMarked(decorate, sanitises, setup.ns, d, mark);
    assert !TakenBy(sanitises, other.ns, setup.ns, mark);
    NotTakenWhileIdle(decorate, sanitises, setup, other, d, mark);
    RewrittenNeverSettles(store, bridges, if first then 0 else 1, d);
    assert !SettlesInTwoRounds(store, [BridgeOf(a, connsA), BridgeOf(b, connsB)]);
  }

  lemma NotTakenWhileIdle(decorate: Decoration, sanitises: bool, setup: Setup, other: Setup, d: DesiredStream,
                          mark: StreamMark)
    requires ListsKnown(other) && Bears(setup.ns, d, mark) && !TakenBy(sanitises, other.ns, setup.ns, mark)
    ensures d.enabled
    ensures !Takes(BridgeOf(other, NoneActive()), d.slot, Stored(Storing(decorate, sanitises), d.slot, d.payload))
  {
    hide Storing, DesiredFrom, ListedOwner;
    OwnerOfStored(decorate, sanitises, setup.ns, d, mark);
    NoneActiveIsIdle(other, d.slot);
  }

  /** Two bridges of different namespaces have nothing left to plan after two rounds, whatever is active and whatever
      the daemon holds, if and only if neither has a stream that is listed as one of the other, on its own side, or
      that is listed as its own without the brackets it was written with. */
  lemma SetupsSettleIff(decorate: Decoration, sanitises: bool, a: Setup, b: Setup)
    requires ValidSetup(a) && ValidSetup(b) && a.ns != b.ns
    ensures AlwaysSettle(decorate, sanitises, a, b)
            <==> && !SomeTaken(sanitises, a, b.ns) && !SomeTaken(sanitises, b, a.ns)
                 && !SomeRewritten(sanitises, a) && !SomeRewritten(sanitises, b)
  {
    hide Storing, DesiredFrom, RestsInTwoRounds, SettlesInTwoRounds, SomeTaken, SomeRewritten, AllUnique, NoClash;
    hide NoneRewritten;
    var store := Storing(decorate, sanitises);
    SetupsRestIff(decorate, sanitises, a, b);
    forall connsA, connsB
      ensures var bridges := [BridgeOf(a, connsA), BridgeOf(b, connsB)];
              && (SettlesInTwoRounds(store, bridges) ==> RestsInTwoRounds(store, bridges))
              && (!SomeRewritten(sanitises, a) && !SomeRewritten(sanitises, b) && RestsInTwoRounds(store, bridges) ==>
                    SettlesInTwoRounds(store, bridges))
    {
      RestMeansSettled(decorate, sanitises, a, b, connsA, connsB);
    }
    if !SomeTaken(sanitises, a, b.ns) && !SomeTaken(sanitises, b, a.ns) {
      if SomeRewritten(sanitises, a) {
        MarkedRewrittenNeverSettles(decorate, sanitises, a, b, true);
      } else if SomeRewritten(sanitises, b) {
        MarkedRewrittenNeverSettles(decorate, sanitises, a, b, false);
      }
    }
  }

  lemma RestMeansSettled(decorate: Decoration, sanitises: bool, a: Setup, b: Setup,
                         connsA: Connections, connsB: Connections)
    requires ValidSetup(a) && ValidSetup(b)
    ensures var store, bridges := Storing(decorate, sanitises), [BridgeOf(a, connsA), BridgeOf(b, connsB)];
            && (SettlesInTwoRounds(store, bridges) ==> RestsInTwoRounds(store, bridges))
            && (!SomeRewritten(sanitises, a) && !SomeRewritten(sanitises, b) && RestsInTwoRounds(store, bridges) ==>
                  SettlesInTwoRounds(store, bridges))
  {
    hide Storing, DesiredFrom, RestsInTwoRounds, SettlesInTwoRounds, SomeRewritten, AllUnique, NoClash, NoneRewritten;
    var store, bridges := Storing(decorate, sanitises), [BridgeOf(a, connsA), BridgeOf(b, connsB)];
    PairIsUnique(a, b, connsA, connsB);
    if SettlesInTwoRounds(store, bridges) {
      SettlingRests(store, bridges);
    }
    if !SomeRewritten(sanitises, a) && !SomeRewritten(sanitises, b) {
      NoneMarkedRewritten(decorate, sanitises, a, connsA);
      NoneMarkedRewritten(decorate, sanitises, b, connsB);
      PairRestsIff(store, bridges);
      PairSettlesIff(store, bridges);
    }
  }

  // ----- from the settings -----

  /** What an operator can look up in two sets of settings before starting either bridge. */
  ghost predicate TakenIn(sanitises: bool, config: BridgeConfig, other: string) {
    exists mark :: Configured(config, mark) && TakenBy(sanitises, other, config.ns, mark)
  }

  ghost predicate RewrittenIn(sanitises: bool, config: BridgeConfig) {
    exists mark :: Configured(config, mark) && RewrittenMark(sanitises, config.ns, mark)
  }

  lemma SameMarks(sanitises: bool, setup: Setup, config: BridgeConfig, senderId: string -> string,
                  receiverId: string -> string, other: string)
    requires ValidConfig(config) && SetUpFrom(setup, config, senderId, receiverId)
    requires IdsSeparate(config, senderId, receiverId)
    ensures SomeTaken(sanitises, setup, other) <==> TakenIn(sanitises, config, other)
    ensures SomeRewritten(sanitises, setup) <==> RewrittenIn(sanitises, config)
  {
    hide TakenBy, RewrittenMark, Registered, Configured, IdsSeparate, ValidConfig;
    forall mark
      ensures Registered(setup, mark) <==> Configured(config, mark)
    {
      RegisteredIffConfigured(setup, config, senderId, receiverId, mark);
    }
  }

  /** For two validated sets of settings with different namespaces: the bridges settle in two rounds, whatever is
      active at either and whatever the daemon holds, if and only if no stream configured for the one is listed as
      one of the other on its own side, and, where the daemon sanitises names, none is listed as its own without
      the brackets it was written with. The two bridges' resource ids are derived from seeds of their own. */
  lemma ConfigsSettleIff(decorate: Decoration, sanitises: bool,
                         a: Setup, configA: BridgeConfig, senderIdA: string -> string, receiverIdA: string -> string,
                         b: Setup, configB: BridgeConfig, senderIdB: string -> string, receiverIdB: string -> string)
    requires ValidConfig(configA) && SetUpFrom(a, configA, senderIdA, receiverIdA)
    requires ValidConfig(configB) && SetUpFrom(b, configB, senderIdB, receiverIdB)
    requires IdsSeparate(configA, senderIdA, receiverIdA) && IdsSeparate(configB, senderIdB, receiverIdB)
    requires configA.ns != configB.ns
    ensures ValidSetup(a) && ValidSetup(b)
    ensures AlwaysRest(decorate, sanitises, a, b)
            <==> !TakenIn(sanitises, configA, configB.ns) && !TakenIn(sanitises, configB, configA.ns)
    ensures AlwaysSettle(decorate, sanitises, a, b)
            <==> && !TakenIn(sanitises, configA, configB.ns) && !TakenIn(sanitises, configB, configA.ns)
                 && !RewrittenIn(sanitises, configA) && !RewrittenIn(sanitises, configB)
  {
    hide SomeTaken, SomeRewritten, TakenIn, RewrittenIn, IdsSeparate, AlwaysRest, AlwaysSettle;
    SetUpIsValid(a, configA, senderIdA, receiverIdA);
    SetUpIsValid(b, configB, senderIdB, receiverIdB);
    SameMarks(sanitises, a, configA, senderIdA, receiverIdA, configB.ns);
    SameMarks(sanitises, b, configB, senderIdB, receiverIdB, configA.ns);
    SetupsRestIff(decorate, sanitises, a, b);
    SetupsSettleIff(decorate, sanitises, a, b);
  }

  // ----- settings that collide -----

  /** A bridge with a stream that another takes for its own, and the other with nothing active: after any number of
      turns of the two the first plans to create its stream again. */
  lemma TakenForEver(decorate: Decoration, sanitises: bool, a: Setup, b: Setup, mark: StreamMark, n: nat)
    requires ValidSetup(a) && ValidSetup(b)
    requires Registered(a, mark) && TakenBy(sanitises, b.ns, a.ns, mark)
    ensures var bridges := [BridgeOf(a, AllActive(a)), BridgeOf(b, NoneActive())];
            && Schedule(bridges, Turns(0, 1, n))
            && PlanOps(a.ns, bridges[0].desired,
                       RunFleet(Storing(decorate, sanitises), bridges, Turns(0, 1, n), DaemonState(map[], map[]))) != []
  {
    hide PlanOps, Undoes, AllActive, NoneActive, DesiredFrom, UniqueSlots, Storing, TakenBy, Registered;
    TakenIsUndone(decorate, sanitises, a, b, mark);
    var bridges := [BridgeOf(a, AllActive(a)), BridgeOf(b, NoneActive())];
    UndoneForEver(Storing(decorate, sanitises), bridges, 0, 1, mark.slot, n, DaemonState(map[], map[]));
  }

  /** On a daemon that keeps names: a namespace that holds a marker of a shorter one gives its streams away, each to
      the side the marker names. */
  lemma LongerIsTaken(ns: string, inner: Side, q: string, mark: StreamMark)
    requires PlainNamespace(ns) && q != "" && q[0] != ' '
    ensures var owner := ListedOwner(false, Inside(ns, inner, q), mark);
            owner.Some? && owner.value.ns == ns && owner.value.side == inner
  {
    hide ParseManagedName, PlainNamespace, ManagedName, Inside;
    MarkersCollide(ns, inner, q, mark.slot.side, mark.nmosId, mark.title);
    var id := q + (")/" + (SideToString(mark.slot.side) + "/" + mark.nmosId));
    assert id[0] == q[0];
    NamespaceComesBack(ns, inner, id, mark.title);
  }

  /** On a daemon that sanitises names: a namespace with brackets gives its streams away to the one without. */
  lemma BracketedIsTaken(ns: string, mark: StreamMark)
    requires PlainNamespace(StripBrackets(ns))
    requires StripBrackets(mark.nmosId) != "" && StripBrackets(mark.nmosId)[0] != ' '
    ensures TakenBy(true, StripBrackets(ns), ns, mark)
  {
    hide ParseManagedName, PlainNamespace, StripBrackets, SideToString;
    StripManagedName(ns, mark.slot.side, mark.nmosId, mark.title);
    StrippedTail(mark.title);
    MarkerComesBack(StripBrackets(ns), mark.slot.side, StripBrackets(mark.nmosId), StripBrackets(Tail(mark.title)));
  }

  lemma StrippedTail(title: string)
    ensures SetOff(StripBrackets(Tail(title)))
  {
  }

  /** The namespaces "a[b" and "ab" are different and plain, and collide so. */
  lemma BracketExample(mark: StreamMark)
    requires StripBrackets(mark.nmosId) != "" && StripBrackets(mark.nmosId)[0] != ' '
    ensures PlainNamespace("a[b") && PlainNamespace("ab") && TakenBy(true, "ab", "a[b", mark)
  {
    assert StripBrackets("b") == "b" && "[b"[1..] == "b" && "a[b"[1..] == "[b";
    assert StripBrackets("a[b") == "ab";
    forall j: nat
      ensures !At("a[b", ")/", j) && !At("ab", ")/", j)
    {
      assert ")/"[0] == ')';
      if j < 3 {
        assert "a[b"[j] != ')';
      }
      if j < 2 {
        assert "ab"[j] != ')';
      }
    }
    BracketedIsTaken("a[b", mark);
  }

  function OneSender(ns: string, interval: real, sender: SenderConfig): BridgeConfig {
    BridgeConfig(ns, interval, [sender], [])
  }

  function NoStreams(ns: string, interval: real): BridgeConfig {
    BridgeConfig(ns, interval, [], [])
  }

  lemma SenderIsRegistered(setup: Setup, ns: string, interval: real, sender: SenderConfig,
                           senderId: string -> string, receiverId: string -> string)
    requires SetUpFrom(setup, OneSender(ns, interval, sender), senderId, receiverId)
    ensures Registered(setup, SenderMark(sender))
  {
    var k := senderId(sender.nmosId);
    assert OneSender(ns, interval, sender).senders[0] == sender;
    assert ((s: SenderConfig) => senderId(s.nmosId))(sender) in setup.registry.senders;
    assert setup.registry.senders[k] == sender;
  }

  /** Validation asks for too little. For every plain namespace, a set of settings that passes it, with any one
      sender and with a namespace that holds a marker of the first, makes a bridge that plans to create its stream
      again after any number of turns beside an idle bridge of the first, whose settings pass too. */
  lemma ValidSettingsCanCollide(decorate: Decoration, ns: string, q: string, interval: real, sender: SenderConfig,
                                longer: Setup, shorter: Setup, senderId: string -> string,
                                receiverId: string -> string, n: nat)
    requires PlainNamespace(ns) && q != "" && q[0] != ' '
    requires interval > 0.0 && 0 <= sender.daemonId <= 63 && sender.channels != []
    requires SetUpFrom(longer, OneSender(Inside(ns, Sender, q), interval, sender), senderId, receiverId)
    requires SetUpFrom(shorter, NoStreams(ns, interval), senderId, receiverId)
    ensures ValidConfig(OneSender(Inside(ns, Sender, q), interval, sender)) && ValidConfig(NoStreams(ns, interval))
    ensures ValidSetup(longer) && ValidSetup(shorter)
    ensures var bridges := [BridgeOf(longer, AllActive(longer)), BridgeOf(shorter, NoneActive())];
            && Schedule(bridges, Turns(0, 1, n))
            && PlanOps(longer.ns, bridges[0].desired,
                       RunFleet(Storing(decorate, false), bridges, Turns(0, 1, n), DaemonState(map[], map[]))) != []
  {
    hide PlanOps, AllActive, NoneActive, DesiredFrom, Storing, ListedOwner, PlainNamespace, Registered, RunFleet;
    var long := OneSender(Inside(ns, Sender, q), interval, sender);
    assert ns != "" by {
      PlainIsNonempty(ns);
    }
    SetUpIsValid(longer, long, senderId, receiverId);
    SetUpIsValid(shorter, NoStreams(ns, interval), senderId, receiverId);
    SenderIsRegistered(longer, long.ns, interval, sender, senderId, receiverId);
    LongerIsTaken(ns, Sender, q, SenderMark(sender));
    TakenForEver(decorate, false, longer, shorter, SenderMark(sender), n);
  }

  lemma PlainIsNonempty(ns: string)
    requires PlainNamespace(ns)
    ensures ns != ""
  {
  }

  // ----- taken for another's, and yet at rest -----

  /** That one bridge takes the other's streams for its own does not decide: a bridge of sources whose namespace
      holds a receiver's marker of the other never clashes with it. To the other its sources are own streams on the
      wrong side, which the cleanup passes over. */
  lemma TrespassWithoutClash(decorate: Decoration, ns: string, q: string, longer: Setup, shorter: Setup)
    requires PlainNamespace(ns) && q != "" && q[0] != ' '
    requires ValidSetup(longer) && longer.ns == Inside(ns, Receiver, q) && longer.registry.receivers.Keys == {}
    requires ValidSetup(shorter) && shorter.ns == ns
    ensures forall mark :: Registered(longer, mark) ==>
              var owner := ListedOwner(false, longer.ns, mark);
              owner.Some? && owner.value.ns == shorter.ns
    ensures AlwaysSettle(decorate, false, longer, shorter)
  {
    hide ListedOwner, PlainNamespace, AlwaysSettle;
    forall mark
      ensures Registered(longer, mark) ==> mark.slot.side == Sender
      ensures var owner := ListedOwner(false, longer.ns, mark);
              owner.Some? && owner.value.ns == ns && owner.value.side == Receiver
      ensures !TakenBy(false, longer.ns, ns, mark)
    {
      LongerIsTaken(ns, Receiver, q, mark);
      OwnerOpensWriter(false, ns, mark);
    }
    SetupsSettleIff(decorate, false, longer, shorter);
  }
}
