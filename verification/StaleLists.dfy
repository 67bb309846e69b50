/** What a list of desired streams that is out of date can leave behind. */
module StaleLists {
  import opened Wrappers
  import opened JsonValues
  import opened Ownership
  import opened OwnershipLaws
  import opened DaemonStates
  import opened Snapshots
  import opened Reconcilers
  import opened Targets
  import opened Convergence
  import opened Sanitising
  import opened Configs
  import opened DesiredState
  import opened ConfigConvergence
  import opened FleetSettings

  /** For one bridge's lists, stale and current: reconciling with both leaves what reconciling with the current one
      alone leaves, up to fields only the daemon sets, if and only if no slot is misfiled for them. */
  lemma LastConnectionsWin(decorate: Decoration, sanitises: bool, setup: Setup, stale: Connections,
                           current: Connections, st: DaemonState)
    requires ValidSetup(setup) && FitSetup(sanitises, setup)
    ensures var store, s, c := Storing(decorate, sanitises), DesiredFrom(setup, stale), DesiredFrom(setup, current);
            var both, alone := Pass(store, setup.ns, c, Pass(store, setup.ns, s, st)), Pass(store, setup.ns, c, st);
            (forall slot :: Alike(setup.ns, c, slot, Lookup(both, slot), Lookup(alone, slot)))
            <==> forall slot :: !Misfiled(setup.ns, s, c, slot, Lookup(st, slot))
  {
    hide Storing, DesiredFrom, FitSetup, Alike, Misfiled, Keeps, WellMarked, UniqueSlots;
    FitSetupKeeps(decorate, sanitises, setup, stale);
    FitSetupKeeps(decorate, sanitises, setup, current);
    LastDesiredWins(Storing(decorate, sanitises), setup.ns, DesiredFrom(setup, stale), DesiredFrom(setup, current), st);
  }

  /** A source slot that holds an item marked for a receiver of the bridge, listed under its own id. */
  function MisfiledState(ns: string, cfg: SenderConfig): DaemonState {
    var name := ManagedName(ns, Receiver, cfg.nmosId, cfg.title);
    var item := Object(map["id" := Number(cfg.daemonId), "name" := String(name)]);
    DaemonState(map[cfg.daemonId := DaemonStream(Sender, cfg.daemonId, name, item)], map[])
  }

  lemma MisfiledIsCoherent(ns: string, cfg: SenderConfig)
    ensures Coherent(MisfiledState(ns, cfg))
  {
    hide ManagedName;
  }

  lemma MisfiledIsOwn(ns: string, cfg: SenderConfig)
    requires PlainStream(ns, cfg.nmosId)
    ensures var held := Lookup(MisfiledState(ns, cfg), Slot(Sender, cfg.daemonId));
            held.Some? && OwnNamespace(ns, held.value) && !OwnedOn(ns, Sender, held.value)
  {
    hide ManagedName, ParseManagedName, PlainNamespace;
    NamespaceComesBack(ns, Receiver, cfg.nmosId, cfg.title);
  }

  /** The item is not what the sender writes: the markers name different sides. */
  lemma MisfiledHasDrifted(ns: string, cfg: SenderConfig, conn: Option<SenderActive>)
    requires PlainStream(ns, cfg.nmosId) && DesiredSender(cfg, ns, conn).enabled
    ensures Drifted(Lookup(MisfiledState(ns, cfg), Slot(Sender, cfg.daemonId)).value.payload,
                    DesiredSender(cfg, ns, conn).payload)
  {
    hide ManagedName, ParseManagedName, PlainNamespace, IntArray;
    NamespaceComesBack(ns, Receiver, cfg.nmosId, cfg.title);
    NamespaceComesBack(ns, Sender, cfg.nmosId, cfg.title);
    assert "name" in DesiredSender(cfg, ns, conn).payload.fields;
  }

  /** The trace is real, for every valid setup with a sender whose streams fit the daemon. The sender has been
      deactivated since the stale list was made, and its slot holds a receiver's item. With the stale list first, the
      item is overwritten and then removed; with the current one alone, it stays. */
  lemma StaleListLeavesTrace(decorate: Decoration, sanitises: bool, setup: Setup, k: string)
    returns (stale: Connections, current: Connections, st: DaemonState)
    requires ValidSetup(setup) && FitSetup(sanitises, setup) && k in setup.registry.senders
    ensures Coherent(st)
    ensures var store, ns := Storing(decorate, sanitises), setup.ns;
            var s, c := DesiredFrom(setup, stale), DesiredFrom(setup, current);
            var slot := Slot(Sender, setup.registry.senders[k].daemonId);
            && Misfiled(ns, s, c, slot, Lookup(st, slot))
            && Lookup(Pass(store, ns, c, Pass(store, ns, s, st)), slot).None?
            && Lookup(Pass(store, ns, c, st), slot) == Lookup(st, slot) != None
  {
    hide Storing, DesiredFrom, ParseManagedName, FitSetup, MisfiledState, DesiredSender, AllActive, NoneActive;
    hide ActiveSender, UniqueSlots, WellMarked, Keeps, Drifted;
    var store, cfg := Storing(decorate, sanitises), setup.registry.senders[k];
    var slot := Slot(Sender, cfg.daemonId);
    stale, current, st := AllActive(setup), NoneActive(), MisfiledState(setup.ns, cfg);
    var s, c := DesiredFrom(setup, stale), DesiredFrom(setup, current);
    FitSetupKeeps(decorate, sanitises, setup, stale);
    FitSetupKeeps(decorate, sanitises, setup, current);
    ActiveSenderListed(setup, k);
    SlotOfSender(cfg, setup.ns, Some(ActiveSender()));
    EnabledAtIs(s, DesiredSender(cfg, setup.ns, Some(ActiveSender())));
    NoneActiveIsIdle(setup, slot);
    assert PlainStream(setup.ns, cfg.nmosId) by {
      FitIsPlain(sanitises, setup, k);
    }
    MisfiledIsCoherent(setup.ns, cfg);
    MisfiledIsOwn(setup.ns, cfg);
    MisfiledHasDrifted(setup.ns, cfg, Some(ActiveSender()));
    StoredIsOwned(store, setup.ns, s, slot);
    PassRefinesTarget(store, setup.ns, s, st, slot);
    PassRefinesTarget(store, setup.ns, c, st, slot);
    PassRefinesTarget(store, setup.ns, c, Pass(store, setup.ns, s, st), slot);
  }

  lemma SlotOfSender(cfg: SenderConfig, ns: string, conn: Option<SenderActive>)
    ensures DesiredSender(cfg, ns, conn).slot == Slot(Sender, cfg.daemonId)
  {
  }

  lemma FitIsPlain(sanitises: bool, setup: Setup, k: string)
    requires FitSetup(sanitises, setup) && k in setup.registry.senders
    ensures PlainStream(setup.ns, setup.registry.senders[k].nmosId)
  {
  }
}
