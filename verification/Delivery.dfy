/** From a connection to the daemon: what one complete pass makes of each configured slot. */
module Delivery {
  import opened Wrappers
  import opened JsonValues
  import opened Ownership
  import opened DaemonStates
  import opened Reconcilers
  import opened Targets
  import opened Convergence
  import opened DesiredState

  /** The slot's stream after a complete pass for the connections. */
  ghost function AfterPass(store: Storage, setup: Setup, conns: Connections, st: DaemonState, slot: Slot)
    : Option<DaemonStream>
    requires ValidSetup(setup)
  {
    Lookup(Pass(store, setup.ns, DesiredFrom(setup, conns), st), slot)
  }

  /** The slot is free, or holds a stream of the bridge. */
  predicate OpenTo(ns: string, held: Option<DaemonStream>) {
    held.Some? ==> OwnNamespace(ns, held.value)
  }

  lemma UnwantedIsCleared(store: Storage, setup: Setup, conns: Connections, st: DaemonState, d: DesiredStream)
    requires ValidSetup(setup) && d in DesiredFrom(setup, conns) && !d.enabled
    ensures var after := AfterPass(store, setup, conns, st, d.slot);
            after.Some? ==> !OwnedOn(setup.ns, d.slot.side, after.value)
  {
    hide DesiredFrom, OwnedOn, Drifted;
    DesiredIsUnique(setup, conns);
    EnabledAtIs(DesiredFrom(setup, conns), d);
    PassRefinesTarget(store, setup.ns, DesiredFrom(setup, conns), st, d.slot);
  }

  /** Every field that the payload sets is in the daemon's copy. */
  predicate Carries(held: DaemonStream, payload: Json) {
    payload.Object? && forall key :: key in payload.fields ==> Says(held.payload, key, payload.fields[key])
  }

  lemma WantedIsDelivered(store: Storage, setup: Setup, conns: Connections, st: DaemonState, d: DesiredStream)
    requires ValidSetup(setup) && d in DesiredFrom(setup, conns) && d.enabled && d.payload.Object?
    requires !Drifted(store(d.slot, d.payload), d.payload) && OpenTo(setup.ns, Lookup(st, d.slot))
    ensures var after := AfterPass(store, setup, conns, st, d.slot);
            after.Some? && Carries(after.value, d.payload)
  {
    hide DesiredFrom, OwnNamespace, OwnedOn;
    DesiredIsUnique(setup, conns);
    EnabledAtIs(DesiredFrom(setup, conns), d);
    PassRefinesTarget(store, setup.ns, DesiredFrom(setup, conns), st, d.slot);
  }

  /** Master enable off, the first leg off, or nowhere to go: after a complete pass the sender's slot holds no source
      of the bridge. This asks nothing of the daemon. */
  lemma IdleSenderIsCleared(store: Storage, setup: Setup, conns: Connections, st: DaemonState, k: string)
    requires ValidSetup(setup) && k in setup.registry.senders
    requires forall address: string :: !SendsTo(Get(conns.senders, k), setup.registry.senders[k], address)
    ensures var slot := Slot(Sender, setup.registry.senders[k].daemonId);
            var after := AfterPass(store, setup, conns, st, slot);
            after.Some? ==> !OwnedOn(setup.ns, Sender, after.value)
  {
    hide DesiredFrom, DesiredSender, SendsTo, SaysSource, OwnedOn, AfterPass;
    var cfg := setup.registry.senders[k];
    var d := DesiredSender(cfg, setup.ns, Get(conns.senders, k));
    SenderWantedIff(cfg, setup.ns, Get(conns.senders, k));
    AskedIsListed(setup, conns, k, d);
    UnwantedIsCleared(store, setup, conns, st, d);
  }

  lemma IdleReceiverIsCleared(store: Storage, setup: Setup, conns: Connections, st: DaemonState, k: string)
    requires ValidSetup(setup) && k in setup.registry.receivers
    requires forall sdp: string :: !ReceivesFrom(Get(conns.receivers, k), sdp)
    ensures var slot := Slot(Receiver, setup.registry.receivers[k].daemonId);
            var after := AfterPass(store, setup, conns, st, slot);
            after.Some? ==> !OwnedOn(setup.ns, Receiver, after.value)
  {
    hide DesiredFrom, DesiredReceiver, ReceivesFrom, SaysSink, OwnedOn, AfterPass;
    var cfg := setup.registry.receivers[k];
    var d := DesiredReceiver(cfg, setup.ns, Get(conns.receivers, k));
    ReceiverWantedIff(cfg, setup.ns, Get(conns.receivers, k));
    AskedIsListed(setup, conns, k, d);
    UnwantedIsCleared(store, setup, conns, st, d);
  }

  /** An active sender whose slot is free or the bridge's own: after a complete pass the daemon's source carries every
      setting and the destination, unless the daemon keeps something else of the payload. */
  lemma ActiveSenderIsDelivered(store: Storage, setup: Setup, conns: Connections, st: DaemonState, k: string,
                                address: string) returns (payload: Json)
    requires ValidSetup(setup) && k in setup.registry.senders
    requires SendsTo(Get(conns.senders, k), setup.registry.senders[k], address)
    requires Keeps(store, DesiredFrom(setup, conns))
    requires OpenTo(setup.ns, Lookup(st, Slot(Sender, setup.registry.senders[k].daemonId)))
    ensures SaysSource(payload, setup.registry.senders[k], setup.ns, address)
    ensures var after := AfterPass(store, setup, conns, st, Slot(Sender, setup.registry.senders[k].daemonId));
            after.Some? && Carries(after.value, payload)
  {
    hide DesiredFrom, DesiredSender, SendsTo, Says, SaysNumbers, OwnNamespace, Drifted, AfterPass, Carries;
    var cfg := setup.registry.senders[k];
    var d := DesiredSender(cfg, setup.ns, Get(conns.senders, k));
    SenderWantedIff(cfg, setup.ns, Get(conns.senders, k));
    AskedIsListed(setup, conns, k, d);
    payload := d.payload;
    WantedIsDelivered(store, setup, conns, st, d);
  }

  /** An active receiver likewise. */
  lemma ActiveReceiverIsDelivered(store: Storage, setup: Setup, conns: Connections, st: DaemonState, k: string,
                                  sdp: string) returns (payload: Json)
    requires ValidSetup(setup) && k in setup.registry.receivers
    requires ReceivesFrom(Get(conns.receivers, k), sdp)
    requires Keeps(store, DesiredFrom(setup, conns))
    requires OpenTo(setup.ns, Lookup(st, Slot(Receiver, setup.registry.receivers[k].daemonId)))
    ensures SaysSink(payload, setup.registry.receivers[k], setup.ns, sdp)
    ensures var after := AfterPass(store, setup, conns, st, Slot(Receiver, setup.registry.receivers[k].daemonId));
            after.Some? && Carries(after.value, payload)
  {
    hide DesiredFrom, DesiredReceiver, ReceivesFrom, Says, SaysNumbers, OwnNamespace, Drifted, AfterPass, Carries;
    var cfg := setup.registry.receivers[k];
    var d := DesiredReceiver(cfg, setup.ns, Get(conns.receivers, k));
    ReceiverWantedIff(cfg, setup.ns, Get(conns.receivers, k));
    AskedIsListed(setup, conns, k, d);
    payload := d.payload;
    WantedIsDelivered(store, setup, conns, st, d);
  }
}
