/** What of a configured stream decides whose it is: its slot and the marker it is named by. */
module StreamMarks {
  import JsonValues
  import opened Wrappers
  import opened Ownership
  import opened OwnershipLaws
  import opened DaemonStates
  import opened Reconcilers
  import opened Convergence
  import opened Sanitising
  import opened Configs
  import opened DesiredState
  import opened ConfigConvergence

  datatype StreamMark = StreamMark(slot: Slot, nmosId: string, title: string)

  function SenderMark(cfg: SenderConfig): StreamMark {
    StreamMark(Slot(Sender, cfg.daemonId), cfg.nmosId, cfg.title)
  }

  function ReceiverMark(cfg: ReceiverConfig): StreamMark {
    StreamMark(Slot(Receiver, cfg.daemonId), cfg.nmosId, cfg.title)
  }

  /** The name a bridge of namespace ns gives the stream. */
  function MarkedName(ns: string, mark: StreamMark): string {
    ManagedName(ns, mark.slot.side, mark.nmosId, mark.title)
  }

  ghost predicate Registered(setup: Setup, mark: StreamMark) {
    || (exists k :: k in setup.registry.senders && mark == SenderMark(setup.registry.senders[k]))
    || (exists k :: k in setup.registry.receivers && mark == ReceiverMark(setup.registry.receivers[k]))
  }

  ghost predicate Configured(config: BridgeConfig, mark: StreamMark) {
    || (exists s :: s in config.senders && mark == SenderMark(s))
    || (exists r :: r in config.receivers && mark == ReceiverMark(r))
  }

  lemma RegisteredIffConfigured(setup: Setup, config: BridgeConfig, senderId: string -> string,
                                receiverId: string -> string, mark: StreamMark)
    requires ValidConfig(config) && SetUpFrom(setup, config, senderId, receiverId)
    requires IdsSeparate(config, senderId, receiverId)
    ensures Registered(setup, mark) <==> Configured(config, mark)
  {
    forall s
      ensures s in config.senders <==> exists k :: k in setup.registry.senders && setup.registry.senders[k] == s
    {
      EachRegistered(setup.registry.senders, config.senders, SenderKey, (s: SenderConfig) => senderId(s.nmosId), s);
    }
    forall r
      ensures r in config.receivers <==> exists k :: k in setup.registry.receivers && setup.registry.receivers[k] == r
    {
      EachRegistered(setup.registry.receivers, config.receivers, ReceiverKey,
                     (r: ReceiverConfig) => receiverId(r.nmosId), r);
    }
  }

  /** The desired stream is the enabled form of the marked one. */
  ghost predicate Bears(ns: string, d: DesiredStream, mark: StreamMark) {
    && d.enabled && d.slot == mark.slot && Named(d.payload)
    && JsonValues.NameOf(d.payload) == MarkedName(ns, mark)
  }

  lemma SenderBears(cfg: SenderConfig, ns: string, conn: Option<SenderActive>)
    requires DesiredSender(cfg, ns, conn).enabled
    ensures Bears(ns, DesiredSender(cfg, ns, conn), SenderMark(cfg))
  {
    hide ManagedName, IntArray;
  }

  lemma ReceiverBears(cfg: ReceiverConfig, ns: string, conn: Option<ReceiverActive>)
    requires DesiredReceiver(cfg, ns, conn).enabled
    ensures Bears(ns, DesiredReceiver(cfg, ns, conn), ReceiverMark(cfg))
  {
    hide ManagedName, IntArray;
  }

  /** What is enabled is registered. */
  lemma EnabledIsRegistered(setup: Setup, conns: Connections, d: DesiredStream) returns (mark: StreamMark)
    requires ListsKnown(setup) && d in DesiredFrom(setup, conns) && d.enabled
    ensures Registered(setup, mark) && Bears(setup.ns, d, mark)
  {
    hide DesiredSender, DesiredReceiver, Bears;
    var desired, n := DesiredFrom(setup, conns), |setup.senderIds|;
    var i :| 0 <= i < |desired| && desired[i] == d;
    if i < n {
      var k := setup.senderIds[i];
      mark := SenderMark(setup.registry.senders[k]);
      SenderBears(setup.registry.senders[k], setup.ns, Get(conns.senders, k));
    } else {
      var k := setup.receiverIds[i - n];
      mark := ReceiverMark(setup.registry.receivers[k]);
      ReceiverBears(setup.registry.receivers[k], setup.ns, Get(conns.receivers, k));
    }
  }

  /** What is registered is enabled when all streams are active. */
  lemma RegisteredIsEnabled(setup: Setup, mark: StreamMark) returns (d: DesiredStream)
    requires ValidSetup(setup) && Registered(setup, mark)
    ensures d in DesiredFrom(setup, AllActive(setup)) && Bears(setup.ns, d, mark)
  {
    hide DesiredSender, DesiredReceiver, DesiredFrom, Bears, ActiveSender, ActiveReceiver;
    if k :| k in setup.registry.senders && mark == SenderMark(setup.registry.senders[k]) {
      ActiveSenderListed(setup, k);
      SenderBears(setup.registry.senders[k], setup.ns, Some(ActiveSender()));
      d := DesiredSender(setup.registry.senders[k], setup.ns, Some(ActiveSender()));
    } else {
      var k :| k in setup.registry.receivers && mark == ReceiverMark(setup.registry.receivers[k]);
      ActiveReceiverListed(setup, k);
      ReceiverBears(setup.registry.receivers[k], setup.ns, Some(ActiveReceiver()));
      d := DesiredReceiver(setup.registry.receivers[k], setup.ns, Some(ActiveReceiver()));
    }
  }

  // ----- whose a listed marker is -----

  /** The owner the daemon's listing names for a stream that a bridge of namespace ns writes. */
  function ListedOwner(sanitises: bool, ns: string, mark: StreamMark): Option<Ownership> {
    ParseManagedName(ListedName(sanitises, MarkedName(ns, mark)))
  }

  /** Another namespace takes the stream for its own, and for one of the side it is filed on. */
  predicate TakenBy(sanitises: bool, other: string, ns: string, mark: StreamMark) {
    var owner := ListedOwner(sanitises, ns, mark);
    owner.Some? && owner.value.ns == other && owner.value.side == mark.slot.side
  }

  /** What is left of the namespace in the listing. */
  function ListedNamespace(sanitises: bool, ns: string): string {
    if sanitises then StripBrackets(ns) else ns
  }

  /** The owner's namespace opens what is left of the writer's. */
  lemma OwnerOpensWriter(sanitises: bool, ns: string, mark: StreamMark)
    ensures var owner := ListedOwner(sanitises, ns, mark);
            owner.Some? ==> owner.value.ns <= ListedNamespace(sanitises, ns)
  {
    hide ParseManagedName, StripBrackets, SideToString, Tail;
    var rest := SideToString(mark.slot.side) + "/" + mark.nmosId + Tail(mark.title);
    if sanitises {
      StripManagedName(ns, mark.slot.side, mark.nmosId, mark.title);
      ParsedOpensWritten(StripBrackets(ns), SideToString(mark.slot.side) + "/" + StripBrackets(mark.nmosId)
                                            + StripBrackets(Tail(mark.title)));
    } else {
      ParsedOpensWritten(ns, rest);
    }
  }

  /** Two different namespaces cannot each be read as the other. */
  lemma NotEachOther(sanitises: bool, a: string, b: string, markA: StreamMark, markB: StreamMark)
    requires a != b
    requires ListedOwner(sanitises, a, markA).Some? && ListedOwner(sanitises, a, markA).value.ns == b
    ensures !(ListedOwner(sanitises, b, markB).Some? && ListedOwner(sanitises, b, markB).value.ns == a)
  {
    hide ListedOwner;
    OwnerOpensWriter(sanitises, a, markA);
    OwnerOpensWriter(sanitises, b, markB);
    StripShortens(a);
    StripShortens(b);
  }

  lemma BearerIsListed(decorate: Decoration, sanitises: bool, ns: string, d: DesiredStream, mark: StreamMark)
    requires Bears(ns, d, mark)
    ensures ParseManagedName(Stored(Storing(decorate, sanitises), d.slot, d.payload).name)
            == ListedOwner(sanitises, ns, mark)
  {
    hide Storing, ParseManagedName;
    StoredName(decorate, sanitises, d);
  }
}
