/** From validated settings to convergence, with a daemon that keeps names and with one that sanitises them. */
module ConfigConvergence {
  import Targets
  import opened Wrappers
  import opened JsonValues
  import opened Ownership
  import opened OwnershipLaws
  import opened DaemonStates
  import opened Convergence
  import opened Sanitising
  import opened Configs
  import opened DesiredState

  function ActiveSender(): SenderActive {
    SenderActive(true, Array([Object(map["rtp_enabled" := Bool(true), "destination_ip" := String("239.1.0.1")])]))
  }

  function ActiveReceiver(): ReceiverActive {
    ReceiverActive(true, Object(map["data" := String("v=0")]))
  }

  lemma ActiveSenderIsEnabled(cfg: SenderConfig, ns: string)
    ensures DesiredSender(cfg, ns, Some(ActiveSender())).enabled
  {
    assert ActiveDestinationIp(ActiveSender().transportParams, cfg.address) == "239.1.0.1";
  }

  lemma ActiveReceiverIsEnabled(cfg: ReceiverConfig, ns: string)
    ensures DesiredReceiver(cfg, ns, Some(ActiveReceiver())).enabled
  {
    assert Sdp(ActiveReceiver().transportFile) == "v=0";
  }

  /** Every stream of the setup active: the case in which each of them has to be recognised. */
  ghost function AllActive(setup: Setup): Connections {
    Connections(map k | k in setup.registry.senders :: ActiveSender(),
                map k | k in setup.registry.receivers :: ActiveReceiver())
  }

  /** No stream of the setup active. */
  function NoneActive(): Connections {
    Connections(map[], map[])
  }

  lemma NoneActiveIsIdle(setup: Setup, slot: Slot)
    requires ListsKnown(setup)
    ensures Targets.EnabledAt(DesiredFrom(setup, NoneActive()), slot).None?
  {
    var desired, n := DesiredFrom(setup, NoneActive()), |setup.senderIds|;
    forall i | 0 <= i < |desired|
      ensures !desired[i].enabled
    {
      if i < n {
        assert desired[i] == SenderAt(setup, NoneActive(), i);
      } else {
        assert desired[i] == ReceiverAt(setup, NoneActive(), i - n);
      }
    }
  }

  /** The streams whose markers the bridge reads back as its own, whatever the daemon does to their names. */
  predicate Fits(sanitises: bool, ns: string, nmosId: string, title: string) {
    && PlainStream(ns, nmosId)
    && (sanitises ==> BracketFree(ns) && BracketFree(nmosId) && BracketFree(title))
  }

  lemma SenderKept(decorate: Decoration, sanitises: bool, cfg: SenderConfig, ns: string, conn: Option<SenderActive>)
    requires DesiredSender(cfg, ns, conn).enabled
    ensures KeptAsOwn(Storing(decorate, sanitises), ns, DesiredSender(cfg, ns, conn))
            <==> Fits(sanitises, ns, cfg.nmosId, cfg.title)
  {
    hide KeptAsOwn, Storing, ManagedName, BracketFree, PlainStream, Recognised;
    SenderMarked(cfg, ns, conn);
    KeptIff(decorate, sanitises, ns, DesiredSender(cfg, ns, conn));
    BracketFreeName(ns, Sender, cfg.nmosId, cfg.title);
  }

  lemma ReceiverKept(decorate: Decoration, sanitises: bool, cfg: ReceiverConfig, ns: string,
                     conn: Option<ReceiverActive>)
    requires DesiredReceiver(cfg, ns, conn).enabled
    ensures KeptAsOwn(Storing(decorate, sanitises), ns, DesiredReceiver(cfg, ns, conn))
            <==> Fits(sanitises, ns, cfg.nmosId, cfg.title)
  {
    hide KeptAsOwn, Storing, ManagedName, BracketFree, PlainStream, Recognised;
    ReceiverMarked(cfg, ns, conn);
    KeptIff(decorate, sanitises, ns, DesiredReceiver(cfg, ns, conn));
    BracketFreeName(ns, Receiver, cfg.nmosId, cfg.title);
  }

  /** Every registered stream fits. */
  ghost predicate FitSetup(sanitises: bool, setup: Setup) {
    && (forall k :: k in setup.registry.senders ==>
          Fits(sanitises, setup.ns, setup.registry.senders[k].nmosId, setup.registry.senders[k].title))
    && (forall k :: k in setup.registry.receivers ==>
          Fits(sanitises, setup.ns, setup.registry.receivers[k].nmosId, setup.registry.receivers[k].title))
  }

  ghost predicate AllKept(store: Storage, setup: Setup, conns: Connections)
    requires ListsKnown(setup)
  {
    forall d :: d in DesiredFrom(setup, conns) && d.enabled ==> KeptAsOwn(store, setup.ns, d)
  }

  lemma FitsAreKept(decorate: Decoration, sanitises: bool, setup: Setup, conns: Connections)
    requires ValidSetup(setup) && FitSetup(sanitises, setup)
    ensures AllKept(Storing(decorate, sanitises), setup, conns)
  {
    hide KeptAsOwn, Fits, Storing;
    var desired, n := DesiredFrom(setup, conns), |setup.senderIds|;
    forall i | 0 <= i < |desired| && desired[i].enabled
      ensures KeptAsOwn(Storing(decorate, sanitises), setup.ns, desired[i])
    {
      if i < n {
        var k := setup.senderIds[i];
        SenderKept(decorate, sanitises, setup.registry.senders[k], setup.ns, Get(conns.senders, k));
      } else {
        var k := setup.receiverIds[i - n];
        ReceiverKept(decorate, sanitises, setup.registry.receivers[k], setup.ns, Get(conns.receivers, k));
      }
    }
  }

  /** An active sender is enabled at its place in the list. */
  lemma ActiveSenderListed(setup: Setup, k: string)
    requires ValidSetup(setup) && k in setup.registry.senders
    ensures var d := DesiredSender(setup.registry.senders[k], setup.ns, Some(ActiveSender()));
            d in DesiredFrom(setup, AllActive(setup)) && d.enabled
  {
    hide ActiveSender;
    hide DesiredSender;
    var i :| 0 <= i < |setup.senderIds| && setup.senderIds[i] == k;
    var cfg := setup.registry.senders[k];
    assert DesiredFrom(setup, AllActive(setup))[i] == DesiredSender(cfg, setup.ns, Some(ActiveSender()));
    ActiveSenderIsEnabled(cfg, setup.ns);
  }

  lemma ActiveReceiverListed(setup: Setup, k: string)
    requires ValidSetup(setup) && k in setup.registry.receivers
    ensures var d := DesiredReceiver(setup.registry.receivers[k], setup.ns, Some(ActiveReceiver()));
            d in DesiredFrom(setup, AllActive(setup)) && d.enabled
  {
    hide ActiveReceiver;
    hide DesiredReceiver;
    var i :| 0 <= i < |setup.receiverIds| && setup.receiverIds[i] == k;
    var cfg := setup.registry.receivers[k];
    assert DesiredFrom(setup, AllActive(setup))[|setup.senderIds| + i]
           == DesiredReceiver(cfg, setup.ns, Some(ActiveReceiver()));
    ActiveReceiverIsEnabled(cfg, setup.ns);
  }

  lemma KeptMeansFit(decorate: Decoration, sanitises: bool, setup: Setup)
    requires ValidSetup(setup) && AllKept(Storing(decorate, sanitises), setup, AllActive(setup))
    ensures FitSetup(sanitises, setup)
  {
    hide KeptAsOwn, Fits, Storing, ActiveSender, ActiveReceiver, DesiredSender, DesiredReceiver, DesiredFrom;
    forall k | k in setup.registry.senders
      ensures Fits(sanitises, setup.ns, setup.registry.senders[k].nmosId, setup.registry.senders[k].title)
    {
      ActiveSenderListed(setup, k);
      SenderKept(decorate, sanitises, setup.registry.senders[k], setup.ns, Some(ActiveSender()));
    }
    forall k | k in setup.registry.receivers
      ensures Fits(sanitises, setup.ns, setup.registry.receivers[k].nmosId, setup.registry.receivers[k].title)
    {
      ActiveReceiverListed(setup, k);
      ReceiverKept(decorate, sanitises, setup.registry.receivers[k], setup.ns, Some(ActiveReceiver()));
    }
  }

  /** Every pass converges, whatever is active and whatever the daemon holds, if and only if every registered
      stream fits. */
  lemma SetupConverges(decorate: Decoration, sanitises: bool, setup: Setup)
    requires ValidSetup(setup)
    ensures (forall conns :: Converges(Storing(decorate, sanitises), setup.ns, DesiredFrom(setup, conns)))
            <==> FitSetup(sanitises, setup)
  {
    hide Converges, FitSetup, Storing, DesiredFrom;
    var store := Storing(decorate, sanitises);
    forall conns
      ensures Converges(store, setup.ns, DesiredFrom(setup, conns)) <==> AllKept(store, setup, conns)
    {
      DesiredIsUnique(setup, conns);
      ConvergesIffKept(store, setup.ns, DesiredFrom(setup, conns));
    }
    if FitSetup(sanitises, setup) {
      forall conns
        ensures AllKept(store, setup, conns)
      {
        FitsAreKept(decorate, sanitises, setup, conns);
      }
    }
    if AllKept(store, setup, AllActive(setup)) {
      KeptMeansFit(decorate, sanitises, setup);
    }
  }

  // ----- from the settings -----

  /** Different nmos ids have different resource ids. */
  ghost predicate IdsSeparate(config: BridgeConfig, senderId: string -> string, receiverId: string -> string) {
    && (forall s, s' :: s in config.senders && s' in config.senders && s.nmosId != s'.nmosId ==>
          senderId(s.nmosId) != senderId(s'.nmosId))
    && (forall r, r' :: r in config.receivers && r' in config.receivers && r.nmosId != r'.nmosId ==>
          receiverId(r.nmosId) != receiverId(r'.nmosId))
  }

  /** The bridge's setup as it starts up with the settings. */
  ghost predicate SetUpFrom(setup: Setup, config: BridgeConfig,
                            senderId: string -> string, receiverId: string -> string) {
    && setup.ns == config.ns && BuiltFrom(setup.registry, config, senderId, receiverId)
    && Lists(setup.senderIds, setup.registry.senders) && Lists(setup.receiverIds, setup.registry.receivers)
  }

  lemma SetUpIsValid(setup: Setup, config: BridgeConfig, senderId: string -> string, receiverId: string -> string)
    requires ValidConfig(config) && SetUpFrom(setup, config, senderId, receiverId)
    ensures ValidSetup(setup)
  {
    RegistryIsValid(setup.registry, config, senderId, receiverId);
  }

  ghost predicate FitConfig(sanitises: bool, config: BridgeConfig) {
    && (forall s :: s in config.senders ==> Fits(sanitises, config.ns, s.nmosId, s.title))
    && (forall r :: r in config.receivers ==> Fits(sanitises, config.ns, r.nmosId, r.title))
  }

  lemma EachRegistered<T(!new)>(m: map<string, T>, streams: seq<T>, key: T -> StreamKey, id: T -> string, s: T)
    requires ValidStreams(streams, key) && Registers(m, streams, id)
    requires forall s, s' :: s in streams && s' in streams && id(s) == id(s') ==> key(s).nmosId == key(s').nmosId
    ensures s in streams <==> exists k :: k in m && m[k] == s
  {
    if s in streams {
      var n :| 0 <= n < |streams| && streams[n] == s;
      RegistryIsComplete(m, streams, key, id, n);
    }
  }

  lemma FitConfigIffFitSetup(sanitises: bool, setup: Setup, config: BridgeConfig,
                             senderId: string -> string, receiverId: string -> string)
    requires ValidConfig(config) && SetUpFrom(setup, config, senderId, receiverId)
    requires IdsSeparate(config, senderId, receiverId)
    ensures FitConfig(sanitises, config) <==> FitSetup(sanitises, setup)
  {
    hide Fits;
    forall s
      ensures s in config.senders <==> exists k :: k in setup.registry.senders && setup.registry.senders[k] == s
    {
      EachRegistered(setup.registry.senders, config.senders, SenderKey, (s: SenderConfig) => senderId(s.nmosId), s);
    }
    forall r
      ensures r in config.receivers <==> exists k :: k in setup.registry.receivers && setup.registry.receivers[k] == r
    {
      EachRegistered(setup.registry.receivers, config.receivers, ReceiverKey,
                     (r: ReceiverConfig) => receiverId(r.nmosId), r);
    }
  }

  /** For validated settings: whatever is active and whatever the daemon holds, passes converge, if and only if for
      every configured stream the namespace has no ")/", the nmos id is nonempty and does not start with a space,
      and, where the daemon sanitises names, neither they nor the title hold a square bracket. */
  lemma ConfigConverges(decorate: Decoration, sanitises: bool, setup: Setup, config: BridgeConfig,
                        senderId: string -> string, receiverId: string -> string)
    requires ValidConfig(config) && SetUpFrom(setup, config, senderId, receiverId)
    requires IdsSeparate(config, senderId, receiverId)
    ensures ValidSetup(setup)
    ensures (forall conns :: Converges(Storing(decorate, sanitises), config.ns, DesiredFrom(setup, conns)))
            <==> FitConfig(sanitises, config)
  {
    SetUpIsValid(setup, config, senderId, receiverId);
    SetupConverges(decorate, sanitises, setup);
    FitConfigIffFitSetup(sanitises, setup, config, senderId, receiverId);
  }
}
