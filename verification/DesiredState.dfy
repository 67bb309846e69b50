/** From the active NMOS connections to the streams the bridge wants on the daemon. */
module DesiredState {
  import Targets
  import opened Wrappers
  import opened JsonValues
  import opened Ownership
  import OwnershipLaws
  import opened DaemonStates
  import opened Reconcilers
  import opened Convergence
  import opened Configs

  /** The active endpoints of the connection resources, by resource id. */
  datatype SenderActive = SenderActive(masterEnable: bool, transportParams: Json)
  datatype ReceiverActive = ReceiverActive(masterEnable: bool, transportFile: Json)
  datatype Connections = Connections(senders: map<string, SenderActive>, receivers: map<string, ReceiverActive>)

  function ActiveDestinationIp(transportParams: Json, fallback: string): string {
    if transportParams.Array? && |transportParams.items| > 0 then
      var leg := transportParams.items[0];
      if HasField(leg, "destination_ip") && leg.fields["destination_ip"].String?
         && leg.fields["destination_ip"].s != "" && leg.fields["destination_ip"].s != "auto"
      then leg.fields["destination_ip"].s
      else fallback
    else
      fallback
  }

  function ActiveRtpEnabled(transportParams: Json): bool {
    if transportParams.Array? && |transportParams.items| > 0 then
      var leg := transportParams.items[0];
      HasField(leg, "rtp_enabled") && leg.fields["rtp_enabled"] == Bool(true)
    else
      false
  }

  function Sdp(transportFile: Json): string {
    if HasField(transportFile, "data") && transportFile.fields["data"].String?
    then transportFile.fields["data"].s else ""
  }

  function IntArray(values: seq<int>): Json {
    Array(seq(|values|, i requires 0 <= i < |values| => Number(values[i])))
  }

  // ----- payloads -----

  function SourceFields(cfg: SenderConfig, ns: string, address: string): map<string, Json> {
    map["enabled" := Bool(true),
        "name" := String(ManagedName(ns, Sender, cfg.nmosId, cfg.title)),
        "io" := String(cfg.io),
        "codec" := String(cfg.codec),
        "address" := String(address),
        "max_samples_per_packet" := Number(cfg.maxSamplesPerPacket),
        "ttl" := Number(cfg.ttl),
        "payload_type" := Number(cfg.payloadType),
        "dscp" := Number(cfg.dscp),
        "refclk_ptp_traceable" := Bool(cfg.refclkPtpTraceable),
        "map" := IntArray(cfg.channels)]
  }

  function SinkFields(cfg: ReceiverConfig, ns: string, sdp: string): map<string, Json> {
    map["name" := String(ManagedName(ns, Receiver, cfg.nmosId, cfg.title)),
        "io" := String(cfg.io),
        "delay" := Number(cfg.delay),
        "use_sdp" := Bool(true),
        "source" := String(cfg.source),
        "sdp" := String(sdp),
        "ignore_refclk_gmid" := Bool(cfg.ignoreRefclkGmid),
        "map" := IntArray(cfg.channels)]
  }

  /** The payload has the value under the key. */
  predicate Says(payload: Json, key: string, value: Json) {
    payload.Object? && key in payload.fields && payload.fields[key] == value
  }

  /** The payload has the numbers under the key, in order. */
  predicate SaysNumbers(payload: Json, key: string, values: seq<int>) {
    && payload.Object? && key in payload.fields && payload.fields[key].Array?
    && |payload.fields[key].items| == |values|
    && forall i :: 0 <= i < |values| ==> payload.fields[key].items[i] == Number(values[i])
  }

  /** What a source's payload tells the daemon, key by key. */
  predicate SaysSource(payload: Json, cfg: SenderConfig, ns: string, address: string) {
    && payload.Object?
    && payload.fields.Keys == {"enabled", "name", "io", "codec", "address", "max_samples_per_packet", "ttl",
                               "payload_type", "dscp", "refclk_ptp_traceable", "map"}
    && Says(payload, "enabled", Bool(true))
    && Says(payload, "name", String(ManagedName(ns, Sender, cfg.nmosId, cfg.title)))
    && Says(payload, "io", String(cfg.io))
    && Says(payload, "codec", String(cfg.codec))
    && Says(payload, "address", String(address))
    && Says(payload, "max_samples_per_packet", Number(cfg.maxSamplesPerPacket))
    && Says(payload, "ttl", Number(cfg.ttl))
    && Says(payload, "payload_type", Number(cfg.payloadType))
    && Says(payload, "dscp", Number(cfg.dscp))
    && Says(payload, "refclk_ptp_traceable", Bool(cfg.refclkPtpTraceable))
    && SaysNumbers(payload, "map", cfg.channels)
  }

  /** What a sink's payload tells the daemon, key by key. */
  predicate SaysSink(payload: Json, cfg: ReceiverConfig, ns: string, sdp: string) {
    && payload.Object?
    && payload.fields.Keys == {"name", "io", "delay", "use_sdp", "source", "sdp", "ignore_refclk_gmid", "map"}
    && Says(payload, "name", String(ManagedName(ns, Receiver, cfg.nmosId, cfg.title)))
    && Says(payload, "io", String(cfg.io))
    && Says(payload, "delay", Number(cfg.delay))
    && Says(payload, "use_sdp", Bool(true))
    && Says(payload, "source", String(cfg.source))
    && Says(payload, "sdp", String(sdp))
    && Says(payload, "ignore_refclk_gmid", Bool(cfg.ignoreRefclkGmid))
    && SaysNumbers(payload, "map", cfg.channels)
  }

  lemma SourceFieldsSay(cfg: SenderConfig, ns: string, address: string)
    ensures SaysSource(Object(SourceFields(cfg, ns, address)), cfg, ns, address)
  {
    hide ManagedName;
  }

  lemma SinkFieldsSay(cfg: ReceiverConfig, ns: string, sdp: string)
    ensures SaysSink(Object(SinkFields(cfg, ns, sdp)), cfg, ns, sdp)
  {
    hide ManagedName;
  }

  method MakeSourcePayload(cfg: SenderConfig, ns: string, address: string) returns (payload: Json)
    ensures payload == Object(SourceFields(cfg, ns, address))
    ensures SaysSource(payload, cfg, ns, address)
  {
    var fields: map<string, Json> := map[];
    fields := fields["enabled" := Bool(true)];
    fields := fields["name" := String(ManagedName(ns, Sender, cfg.nmosId, cfg.title))];
    fields := fields["io" := String(cfg.io)];
    fields := fields["codec" := String(cfg.codec)];
    fields := fields["address" := String(address)];
    fields := fields["max_samples_per_packet" := Number(cfg.maxSamplesPerPacket)];
    fields := fields["ttl" := Number(cfg.ttl)];
    fields := fields["payload_type" := Number(cfg.payloadType)];
    fields := fields["dscp" := Number(cfg.dscp)];
    fields := fields["refclk_ptp_traceable" := Bool(cfg.refclkPtpTraceable)];
    fields := fields["map" := IntArray(cfg.channels)];
    SourceFieldsSay(cfg, ns, address);
    return Object(fields);
  }

  method MakeSinkPayload(cfg: ReceiverConfig, ns: string, sdp: string) returns (payload: Json)
    ensures payload == Object(SinkFields(cfg, ns, sdp))
    ensures SaysSink(payload, cfg, ns, sdp)
  {
    var fields: map<string, Json> := map[];
    fields := fields["name" := String(ManagedName(ns, Receiver, cfg.nmosId, cfg.title))];
    fields := fields["io" := String(cfg.io)];
    fields := fields["delay" := Number(cfg.delay)];
    fields := fields["use_sdp" := Bool(true)];
    fields := fields["source" := String(cfg.source)];
    fields := fields["sdp" := String(sdp)];
    fields := fields["ignore_refclk_gmid" := Bool(cfg.ignoreRefclkGmid)];
    fields := fields["map" := IntArray(cfg.channels)];
    SinkFieldsSay(cfg, ns, sdp);
    return Object(fields);
  }

  lemma IntArrayInjective(a: seq<int>, b: seq<int>)
    ensures IntArray(a) == IntArray(b) <==> a == b
  {
    if IntArray(a) == IntArray(b) {
      forall i | 0 <= i < |a|
        ensures a[i] == b[i]
      {
        assert IntArray(a).items[i] == IntArray(b).items[i];
      }
    }
  }

  /** Two payloads with the same fields drift exactly when they differ. */
  lemma DriftIffDiffers(a: map<string, Json>, b: map<string, Json>)
    requires a.Keys == b.Keys
    ensures Drifted(Object(a), Object(b)) <==> a != b
  {
    if key :| key in b && a[key] != b[key] {
      assert Drifted(Object(a), Object(b));
    }
  }

  /** What a source's configuration and activation put on the daemon. */
  predicate SameSource(a: SenderConfig, addressA: string, b: SenderConfig, addressB: string, ns: string) {
    && ManagedName(ns, Sender, a.nmosId, a.title) == ManagedName(ns, Sender, b.nmosId, b.title)
    && a.io == b.io && a.codec == b.codec && addressA == addressB
    && a.maxSamplesPerPacket == b.maxSamplesPerPacket && a.ttl == b.ttl && a.payloadType == b.payloadType
    && a.dscp == b.dscp && a.refclkPtpTraceable == b.refclkPtpTraceable && a.channels == b.channels
  }

  predicate SameSink(a: ReceiverConfig, sdpA: string, b: ReceiverConfig, sdpB: string, ns: string) {
    && ManagedName(ns, Receiver, a.nmosId, a.title) == ManagedName(ns, Receiver, b.nmosId, b.title)
    && a.io == b.io && a.delay == b.delay && a.source == b.source && sdpA == sdpB
    && a.ignoreRefclkGmid == b.ignoreRefclkGmid && a.channels == b.channels
  }

  lemma SourceFieldsIff(a: SenderConfig, addressA: string, b: SenderConfig, addressB: string, ns: string)
    ensures SourceFields(a, ns, addressA).Keys == SourceFields(b, ns, addressB).Keys
    ensures SourceFields(a, ns, addressA) == SourceFields(b, ns, addressB) <==> SameSource(a, addressA, b, addressB, ns)
  {
    hide ManagedName;
    hide IntArray;
    IntArrayInjective(a.channels, b.channels);
    var fields := SourceFields(a, ns, addressA);
    assert fields["name"].s == ManagedName(ns, Sender, a.nmosId, a.title);
    assert fields["io"].s == a.io && fields["codec"].s == a.codec && fields["address"].s == addressA;
    assert fields["max_samples_per_packet"].n == a.maxSamplesPerPacket && fields["ttl"].n == a.ttl;
    assert fields["payload_type"].n == a.payloadType && fields["dscp"].n == a.dscp;
    assert fields["refclk_ptp_traceable"].b == a.refclkPtpTraceable && fields["map"] == IntArray(a.channels);
  }

  lemma SinkFieldsIff(a: ReceiverConfig, sdpA: string, b: ReceiverConfig, sdpB: string, ns: string)
    ensures SinkFields(a, ns, sdpA).Keys == SinkFields(b, ns, sdpB).Keys
    ensures SinkFields(a, ns, sdpA) == SinkFields(b, ns, sdpB) <==> SameSink(a, sdpA, b, sdpB, ns)
  {
    hide ManagedName;
    hide IntArray;
    IntArrayInjective(a.channels, b.channels);
    var fields := SinkFields(a, ns, sdpA);
    assert fields["name"].s == ManagedName(ns, Receiver, a.nmosId, a.title);
    assert fields["io"].s == a.io && fields["delay"].n == a.delay && fields["source"].s == a.source;
    assert fields["sdp"].s == sdpA && fields["ignore_refclk_gmid"].b == a.ignoreRefclkGmid;
    assert fields["map"] == IntArray(a.channels);
  }

  /** One source payload has drifted from another exactly when some setting they carry differs: no setting is
      left out of the payload, and none hides another. */
  lemma SourceDriftIff(a: SenderConfig, addressA: string, b: SenderConfig, addressB: string, ns: string)
    ensures Drifted(Object(SourceFields(a, ns, addressA)), Object(SourceFields(b, ns, addressB)))
            <==> !SameSource(a, addressA, b, addressB, ns)
  {
    hide SourceFields;
    SourceFieldsIff(a, addressA, b, addressB, ns);
    DriftIffDiffers(SourceFields(a, ns, addressA), SourceFields(b, ns, addressB));
  }

  lemma SinkDriftIff(a: ReceiverConfig, sdpA: string, b: ReceiverConfig, sdpB: string, ns: string)
    ensures Drifted(Object(SinkFields(a, ns, sdpA)), Object(SinkFields(b, ns, sdpB)))
            <==> !SameSink(a, sdpA, b, sdpB, ns)
  {
    hide SinkFields;
    SinkFieldsIff(a, sdpA, b, sdpB, ns);
    DriftIffDiffers(SinkFields(a, ns, sdpA), SinkFields(b, ns, sdpB));
  }

  // ----- desired streams -----

  function DesiredSender(cfg: SenderConfig, ns: string, conn: Option<SenderActive>): DesiredStream {
    var name := ManagedName(ns, Sender, cfg.nmosId, cfg.title);
    var slot := Slot(Sender, cfg.daemonId);
    match conn
    case None => DesiredStream(slot, cfg.nmosId, false, name, Null)
    case Some(active) =>
      var address := ActiveDestinationIp(active.transportParams, cfg.address);
      var enabled := active.masterEnable && ActiveRtpEnabled(active.transportParams) && address != "";
      DesiredStream(slot, cfg.nmosId, enabled, name, if enabled then Object(SourceFields(cfg, ns, address)) else Null)
  }

  function DesiredReceiver(cfg: ReceiverConfig, ns: string, conn: Option<ReceiverActive>): DesiredStream {
    var name := ManagedName(ns, Receiver, cfg.nmosId, cfg.title);
    var slot := Slot(Receiver, cfg.daemonId);
    match conn
    case None => DesiredStream(slot, cfg.nmosId, false, name, Null)
    case Some(active) =>
      var sdp := Sdp(active.transportFile);
      var enabled := active.masterEnable && sdp != "";
      DesiredStream(slot, cfg.nmosId, enabled, name, if enabled then Object(SinkFields(cfg, ns, sdp)) else Null)
  }

  // ----- when a stream is wanted -----

  /** The first leg has the value under the key. */
  predicate LegSays(transportParams: Json, key: string, value: Json) {
    transportParams.Array? && |transportParams.items| > 0 && Says(transportParams.items[0], key, value)
  }

  /** The first leg names a destination. */
  predicate LegGoesTo(transportParams: Json, ip: string) {
    ip != "" && ip != "auto" && LegSays(transportParams, "destination_ip", String(ip))
  }

  /** Where a sender's stream goes: to the destination of the first leg if it names one, and else to the configured
      address. */
  ghost predicate GoesTo(active: SenderActive, cfg: SenderConfig, address: string) {
    || LegGoesTo(active.transportParams, address)
    || ((forall ip: string :: !LegGoesTo(active.transportParams, ip)) && address == cfg.address)
  }

  /** The connection is enabled by its master and by its first leg, and goes to the address. */
  ghost predicate SendsTo(conn: Option<SenderActive>, cfg: SenderConfig, address: string) {
    && conn.Some? && conn.value.masterEnable && LegSays(conn.value.transportParams, "rtp_enabled", Bool(true))
    && GoesTo(conn.value, cfg, address) && address != ""
  }

  /** The connection is enabled by its master, and its transport file is the SDP. */
  predicate ReceivesFrom(conn: Option<ReceiverActive>, sdp: string) {
    conn.Some? && conn.value.masterEnable && Says(conn.value.transportFile, "data", String(sdp)) && sdp != ""
  }

  /** A sender is wanted exactly if its connection sends to some address, and then with a payload for that one. */
  lemma SenderWantedIff(cfg: SenderConfig, ns: string, conn: Option<SenderActive>)
    ensures var stream := DesiredSender(cfg, ns, conn);
            && stream.slot == Slot(Sender, cfg.daemonId) && stream.nmosId == cfg.nmosId
            && stream.name == ManagedName(ns, Sender, cfg.nmosId, cfg.title)
            && (stream.enabled <==> exists address: string :: SendsTo(conn, cfg, address))
            && (forall address: string :: SendsTo(conn, cfg, address) ==>
                  SaysSource(stream.payload, cfg, ns, address))
            && (!stream.enabled ==> stream.payload == Null)
  {
    hide ManagedName, SaysSource, SourceFields;
    if conn.Some? {
      var tp := conn.value.transportParams;
      var address := ActiveDestinationIp(tp, cfg.address);
      DestinationIs(tp, cfg.address);
      assert DesiredSender(cfg, ns, conn).enabled ==> SendsTo(conn, cfg, address);
      forall other: string | SendsTo(conn, cfg, other)
        ensures DesiredSender(cfg, ns, conn).enabled
        ensures SaysSource(DesiredSender(cfg, ns, conn).payload, cfg, ns, other)
      {
        assert other == address;
        SourceFieldsSay(cfg, ns, address);
      }
    }
  }

  lemma DestinationIs(transportParams: Json, fallback: string)
    ensures var ip := ActiveDestinationIp(transportParams, fallback);
            || LegGoesTo(transportParams, ip)
            || ((forall other: string :: !LegGoesTo(transportParams, other)) && ip == fallback)
    ensures forall ip: string, other: string ::
              LegGoesTo(transportParams, ip) && LegGoesTo(transportParams, other) ==> ip == other
  {
  }

  /** A receiver is wanted exactly if its connection has an SDP, and then with a payload for that one. */
  lemma ReceiverWantedIff(cfg: ReceiverConfig, ns: string, conn: Option<ReceiverActive>)
    ensures var stream := DesiredReceiver(cfg, ns, conn);
            && stream.slot == Slot(Receiver, cfg.daemonId) && stream.nmosId == cfg.nmosId
            && stream.name == ManagedName(ns, Receiver, cfg.nmosId, cfg.title)
            && (stream.enabled <==> exists sdp: string :: ReceivesFrom(conn, sdp))
            && (forall sdp: string :: ReceivesFrom(conn, sdp) ==> SaysSink(stream.payload, cfg, ns, sdp))
            && (!stream.enabled ==> stream.payload == Null)
  {
    hide ManagedName, SaysSink, SinkFields;
    if conn.Some? {
      var sdp := Sdp(conn.value.transportFile);
      assert DesiredReceiver(cfg, ns, conn).enabled ==> ReceivesFrom(conn, sdp);
      forall other: string | ReceivesFrom(conn, other)
        ensures DesiredReceiver(cfg, ns, conn).enabled
        ensures SaysSink(DesiredReceiver(cfg, ns, conn).payload, cfg, ns, other)
      {
        assert other == sdp;
        SinkFieldsSay(cfg, ns, sdp);
      }
    }
  }

  function Get<V>(m: map<string, V>, k: string): Option<V> {
    if k in m then Some(m[k]) else None
  }

  /** The key order of a map: each key once. */
  ghost predicate Lists<V>(ids: seq<string>, m: map<string, V>) {
    && (forall i :: 0 <= i < |ids| ==> ids[i] in m)
    && (forall k :: k in m ==> k in ids)
    && (forall i, j :: 0 <= i < j < |ids| ==> ids[i] != ids[j])
  }

  /** Everything about one bridge that does not change while it runs. */
  datatype Setup = Setup(ns: string, registry: Registry, senderIds: seq<string>, receiverIds: seq<string>)

  ghost predicate ValidSetup(setup: Setup) {
    && ValidRegistry(setup.registry)
    && Lists(setup.senderIds, setup.registry.senders)
    && Lists(setup.receiverIds, setup.registry.receivers)
  }

  ghost predicate ListsKnown(setup: Setup) {
    && (forall i :: 0 <= i < |setup.senderIds| ==> setup.senderIds[i] in setup.registry.senders)
    && (forall i :: 0 <= i < |setup.receiverIds| ==> setup.receiverIds[i] in setup.registry.receivers)
  }

  ghost function SenderAt(setup: Setup, conns: Connections, i: nat): DesiredStream
    requires ListsKnown(setup) && i < |setup.senderIds|
  {
    var k := setup.senderIds[i];
    DesiredSender(setup.registry.senders[k], setup.ns, Get(conns.senders, k))
  }

  ghost function ReceiverAt(setup: Setup, conns: Connections, i: nat): DesiredStream
    requires ListsKnown(setup) && i < |setup.receiverIds|
  {
    var k := setup.receiverIds[i];
    DesiredReceiver(setup.registry.receivers[k], setup.ns, Get(conns.receivers, k))
  }

  ghost function DesiredFrom(setup: Setup, conns: Connections): (desired: seq<DesiredStream>)
    requires ListsKnown(setup)
    ensures |desired| == |setup.senderIds| + |setup.receiverIds|
    ensures forall i :: 0 <= i < |setup.senderIds| ==> desired[i] == SenderAt(setup, conns, i)
    ensures forall i :: |setup.senderIds| <= i < |desired| ==>
              desired[i] == ReceiverAt(setup, conns, i - |setup.senderIds|)
  {
    seq(|setup.senderIds|, i requires 0 <= i < |setup.senderIds| => SenderAt(setup, conns, i))
    + seq(|setup.receiverIds|, i requires 0 <= i < |setup.receiverIds| => ReceiverAt(setup, conns, i))
  }

  method BuildDesired(setup: Setup, conns: Connections) returns (desired: seq<DesiredStream>)
    requires ListsKnown(setup)
    ensures desired == DesiredFrom(setup, conns)
  {
    hide DesiredSender, DesiredReceiver, SendsTo, SaysSource, ReceivesFrom, SaysSink;
    ghost var all := DesiredFrom(setup, conns);
    desired := [];
    for i := 0 to |setup.senderIds|
      invariant desired == all[..i]
    {
      var k := setup.senderIds[i];
      var stream := BuildSender(setup.registry.senders[k], setup.ns, Get(conns.senders, k));
      desired := desired + [stream];
    }
    var n := |setup.senderIds|;
    for i := 0 to |setup.receiverIds|
      invariant desired == all[..n + i]
    {
      var k := setup.receiverIds[i];
      var stream := BuildReceiver(setup.registry.receivers[k], setup.ns, Get(conns.receivers, k));
      desired := desired + [stream];
    }
  }

  method BuildSender(cfg: SenderConfig, ns: string, conn: Option<SenderActive>) returns (stream: DesiredStream)
    ensures stream == DesiredSender(cfg, ns, conn)
    ensures stream.slot == Slot(Sender, cfg.daemonId) && stream.nmosId == cfg.nmosId
    ensures stream.enabled <==> exists address: string :: SendsTo(conn, cfg, address)
    ensures forall address: string :: SendsTo(conn, cfg, address) ==> SaysSource(stream.payload, cfg, ns, address)
  {
    hide SaysSource, SourceFields, SendsTo;
    SenderWantedIff(cfg, ns, conn);
    stream := DesiredStream(Slot(Sender, cfg.daemonId), cfg.nmosId, false,
                            ManagedName(ns, Sender, cfg.nmosId, cfg.title), Null);
    if conn.Some? {
      var tp := conn.value.transportParams;
      var address := ActiveDestinationIp(tp, cfg.address);
      stream := stream.(enabled := conn.value.masterEnable && ActiveRtpEnabled(tp) && address != "");
      if stream.enabled {
        var payload := MakeSourcePayload(cfg, ns, address);
        stream := stream.(payload := payload);
      }
    }
  }

  method BuildReceiver(cfg: ReceiverConfig, ns: string, conn: Option<ReceiverActive>) returns (stream: DesiredStream)
    ensures stream == DesiredReceiver(cfg, ns, conn)
    ensures stream.slot == Slot(Receiver, cfg.daemonId) && stream.nmosId == cfg.nmosId
    ensures stream.enabled <==> exists sdp: string :: ReceivesFrom(conn, sdp)
    ensures forall sdp: string :: ReceivesFrom(conn, sdp) ==> SaysSink(stream.payload, cfg, ns, sdp)
  {
    hide SaysSink, SinkFields, ReceivesFrom;
    ReceiverWantedIff(cfg, ns, conn);
    stream := DesiredStream(Slot(Receiver, cfg.daemonId), cfg.nmosId, false,
                            ManagedName(ns, Receiver, cfg.nmosId, cfg.title), Null);
    if conn.Some? {
      var sdp := Sdp(conn.value.transportFile);
      stream := stream.(enabled := conn.value.masterEnable && sdp != "");
      if stream.enabled {
        var payload := MakeSinkPayload(cfg, ns, sdp);
        stream := stream.(payload := payload);
      }
    }
  }

  /** The stream is what the registered sender k asks for with the connection of its own resource. */
  ghost predicate SenderAsks(setup: Setup, conns: Connections, k: string, d: DesiredStream) {
    k in setup.registry.senders && d == DesiredSender(setup.registry.senders[k], setup.ns, Get(conns.senders, k))
  }

  ghost predicate ReceiverAsks(setup: Setup, conns: Connections, k: string, d: DesiredStream) {
    && k in setup.registry.receivers
    && d == DesiredReceiver(setup.registry.receivers[k], setup.ns, Get(conns.receivers, k))
  }

  lemma ListedIsAsked(setup: Setup, conns: Connections, d: DesiredStream)
    requires ListsKnown(setup) && d in DesiredFrom(setup, conns)
    ensures (exists k :: SenderAsks(setup, conns, k, d)) || (exists k :: ReceiverAsks(setup, conns, k, d))
  {
    hide DesiredSender, DesiredReceiver;
    var desired, n := DesiredFrom(setup, conns), |setup.senderIds|;
    var i :| 0 <= i < |desired| && desired[i] == d;
    if i < n {
      assert SenderAsks(setup, conns, setup.senderIds[i], d);
    } else {
      assert ReceiverAsks(setup, conns, setup.receiverIds[i - n], d);
    }
  }

  lemma AskedIsListed(setup: Setup, conns: Connections, k: string, d: DesiredStream)
    requires ValidSetup(setup) && (SenderAsks(setup, conns, k, d) || ReceiverAsks(setup, conns, k, d))
    ensures d in DesiredFrom(setup, conns)
  {
    hide DesiredSender, DesiredReceiver;
    var desired, n := DesiredFrom(setup, conns), |setup.senderIds|;
    if SenderAsks(setup, conns, k, d) {
      var i :| 0 <= i < n && setup.senderIds[i] == k;
      assert desired[i] == d;
    } else {
      var i :| 0 <= i < |setup.receiverIds| && setup.receiverIds[i] == k;
      assert desired[n + i] == d;
    }
  }

  /** The list holds exactly one stream for each registered sender and receiver, each for the connection of its own
      resource. */
  lemma ListsRegistered(setup: Setup, conns: Connections)
    requires ValidSetup(setup)
    ensures forall d :: d in DesiredFrom(setup, conns) <==>
              (exists k :: SenderAsks(setup, conns, k, d)) || (exists k :: ReceiverAsks(setup, conns, k, d))
    ensures |DesiredFrom(setup, conns)| == |setup.registry.senders.Keys| + |setup.registry.receivers.Keys|
  {
    hide SenderAsks, ReceiverAsks;
    forall d
      ensures d in DesiredFrom(setup, conns) <==>
                (exists k :: SenderAsks(setup, conns, k, d)) || (exists k :: ReceiverAsks(setup, conns, k, d))
    {
      if d in DesiredFrom(setup, conns) {
        ListedIsAsked(setup, conns, d);
      }
      if k :| SenderAsks(setup, conns, k, d) {
        AskedIsListed(setup, conns, k, d);
      }
      if k :| ReceiverAsks(setup, conns, k, d) {
        AskedIsListed(setup, conns, k, d);
      }
    }
    ListsCount(setup.senderIds, setup.registry.senders);
    ListsCount(setup.receiverIds, setup.registry.receivers);
  }

  lemma ListsCount<V>(ids: seq<string>, m: map<string, V>)
    requires Lists(ids, m)
    ensures |ids| == |m.Keys|
  {
    EachOnce(ids);
    assert m.Keys == set k | k in ids;
  }

  lemma {:induction false} EachOnce(ids: seq<string>)
    requires forall i, j :: 0 <= i < j < |ids| ==> ids[i] != ids[j]
    ensures |set k | k in ids| == |ids|
  {
    if ids != [] {
      var rest, last := ids[..|ids| - 1], ids[|ids| - 1];
      EachOnce(rest);
      assert ids == rest + [last];
      assert (set k | k in ids) == (set k | k in rest) + {last};
    }
  }

  // ----- what the planner may rely on -----

  lemma DesiredSlots(setup: Setup, conns: Connections, i: nat, j: nat)
    requires ValidSetup(setup) && i < j < |DesiredFrom(setup, conns)|
    ensures DesiredFrom(setup, conns)[i].slot != DesiredFrom(setup, conns)[j].slot
  {
    var n := |setup.senderIds|;
    if j < n {
      assert setup.senderIds[i] != setup.senderIds[j];
    } else if i >= n {
      assert setup.receiverIds[i - n] != setup.receiverIds[j - n];
    }
  }

  /** The planner's input from a valid registry names each slot once, and only slots 0 to 63. */
  lemma DesiredIsUnique(setup: Setup, conns: Connections)
    requires ValidSetup(setup)
    ensures Targets.UniqueSlots(DesiredFrom(setup, conns))
    ensures forall i :: 0 <= i < |DesiredFrom(setup, conns)| ==> 0 <= DesiredFrom(setup, conns)[i].slot.id <= 63
  {
    forall i, j | 0 <= i < j < |DesiredFrom(setup, conns)|
      ensures DesiredFrom(setup, conns)[i].slot != DesiredFrom(setup, conns)[j].slot
    {
      DesiredSlots(setup, conns, i, j);
    }
  }

  /** From validated settings to the planner: whatever the resource ids, each planner input names each slot once,
      in the daemon's range. */
  lemma SettingsFeedPlanner(config: BridgeConfig, senderId: string -> string, receiverId: string -> string,
                            setup: Setup, conns: Connections)
    requires ValidConfig(config) && BuiltFrom(setup.registry, config, senderId, receiverId)
    requires Lists(setup.senderIds, setup.registry.senders) && Lists(setup.receiverIds, setup.registry.receivers)
    ensures ValidSetup(setup) && Targets.UniqueSlots(DesiredFrom(setup, conns))
    ensures forall i :: 0 <= i < |DesiredFrom(setup, conns)| ==> 0 <= DesiredFrom(setup, conns)[i].slot.id <= 63
  {
    RegistryIsValid(setup.registry, config, senderId, receiverId);
    DesiredIsUnique(setup, conns);
  }

  /** Every stream put on the daemon for a configuration that passed validation goes to a slot in 0 to 63. */
  lemma PutsStayInRange(setup: Setup, conns: Connections, st: DaemonState, op: PlannedOp)
    requires ValidSetup(setup) && op in PlanOps(setup.ns, DesiredFrom(setup, conns), st) && op.action != Remove
    ensures 0 <= op.slot.id <= 63
  {
    DesiredIsUnique(setup, conns);
    Targets.PlanIsSlotwise(setup.ns, DesiredFrom(setup, conns), st);
    assert Targets.EnabledAt(DesiredFrom(setup, conns), op.slot).Some?;
  }

  /** A namespace and an id whose marker the bridge reads back as its own. Validation of the settings asks only
      for a nonempty namespace. */
  predicate PlainStream(ns: string, nmosId: string) {
    OwnershipLaws.PlainNamespace(ns) && nmosId != "" && nmosId[0] != ' '
  }

  ghost predicate PlainSetup(setup: Setup) {
    && (forall k :: k in setup.registry.senders ==> PlainStream(setup.ns, setup.registry.senders[k].nmosId))
    && (forall k :: k in setup.registry.receivers ==> PlainStream(setup.ns, setup.registry.receivers[k].nmosId))
  }

  lemma SenderMarked(cfg: SenderConfig, ns: string, conn: Option<SenderActive>)
    requires DesiredSender(cfg, ns, conn).enabled
    ensures Named(DesiredSender(cfg, ns, conn).payload)
    ensures MarkedOn(ns, DesiredSender(cfg, ns, conn)) <==> PlainStream(ns, cfg.nmosId)
    ensures Recognised(ns, DesiredSender(cfg, ns, conn)) <==> PlainStream(ns, cfg.nmosId)
  {
    hide ManagedName, ParseManagedName, OwnershipLaws.PlainNamespace, IntArray;
    OwnershipLaws.NamespaceComesBack(ns, Sender, cfg.nmosId, cfg.title);
  }

  lemma ReceiverMarked(cfg: ReceiverConfig, ns: string, conn: Option<ReceiverActive>)
    requires DesiredReceiver(cfg, ns, conn).enabled
    ensures Named(DesiredReceiver(cfg, ns, conn).payload)
    ensures MarkedOn(ns, DesiredReceiver(cfg, ns, conn)) <==> PlainStream(ns, cfg.nmosId)
    ensures Recognised(ns, DesiredReceiver(cfg, ns, conn)) <==> PlainStream(ns, cfg.nmosId)
  {
    hide ManagedName, ParseManagedName, OwnershipLaws.PlainNamespace, IntArray;
    OwnershipLaws.NamespaceComesBack(ns, Receiver, cfg.nmosId, cfg.title);
  }

  lemma DesiredIsWellMarked(setup: Setup, conns: Connections)
    requires ValidSetup(setup) && PlainSetup(setup)
    ensures WellMarked(setup.ns, DesiredFrom(setup, conns))
  {
    var desired, n := DesiredFrom(setup, conns), |setup.senderIds|;
    forall i | 0 <= i < |desired| && desired[i].enabled
      ensures MarkedOn(setup.ns, desired[i])
    {
      if i < n {
        var k := setup.senderIds[i];
        SenderMarked(setup.registry.senders[k], setup.ns, Get(conns.senders, k));
      } else {
        var k := setup.receiverIds[i - n];
        ReceiverMarked(setup.registry.receivers[k], setup.ns, Get(conns.receivers, k));
      }
    }
  }
}
