/** The bridge's stream configuration: its validation, and the registry built from it. */
module Configs {
  import opened Wrappers

  datatype SenderConfig = SenderConfig(
    nmosId: string, daemonId: int, title: string, channels: seq<int>, io: string, codec: string, address: string,
    maxSamplesPerPacket: int, ttl: int, payloadType: int, dscp: int, refclkPtpTraceable: bool)

  datatype ReceiverConfig = ReceiverConfig(
    nmosId: string, daemonId: int, title: string, channels: seq<int>, io: string, delay: int, source: string,
    ignoreRefclkGmid: bool)

  datatype BridgeConfig = BridgeConfig(
    ns: string, reconcileIntervalSeconds: real, senders: seq<SenderConfig>, receivers: seq<ReceiverConfig>)

  /** The part of a sender or receiver that check_unique looks at. */
  datatype StreamKey = StreamKey(nmosId: string, daemonId: int, channels: seq<int>)

  function SenderKey(s: SenderConfig): StreamKey {
    StreamKey(s.nmosId, s.daemonId, s.channels)
  }

  function ReceiverKey(r: ReceiverConfig): StreamKey {
    StreamKey(r.nmosId, r.daemonId, r.channels)
  }

  datatype Fault = IdOutOfRange | EmptyMap | DuplicateDaemonId | DuplicateNmosId

  datatype ConfigError =
    | EmptyNamespace
    | IntervalNotPositive
    | SenderFault(index: nat, fault: Fault)
    | ReceiverFault(index: nat, fault: Fault)

  ghost predicate ValidStreams<T(!new)>(streams: seq<T>, key: T -> StreamKey) {
    && (forall i :: 0 <= i < |streams| ==> 0 <= key(streams[i]).daemonId <= 63 && key(streams[i]).channels != [])
    && (forall i, j :: 0 <= i < j < |streams| ==>
          && key(streams[i]).daemonId != key(streams[j]).daemonId
          && key(streams[i]).nmosId != key(streams[j]).nmosId)
  }

  /** The first thing wrong with a stream that follows the valid streams before it. */
  ghost predicate FaultAt<T(!new)>(before: seq<T>, stream: T, key: T -> StreamKey, fault: Fault) {
    var k := key(stream);
    match fault
    case IdOutOfRange => !(0 <= k.daemonId <= 63)
    case EmptyMap => 0 <= k.daemonId <= 63 && k.channels == []
    case DuplicateDaemonId => k.channels != [] && exists i :: 0 <= i < |before| && key(before[i]).daemonId == k.daemonId
    case DuplicateNmosId =>
      && k.channels != []
      && (exists i :: 0 <= i < |before| && key(before[i]).nmosId == k.nmosId)
      && (forall i :: 0 <= i < |before| ==> key(before[i]).daemonId != k.daemonId)
  }

  /** Accepts exactly the valid lists, and otherwise names the first offending stream and its first fault. */
  method CheckUnique<T(!new)>(streams: seq<T>, key: T -> StreamKey) returns (r: Option<(nat, Fault)>)
    ensures r.None? <==> ValidStreams(streams, key)
    ensures r.Some? ==> r.value.0 < |streams| && ValidStreams(streams[..r.value.0], key)
                        && FaultAt(streams[..r.value.0], streams[r.value.0], key, r.value.1)
  {
    var daemonIds: set<int>, nmosIds: set<string> := {}, {};
    for i := 0 to |streams|
      invariant ValidStreams(streams[..i], key)
      invariant forall id :: id in daemonIds <==> exists j :: 0 <= j < i && key(streams[j]).daemonId == id
      invariant forall id :: id in nmosIds <==> exists j :: 0 <= j < i && key(streams[j]).nmosId == id
    {
      var k := key(streams[i]);
      if k.daemonId < 0 || k.daemonId > 63 {
        return Some((i, IdOutOfRange));
      }
      if k.channels == [] {
        return Some((i, EmptyMap));
      }
      if k.daemonId in daemonIds {
        return Some((i, DuplicateDaemonId));
      }
      daemonIds := daemonIds + {k.daemonId};
      if k.nmosId in nmosIds {
        return Some((i, DuplicateNmosId));
      }
      nmosIds := nmosIds + {k.nmosId};
    }
    assert streams[..|streams|] == streams;
    return None;
  }

  ghost predicate ValidConfig(config: BridgeConfig) {
    && config.ns != ""
    && config.reconcileIntervalSeconds > 0.0
    && ValidStreams(config.senders, SenderKey)
    && ValidStreams(config.receivers, ReceiverKey)
  }

  /** The checks that end the parsing of the settings, in the order the code makes them. */
  method Validate(config: BridgeConfig) returns (r: Option<ConfigError>)
    ensures r.None? <==> ValidConfig(config)
    ensures r.None? <==>
            && config.ns != "" && config.reconcileIntervalSeconds > 0.0
            && (forall i :: 0 <= i < |config.senders| ==>
                  0 <= config.senders[i].daemonId <= 63 && config.senders[i].channels != [])
            && (forall i, j :: 0 <= i < j < |config.senders| ==>
                  && config.senders[i].daemonId != config.senders[j].daemonId
                  && config.senders[i].nmosId != config.senders[j].nmosId)
            && (forall i :: 0 <= i < |config.receivers| ==>
                  0 <= config.receivers[i].daemonId <= 63 && config.receivers[i].channels != [])
            && (forall i, j :: 0 <= i < j < |config.receivers| ==>
                  && config.receivers[i].daemonId != config.receivers[j].daemonId
                  && config.receivers[i].nmosId != config.receivers[j].nmosId)
    ensures r == Some(EmptyNamespace) <==> config.ns == ""
    ensures r == Some(IntervalNotPositive) <==> config.ns != "" && config.reconcileIntervalSeconds <= 0.0
    ensures r.Some? && r.value.SenderFault? ==>
              r.value.index < |config.senders|
              && FaultAt(config.senders[..r.value.index], config.senders[r.value.index], SenderKey, r.value.fault)
    ensures r.Some? && r.value.ReceiverFault? ==>
              ValidStreams(config.senders, SenderKey) && r.value.index < |config.receivers|
              && FaultAt(config.receivers[..r.value.index], config.receivers[r.value.index], ReceiverKey, r.value.fault)
  {
    if config.ns == "" {
      return Some(EmptyNamespace);
    }
    if config.reconcileIntervalSeconds <= 0.0 {
      return Some(IntervalNotPositive);
    }
    var senders := CheckUnique(config.senders, SenderKey);
    if senders.Some? {
      return Some(SenderFault(senders.value.0, senders.value.1));
    }
    var receivers := CheckUnique(config.receivers, ReceiverKey);
    if receivers.Some? {
      return Some(ReceiverFault(receivers.value.0, receivers.value.1));
    }
    return None;
  }

  // ----- at most 64 streams a side -----

  lemma {:induction false} DistinctBelow(ids: seq<int>, n: nat)
    requires forall i :: 0 <= i < |ids| ==> 0 <= ids[i] < n
    requires forall i, j :: 0 <= i < j < |ids| ==> ids[i] != ids[j]
    ensures |ids| <= n
    decreases n
  {
    if ids != [] {
      assert 0 <= ids[0] < n;
      if k :| 0 <= k < |ids| && ids[k] == n - 1 {
        DistinctBelow(ids[..k] + ids[k + 1..], n - 1);
      } else {
        DistinctBelow(ids, n - 1);
      }
    }
  }

  /** Sixty-four slots a side, so at most 64 streams a side. */
  lemma AtMost64<T(!new)>(streams: seq<T>, key: T -> StreamKey)
    requires ValidStreams(streams, key)
    ensures |streams| <= 64
  {
    var ids := seq(|streams|, i requires 0 <= i < |streams| => key(streams[i]).daemonId);
    DistinctBelow(ids, 64);
  }

  // ----- the registry -----

  /** The streams by NMOS resource id. The ids are derived from the nmos ids by a function that is not part of
      this model; nothing below needs it to be injective unless it says so. */
  datatype Registry = Registry(senders: map<string, SenderConfig>, receivers: map<string, ReceiverConfig>)

  /** m holds, for each resource id, the last stream that has it. */
  ghost predicate Registers<T(!new)>(m: map<string, T>, streams: seq<T>, id: T -> string) {
    && (forall i :: 0 <= i < |streams| ==> id(streams[i]) in m)
    && (forall k :: k in m ==>
          exists i :: 0 <= i < |streams| && m[k] == streams[i] && id(streams[i]) == k
                      && forall j :: i < j < |streams| ==> id(streams[j]) != k)
  }

  method RegisterAll<T(!new)>(streams: seq<T>, id: T -> string) returns (m: map<string, T>)
    ensures Registers(m, streams, id)
    ensures forall k :: k in m <==> exists i :: 0 <= i < |streams| && id(streams[i]) == k
    ensures forall n :: 0 <= n < |streams| && (forall j :: n < j < |streams| ==> id(streams[j]) != id(streams[n])) ==>
              m[id(streams[n])] == streams[n]
  {
    m := map[];
    for n := 0 to |streams|
      invariant forall i :: 0 <= i < n ==> id(streams[i]) in m
      invariant forall k :: k in m ==>
                  exists i :: 0 <= i < n && m[k] == streams[i] && id(streams[i]) == k
                              && forall j :: i < j < n ==> id(streams[j]) != k
    {
      m := m[id(streams[n]) := streams[n]];
    }
  }

  ghost predicate BuiltFrom(registry: Registry, config: BridgeConfig,
                            senderId: string -> string, receiverId: string -> string) {
    && Registers(registry.senders, config.senders, (s: SenderConfig) => senderId(s.nmosId))
    && Registers(registry.receivers, config.receivers, (r: ReceiverConfig) => receiverId(r.nmosId))
  }

  method BuildRegistry(config: BridgeConfig, senderId: string -> string, receiverId: string -> string)
    returns (registry: Registry)
    ensures BuiltFrom(registry, config, senderId, receiverId)
  {
    var senders := RegisterAll(config.senders, (s: SenderConfig) => senderId(s.nmosId));
    var receivers := RegisterAll(config.receivers, (r: ReceiverConfig) => receiverId(r.nmosId));
    registry := Registry(senders, receivers);
  }

  /** What the rest of the bridge relies on: within a side, different resource ids have different slots, all
      in the daemon's range. */
  ghost predicate ValidRegistry(registry: Registry) {
    && (forall k :: k in registry.senders ==> 0 <= registry.senders[k].daemonId <= 63)
    && (forall k :: k in registry.receivers ==> 0 <= registry.receivers[k].daemonId <= 63)
    && (forall k, k' :: k in registry.senders && k' in registry.senders && k != k' ==>
          registry.senders[k].daemonId != registry.senders[k'].daemonId)
    && (forall k, k' :: k in registry.receivers && k' in registry.receivers && k != k' ==>
          registry.receivers[k].daemonId != registry.receivers[k'].daemonId)
  }

  /** A valid configuration gives a valid registry, even if resource ids should collide. */
  lemma RegistryIsValid(registry: Registry, config: BridgeConfig, senderId: string -> string,
                        receiverId: string -> string)
    requires ValidConfig(config) && BuiltFrom(registry, config, senderId, receiverId)
    ensures ValidRegistry(registry)
  {
    RegisteredSlots(registry.senders, config.senders, SenderKey, (s: SenderConfig) => senderId(s.nmosId));
    RegisteredSlots(registry.receivers, config.receivers, ReceiverKey, (r: ReceiverConfig) => receiverId(r.nmosId));
    forall k | k in registry.senders
      ensures SenderKey(registry.senders[k]).daemonId == registry.senders[k].daemonId
    {
    }
    forall k | k in registry.receivers
      ensures ReceiverKey(registry.receivers[k]).daemonId == registry.receivers[k].daemonId
    {
    }
  }

  lemma RegisteredSlots<T(!new)>(m: map<string, T>, streams: seq<T>, key: T -> StreamKey, id: T -> string)
    requires ValidStreams(streams, key) && Registers(m, streams, id)
    ensures forall k :: k in m ==> 0 <= key(m[k]).daemonId <= 63
    ensures forall k, k' :: k in m && k' in m && k != k' ==> key(m[k]).daemonId != key(m[k']).daemonId
  {
    forall k, k' | k in m && k' in m && k != k'
      ensures key(m[k]).daemonId != key(m[k']).daemonId
    {
      var i :| 0 <= i < |streams| && m[k] == streams[i] && id(streams[i]) == k;
      var j :| 0 <= j < |streams| && m[k'] == streams[j] && id(streams[j]) == k';
      assert i != j;
    }
  }

  /** No configured stream is lost when different nmos ids have different resource ids. */
  lemma RegistryIsComplete<T(!new)>(m: map<string, T>, streams: seq<T>, key: T -> StreamKey, id: T -> string, n: nat)
    requires ValidStreams(streams, key) && Registers(m, streams, id) && n < |streams|
    requires forall i, j :: 0 <= i < |streams| && 0 <= j < |streams| && id(streams[i]) == id(streams[j]) ==>
               key(streams[i]).nmosId == key(streams[j]).nmosId
    ensures m[id(streams[n])] == streams[n]
  {
    var k := id(streams[n]);
    var i :| 0 <= i < |streams| && m[k] == streams[i] && id(streams[i]) == k;
    assert key(streams[i]).nmosId == key(streams[n]).nmosId;
    assert i == n;
  }
}
