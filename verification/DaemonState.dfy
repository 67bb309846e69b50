/** The state of the AES67 daemon as the bridge sees it: two maps of streams, and what a PUT leaves in them. */
module DaemonStates {
  import opened Wrappers
  import opened JsonValues
  import opened Ownership

  /** A place for one stream: source ids and sink ids are separate. */
  datatype Slot = Slot(side: Side, id: int)

  datatype DaemonStream = DaemonStream(side: Side, id: int, name: string, payload: Json)

  datatype DaemonState = DaemonState(sources: map<int, DaemonStream>, sinks: map<int, DaemonStream>)

  function ExistingFor(st: DaemonState, side: Side): map<int, DaemonStream> {
    if side == Sender then st.sources else st.sinks
  }

  function Lookup(st: DaemonState, slot: Slot): Option<DaemonStream> {
    var existing := ExistingFor(st, slot.side);
    if slot.id in existing then Some(existing[slot.id]) else None
  }

  function WriteMap(existing: map<int, DaemonStream>, id: int, v: Option<DaemonStream>): map<int, DaemonStream> {
    if v.Some? then existing[id := v.value] else existing - {id}
  }

  function Write(st: DaemonState, slot: Slot, v: Option<DaemonStream>): (st': DaemonState)
    ensures Lookup(st', slot) == v
    ensures forall other :: other != slot ==> Lookup(st', other) == Lookup(st, other)
  {
    if slot.side == Sender then st.(sources := WriteMap(st.sources, slot.id, v))
    else st.(sinks := WriteMap(st.sinks, slot.id, v))
  }

  lemma SameState(st: DaemonState, st': DaemonState)
    requires forall slot :: Lookup(st, slot) == Lookup(st', slot)
    ensures st == st'
  {
    forall id: int
      ensures (id in st.sources <==> id in st'.sources) && (id in st.sinks <==> id in st'.sinks)
      ensures id in st.sources ==> st.sources[id] == st'.sources[id]
      ensures id in st.sinks ==> st.sinks[id] == st'.sinks[id]
    {
      assert Lookup(st, Slot(Sender, id)) == Lookup(st', Slot(Sender, id));
      assert Lookup(st, Slot(Receiver, id)) == Lookup(st', Slot(Receiver, id));
    }
    assert st.sources == st'.sources;
    assert st.sinks == st'.sinks;
  }

  /** What the daemon keeps of a payload it is sent. */
  type Storage = (Slot, Json) -> Json

  /** The daemon may add fields of its own, but it keeps every field it was given, so that its copy has not
      drifted. */
  ghost predicate Faithful(store: Storage) {
    forall slot, payload :: !Drifted(store(slot, payload), payload)
  }

  /** A daemon that keeps what it is given. */
  type Decoration = decorate: Storage | Faithful(decorate)
    witness (slot, payload) => payload

  /** The stream as it is listed after a PUT of payload. */
  function Stored(store: Storage, slot: Slot, payload: Json): DaemonStream {
    var kept := store(slot, payload);
    DaemonStream(slot.side, slot.id, NameOf(kept), kept)
  }
}
