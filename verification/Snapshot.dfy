/** From the daemon's listing of its streams to the two maps the planner works on. */
module Snapshots {
  import opened Wrappers
  import opened JsonValues
  import opened Ownership
  import opened DaemonStates

  /** The id of a listed item; None stands for the exception thrown when there is no integer id. */
  function IdOf(item: Json): Option<int> {
    if HasField(item, "id") && item.fields["id"].Number? then Some(item.fields["id"].n) else None
  }

  function StreamOf(side: Side, item: Json): DaemonStream
    requires IdOf(item).Some?
  {
    DaemonStream(side, IdOf(item).value, NameOf(item), item)
  }

  /** What is read of one listed item: its integer id, its name when that is a string, the side it is listed under,
      and all of it as payload. */
  lemma ItemIsRead(side: Side, item: Json, id: int)
    ensures IdOf(item) == Some(id) <==> item.Object? && "id" in item.fields && item.fields["id"] == Number(id)
    ensures IdOf(item) == Some(id) ==>
              && StreamOf(side, item).side == side && StreamOf(side, item).id == id
              && StreamOf(side, item).payload == item
              && (forall name: string :: "name" in item.fields && item.fields["name"] == String(name) ==>
                    StreamOf(side, item).name == name)
              && ((forall name: string :: !("name" in item.fields && item.fields["name"] == String(name))) ==>
                    StreamOf(side, item).name == "")
  {
  }

  function Key(side: Side): string {
    if side == Sender then "sources" else "sinks"
  }

  /** The items listed for a side; a missing field or one that is not an array counts as none. */
  function Items(payload: Json, side: Side): seq<Json> {
    if HasField(payload, Key(side)) && payload.fields[Key(side)].Array? then payload.fields[Key(side)].items else []
  }

  ghost predicate AllHaveIds(items: seq<Json>) {
    forall i :: 0 <= i < |items| ==> IdOf(items[i]).Some?
  }

  /** The last item with the given id. */
  ghost predicate IsLast(items: seq<Json>, id: int, i: nat) {
    i < |items| && IdOf(items[i]) == Some(id) && forall j :: i < j < |items| ==> IdOf(items[j]) != Some(id)
  }

  /** What a side's map must be: exactly the last item of each id. */
  ghost predicate KeepsLast(existing: map<int, DaemonStream>, side: Side, items: seq<Json>)
    requires AllHaveIds(items)
  {
    && (forall i :: 0 <= i < |items| ==> IdOf(items[i]).value in existing)
    && (forall id :: id in existing ==>
          exists i: nat :: IsLast(items, id, i) && existing[id] == StreamOf(side, items[i]))
  }

  method ParseArray(side: Side, items: seq<Json>) returns (existing: Option<map<int, DaemonStream>>)
    ensures existing.Some? <==> AllHaveIds(items)
    ensures existing.Some? ==> KeepsLast(existing.value, side, items)
    ensures existing.Some? ==>
              forall i :: 0 <= i < |items| && (forall j :: i < j < |items| ==> IdOf(items[j]) != IdOf(items[i])) ==>
                existing.value[IdOf(items[i]).value] == StreamOf(side, items[i])
  {
    var m: map<int, DaemonStream> := map[];
    for n := 0 to |items|
      invariant AllHaveIds(items[..n]) && KeepsLast(m, side, items[..n])
    {
      if IdOf(items[n]).None? {
        return None;
      }
      var stream := StreamOf(side, items[n]);
      OneMore(m, side, items, n);
      m := m[stream.id := stream];
    }
    assert items[..|items|] == items;
    return Some(m);
  }

  lemma OneMore(m: map<int, DaemonStream>, side: Side, items: seq<Json>, n: nat)
    requires n < |items| && IdOf(items[n]).Some?
    requires AllHaveIds(items[..n]) && KeepsLast(m, side, items[..n])
    ensures var stream := StreamOf(side, items[n]);
            AllHaveIds(items[..n + 1]) && KeepsLast(m[stream.id := stream], side, items[..n + 1])
  {
    hide NameOf;
    var stream := StreamOf(side, items[n]);
    var m', more := m[stream.id := stream], items[..n + 1];
    assert more[n] == items[n] && forall i :: 0 <= i < n ==> more[i] == items[..n][i];
    forall id | id in m'
      ensures exists i: nat :: IsLast(more, id, i) && m'[id] == StreamOf(side, more[i])
    {
      if id == stream.id {
        assert IsLast(more, id, n);
      } else {
        var i: nat :| IsLast(items[..n], id, i) && m[id] == StreamOf(side, items[..n][i]);
        assert IsLast(more, id, i);
      }
    }
  }

  ghost predicate Readable(payload: Json) {
    AllHaveIds(Items(payload, Sender)) && AllHaveIds(Items(payload, Receiver))
  }

  /** The state a listing stands for. */
  ghost predicate ReadAs(payload: Json, st: DaemonState) {
    && Readable(payload)
    && KeepsLast(st.sources, Sender, Items(payload, Sender)) && KeepsLast(st.sinks, Receiver, Items(payload, Receiver))
  }

  /** Fails exactly when some listed item has no integer id, and otherwise keeps the last item per id and side. */
  method ParseStreams(payload: Json) returns (state: Option<DaemonState>)
    ensures state.Some? <==> Readable(payload)
    ensures state.Some? ==> ReadAs(payload, state.value)
    ensures state.Some? && payload.Object? && "sources" in payload.fields && payload.fields["sources"].Array? ==>
              && AllHaveIds(payload.fields["sources"].items)
              && KeepsLast(state.value.sources, Sender, payload.fields["sources"].items)
    ensures state.Some? && payload.Object? && "sinks" in payload.fields && payload.fields["sinks"].Array? ==>
              && AllHaveIds(payload.fields["sinks"].items)
              && KeepsLast(state.value.sinks, Receiver, payload.fields["sinks"].items)
    ensures state.Some? && !(payload.Object? && "sources" in payload.fields && payload.fields["sources"].Array?) ==>
              state.value.sources == map[]
    ensures state.Some? && !(payload.Object? && "sinks" in payload.fields && payload.fields["sinks"].Array?) ==>
              state.value.sinks == map[]
    ensures state.None? ==>
              exists item :: (item in Items(payload, Sender) || item in Items(payload, Receiver)) && IdOf(item).None?
  {
    var sources := ParseArray(Sender, Items(payload, Sender));
    if sources.None? {
      SomeLacksId(Items(payload, Sender));
      return None;
    }
    var sinks := ParseArray(Receiver, Items(payload, Receiver));
    if sinks.None? {
      SomeLacksId(Items(payload, Receiver));
      return None;
    }
    NothingListed(sources.value, Sender, Items(payload, Sender));
    NothingListed(sinks.value, Receiver, Items(payload, Receiver));
    return Some(DaemonState(sources.value, sinks.value));
  }

  lemma NothingListed(existing: map<int, DaemonStream>, side: Side, items: seq<Json>)
    requires AllHaveIds(items) && KeepsLast(existing, side, items)
    ensures items == [] ==> existing == map[]
  {
    if items == [] {
      forall id
        ensures id !in existing
      {
        assert forall i: nat :: !IsLast(items, id, i);
      }
    }
  }

  lemma SomeLacksId(items: seq<Json>)
    requires !AllHaveIds(items)
    ensures exists item :: item in items && IdOf(item).None?
  {
    var i :| 0 <= i < |items| && IdOf(items[i]).None?;
    assert items[i] in items;
  }

  // ----- faithfulness -----

  /** Each stream is what its own payload says it is, and is filed under its own id. */
  ghost predicate CoherentSide(existing: map<int, DaemonStream>, side: Side) {
    forall id :: id in existing ==>
      IdOf(existing[id].payload) == Some(id) && existing[id] == StreamOf(side, existing[id].payload)
  }

  ghost predicate Coherent(st: DaemonState) {
    CoherentSide(st.sources, Sender) && CoherentSide(st.sinks, Receiver)
  }

  predicate Holds(existing: map<int, DaemonStream>, id: int, item: Json) {
    id in existing && existing[id].payload == item
  }

  /** A listing, in whatever order and however often it repeats itself, of exactly the streams of a side. */
  ghost predicate ListsSide(items: seq<Json>, existing: map<int, DaemonStream>) {
    && (forall item :: item in items ==> exists id :: Holds(existing, id, item))
    && (forall id :: id in existing ==> existing[id].payload in items)
  }

  /** A side's listing gives the side back. */
  lemma ListingIsFaithful(items: seq<Json>, existing: map<int, DaemonStream>, side: Side,
                          parsed: map<int, DaemonStream>)
    requires CoherentSide(existing, side) && ListsSide(items, existing)
    ensures AllHaveIds(items)
    ensures KeepsLast(parsed, side, items) ==> parsed == existing
  {
    forall i | 0 <= i < |items|
      ensures IdOf(items[i]).Some?
    {
      assert items[i] in items;
      var id :| Holds(existing, id, items[i]);
    }
    if KeepsLast(parsed, side, items) {
      forall id
        ensures id in existing ==> id in parsed
        ensures id in parsed ==> id in existing && parsed[id] == existing[id]
      {
        if id in existing {
          var i :| 0 <= i < |items| && items[i] == existing[id].payload;
        }
        if id in parsed {
          var i: nat :| IsLast(items, id, i) && parsed[id] == StreamOf(side, items[i]);
          assert items[i] in items;
          var other :| Holds(existing, other, items[i]);
          assert other == id;
        }
      }
    }
  }

  /** A listing of both sides. */
  ghost predicate IsListing(payload: Json, st: DaemonState) {
    ListsSide(Items(payload, Sender), st.sources) && ListsSide(Items(payload, Receiver), st.sinks)
  }

  /** Every listing of the state can be read, and stands for that state alone. */
  ghost predicate ReadsBack(st: DaemonState) {
    forall payload :: IsListing(payload, st) ==>
      Readable(payload) && forall parsed :: ReadAs(payload, parsed) ==> parsed == st
  }

  /** Whatever the order of the listing, what is read from it is the daemon's state. */
  lemma SnapshotIsFaithful(st: DaemonState)
    requires Coherent(st)
    ensures ReadsBack(st)
  {
    forall payload | IsListing(payload, st)
      ensures Readable(payload) && forall parsed :: ReadAs(payload, parsed) ==> parsed == st
    {
      ListingIsFaithful(Items(payload, Sender), st.sources, Sender, st.sources);
      ListingIsFaithful(Items(payload, Receiver), st.sinks, Receiver, st.sinks);
      forall parsed | ReadAs(payload, parsed)
        ensures parsed == st
      {
        ListingIsFaithful(Items(payload, Sender), st.sources, Sender, parsed.sources);
        ListingIsFaithful(Items(payload, Receiver), st.sinks, Receiver, parsed.sinks);
      }
    }
  }
}
