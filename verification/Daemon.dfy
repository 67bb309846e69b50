/** The AES67 daemon behind its REST API: streams written by PUT and DELETE, and read back from a listing. */
module Daemons {
  import IntSets
  import opened Wrappers
  import opened JsonValues
  import opened Ownership
  import opened DaemonStates
  import opened Snapshots

  /** Some listing of a side's streams, in whatever order the daemon comes to them. */
  method ListItems(existing: map<int, DaemonStream>) returns (items: seq<Json>)
    ensures ListsSide(items, existing)
  {
    items := [];
    var remaining := existing.Keys;
    while |remaining| > 0
      invariant remaining <= existing.Keys
      invariant forall item :: item in items ==> exists id :: Holds(existing, id, item)
      invariant forall id :: id in existing && id !in remaining ==> existing[id].payload in items
      decreases remaining
    {
      ghost var some := IntSets.Pick(remaining);
      var id :| id in remaining;
      assert Holds(existing, id, existing[id].payload);
      items := items + [existing[id].payload];
      remaining := remaining - {id};
    }
  }

  /** A request may fail (ok is false), and a failed request may still have taken effect. A PUT that would leave
      an item without the id of its slot fails, so that everything the daemon holds can be listed. */
  class Daemon {
    var sources: map<int, DaemonStream>
    var sinks: map<int, DaemonStream>
    /** How many requests have failed so far: history, which nothing reads. */
    ghost var failures: nat
    const store: Storage

    constructor (store: Storage)
      ensures Valid()
      ensures this.store == store && State() == DaemonState(map[], map[]) && failures == 0
    {
      this.store := store;
      failures := 0;
      sources, sinks := map[], map[];
    }

    ghost function State(): DaemonState
      reads this
    {
      DaemonState(sources, sinks)
    }

    /** The daemon's class invariant: each stream is what its own item in the listing says it is. */
    ghost predicate Valid()
      reads this
    {
      Coherent(State())
    }

    method List() returns (payload: Option<Json>)
      modifies this`failures
      ensures failures == old(failures) + if payload.Some? then 0 else 1
      ensures payload.Some? ==> IsListing(payload.value, State())
    {
      if * {
        failures := failures + 1;
        return None;
      }
      var sourceItems := ListItems(sources);
      var sinkItems := ListItems(sinks);
      return Some(Object(map["sources" := Array(sourceItems), "sinks" := Array(sinkItems)]));
    }

    /** The state, as it is read off a listing. */
    method GetState() returns (state: Option<DaemonState>)
      requires Valid()
      modifies this`failures
      ensures state.Some? ==> state.value == State()
      ensures failures == old(failures) + if state.Some? then 0 else 1
    {
      var payload := List();
      if payload.None? {
        return None;
      }
      state := ParseStreams(payload.value);
      SnapshotIsFaithful(State());
    }

    method PutSource(id: int, payload: Json) returns (ok: bool)
      requires Valid()
      modifies this
      ensures Valid()
      ensures sinks == old(sinks)
      ensures var written := old(sources)[id := Stored(store, Slot(Sender, id), payload)];
              sources == written || (!ok && sources == old(sources))
      ensures failures == old(failures) + if ok then 0 else 1
    {
      var refused: bool := *;
      if refused || IdOf(store(Slot(Sender, id), payload)) != Some(id) {
        failures := failures + 1;
        return false;
      }
      sources := sources[id := Stored(store, Slot(Sender, id), payload)];
      ok := *;
      failures := failures + if ok then 0 else 1;
    }

    method PutSink(id: int, payload: Json) returns (ok: bool)
      requires Valid()
      modifies this
      ensures Valid()
      ensures sources == old(sources)
      ensures var written := old(sinks)[id := Stored(store, Slot(Receiver, id), payload)];
              sinks == written || (!ok && sinks == old(sinks))
      ensures failures == old(failures) + if ok then 0 else 1
    {
      var refused: bool := *;
      if refused || IdOf(store(Slot(Receiver, id), payload)) != Some(id) {
        failures := failures + 1;
        return false;
      }
      sinks := sinks[id := Stored(store, Slot(Receiver, id), payload)];
      ok := *;
      failures := failures + if ok then 0 else 1;
    }

    method DeleteSource(id: int) returns (ok: bool)
      requires Valid()
      modifies this
      ensures Valid()
      ensures sinks == old(sinks)
      ensures id !in old(sources) ==> !ok
      ensures sources == old(sources) - {id} || (!ok && sources == old(sources))
      ensures failures == old(failures) + if ok then 0 else 1
    {
      if id !in sources {
        failures := failures + 1;
        return false;
      }
      if * {
        failures := failures + 1;
        return false;
      }
      sources := sources - {id};
      ok := *;
      failures := failures + if ok then 0 else 1;
    }

    method DeleteSink(id: int) returns (ok: bool)
      requires Valid()
      modifies this
      ensures Valid()
      ensures sources == old(sources)
      ensures id !in old(sinks) ==> !ok
      ensures sinks == old(sinks) - {id} || (!ok && sinks == old(sinks))
      ensures failures == old(failures) + if ok then 0 else 1
    {
      if id !in sinks {
        failures := failures + 1;
        return false;
      }
      if * {
        failures := failures + 1;
        return false;
      }
      sinks := sinks - {id};
      ok := *;
      failures := failures + if ok then 0 else 1;
    }
  }
}
