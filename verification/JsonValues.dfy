/** JSON values as the daemon's REST API carries them, and the drift test on payloads. */
module JsonValues {
  // Numbers are restricted to integers: no payload field the bridge writes is fractional.
  datatype Json =
    | Null
    | Bool(b: bool)
    | Number(n: int)
    | String(s: string)
    | Array(items: seq<Json>)
    | Object(fields: map<string, Json>)

  predicate HasField(v: Json, key: string) {
    v.Object? && key in v.fields
  }

  /** Some field the bridge set is missing from the daemon's copy, or has another value there.
      Fields that only the daemon's copy has never matter. */
  ghost predicate Drifted(existing: Json, desired: Json) {
    if desired.Object? then
      exists key :: key in desired.fields && !(HasField(existing, key) && existing.fields[key] == desired.fields[key])
    else
      existing != desired
  }

  /** A copy has not drifted exactly if it is the payload laid over something. A payload that sets nothing never
      counts as drifted, and one that is not an object only the same one keeps. */
  lemma UndriftedIff(existing: Json, desired: Json)
    ensures !Drifted(existing, desired) <==>
            if desired.Object? then
              desired.fields == map[]
              || (existing.Object? && exists extra: map<string, Json> :: existing.fields == extra + desired.fields)
            else existing == desired
  {
    if desired.Object? && existing.Object? && !Drifted(existing, desired) {
      assert existing.fields == existing.fields + desired.fields;
    }
    if desired.Object? {
      KeyOf(desired.fields);
    }
  }

  lemma KeyOf(fields: map<string, Json>)
    ensures fields == map[] || exists key :: key in fields
  {
    if forall key :: key !in fields {
      assert fields == map[];
    }
  }

  method PayloadDrifted(existing: Json, desired: Json) returns (drifted: bool)
    ensures drifted == Drifted(existing, desired)
  {
    if !desired.Object? {
      return existing != desired;
    }
    var remaining := desired.fields.Keys;
    while remaining != {}
      invariant remaining <= desired.fields.Keys
      invariant forall key :: key in desired.fields && key !in remaining ==>
                  HasField(existing, key) && existing.fields[key] == desired.fields[key]
      decreases remaining
    {
      var key :| key in remaining;
      if !HasField(existing, key) {
        return true;
      }
      if existing.fields[key] != desired.fields[key] {
        return true;
      }
      remaining := remaining - {key};
    }
    return false;
  }

  /** The value of the name field when it is a string, as parse_stream reads it. */
  function NameOf(item: Json): string {
    if HasField(item, "name") && item.fields["name"].String? then item.fields["name"].s else ""
  }

  lemma NameIsRead(item: Json, name: string)
    ensures item.Object? && "name" in item.fields && item.fields["name"] == String(name) ==> NameOf(item) == name
    ensures (forall s: string :: !(item.Object? && "name" in item.fields && item.fields["name"] == String(s))) ==>
              NameOf(item) == ""
  {
  }

  /** A copy that has not drifted is read under the name the bridge wrote. */
  lemma UndriftedKeepsName(existing: Json, desired: Json)
    requires !Drifted(existing, desired)
    requires HasField(desired, "name") && desired.fields["name"].String?
    ensures NameOf(existing) == NameOf(desired)
  {
    assert "name" in desired.fields;
  }
}
