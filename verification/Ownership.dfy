/** The ownership marker carried in daemon stream names: printer and three-form parser. */
module Ownership {
  import opened Wrappers

  datatype Side = Sender | Receiver

  datatype Ownership = Ownership(ns: string, side: Side, nmosId: string)

  function SideToString(side: Side): string {
    match side
    case Sender => "sender"
    case Receiver => "receiver"
  }

  function SideFromString(value: string): Option<Side> {
    if value == "sender" then Some(Sender)
    else if value == "receiver" then Some(Receiver)
    else None
  }

  // ----- substring search -----

  predicate At(s: string, pat: string, i: nat) {
    i + |pat| <= |s| && forall j :: 0 <= j < |pat| ==> s[i + j] == pat[j]
  }

  /** The first occurrence of pat in s at or after index from. */
  function Find(s: string, pat: string, from: nat): (r: Option<nat>)
    ensures r.Some? ==> from <= r.value && At(s, pat, r.value)
    ensures r.Some? ==> forall j :: from <= j < r.value ==> !At(s, pat, j)
    ensures r.None? ==> forall j :: from <= j ==> !At(s, pat, j)
    decreases |s| - from
  {
    if from + |pat| > |s| then None
    else if At(s, pat, from) then Some(from)
    else if from == |s| then None
    else Find(s, pat, from + 1)
  }

  predicate Contains(s: string, pat: string) {
    Find(s, pat, 0).Some?
  }

  /** The part of s before the first occurrence of pat; all of s when there is none. */
  function Before(s: string, pat: string): (r: string)
    requires pat != ""
    ensures r <= s
    ensures r == s <==> !Contains(s, pat)
  {
    match Find(s, pat, 0)
    case Some(k) => s[..k]
    case None => s
  }

  // ----- printer and parser -----

  function Tail(title: string): string {
    if title == "" then "" else " " + title
  }

  function ManagedName(ns: string, side: Side, nmosId: string, title: string): string {
    "NMOS(" + ns + ")/" + (SideToString(side) + "/" + nmosId + Tail(title))
  }

  /** The side and the id that follow the namespace marker. */
  function ParseRest(ns: string, rest: string): Option<Ownership> {
    match Find(rest, "/", 0)
    case None => None
    case Some(sideEnd) =>
      match SideFromString(rest[..sideEnd])
      case None => None
      case Some(side) =>
        var after := rest[sideEnd + 1..];
        var space := Find(after, " ", 0);
        var nmosId := if space.None? then after else after[..space.value];
        if ns == "" || nmosId == "" then None else Some(Ownership(ns, side, nmosId))
  }

  function ParseManagedName(name: string): Option<Ownership> {
    if "NMOS(" <= name then
      match Find(name, ")/", 5)
      case None => None
      case Some(nsEnd) => ParseRest(name[5..nsEnd], name[nsEnd + 2..])
    else if "NMOS[" <= name then
      match Find(name, "]/", 5)
      case None => None
      case Some(nsEnd) => ParseRest(name[5..nsEnd], name[nsEnd + 2..])
    else if "NMOS" <= name then
      match Find(name, "/", 4)
      case None => None
      case Some(nsEnd) => ParseRest(name[4..nsEnd], name[nsEnd + 1..])
    else
      None
  }
}
