/** Which names are markers, for every string, and what that means for streams set up by hand. */
module MarkerForms {
  import opened Wrappers
  import opened Ownership
  import opened OwnershipLaws
  import opened DaemonStates
  import opened Reconcilers
  import Targets
  import opened DesiredState
  import opened RunLoop
  import RunLoopLaws

  // ----- the forms, by concatenation alone -----

  /** s nowhere reads delim. */
  ghost predicate Without(s: string, delim: string) {
    forall a: string, b: string :: s != a + delim + b
  }

  /** Nothing, or a space and any text. */
  ghost predicate Label(tail: string) {
    tail == "" || exists title: string :: tail == " " + title
  }

  /** What follows the namespace: the side word, a slash, an id without a space, and perhaps a label. */
  ghost predicate WritesStream(rest: string, side: Side, nmosId: string) {
    && nmosId != "" && Without(nmosId, " ")
    && exists tail: string ::
         Label(tail) && rest == (if side == Sender then "sender" else "receiver") + "/" + nmosId + tail
  }

  /** The prefix, a nonempty namespace without the delimiter, the delimiter, and the stream. */
  ghost predicate Writes(name: string, prefix: string, delim: string, ns: string, side: Side, nmosId: string) {
    && ns != "" && Without(ns, delim)
    && exists rest: string :: WritesStream(rest, side, nmosId) && name == prefix + ns + delim + rest
  }

  /** A marker in one of the three forms; a name that could be read in two is read in the first of them. */
  ghost predicate IsMarker(name: string, ns: string, side: Side, nmosId: string) {
    if "NMOS(" <= name then Writes(name, "NMOS(", ")/", ns, side, nmosId)
    else if "NMOS[" <= name then Writes(name, "NMOS[", "]/", ns, side, nmosId)
    else Writes(name, "NMOS", "/", ns, side, nmosId)
  }

  // ----- occurrences -----

  lemma OccursAt(s: string, delim: string, a: string, b: string)
    requires s == a + delim + b
    ensures At(s, delim, |a|)
  {
  }

  lemma CutAt(s: string, delim: string, i: nat)
    requires At(s, delim, i)
    ensures s == s[..i] + delim + s[i + |delim|..]
  {
  }

  lemma WithoutIff(s: string, delim: string)
    requires delim != ""
    ensures Without(s, delim) <==> !Contains(s, delim)
  {
    if Contains(s, delim) {
      CutAt(s, delim, Find(s, delim, 0).value);
    }
    if a: string, b: string :| s == a + delim + b {
      OccursAt(s, delim, a, b);
    }
  }

  lemma LabelIff(tail: string)
    ensures Label(tail) <==> SetOff(tail)
  {
    if tail != "" && tail[0] == ' ' {
      assert tail == " " + tail[1..];
    }
  }

  // ----- the stream part -----

  lemma RestSplits(rest: string, slash: nat) returns (tail: string, nmosId: string)
    requires Find(rest, "/", 0) == Some(slash)
    ensures slash < |rest| && SetOff(tail) && nmosId == Before(rest[slash + 1..], " ")
    ensures rest == rest[..slash] + "/" + nmosId + tail
    ensures !Contains(nmosId, " ")
  {
    AtOne(rest, '/', slash);
    var after := rest[slash + 1..];
    nmosId := Before(after, " ");
    tail := after[|nmosId|..];
    assert after == nmosId + tail;
    if tail != "" {
      AtOne(after, ' ', |nmosId|);
    }
    forall j: nat
      ensures !At(nmosId, " ", j)
    {
      AtOne(nmosId, ' ', j);
      AtOne(after, ' ', j);
    }
  }

  lemma RestRead(ns: string, rest: string, side: Side, nmosId: string)
    requires ParseRest(ns, rest) == Some(Ownership(ns, side, nmosId))
    ensures ns != "" && WritesStream(rest, side, nmosId)
  {
    var slash := Find(rest, "/", 0).value;
    var tail, id := RestSplits(rest, slash);
    assert id == nmosId;
    WithoutIff(nmosId, " ");
    LabelIff(tail);
    assert rest[..slash] == if side == Sender then "sender" else "receiver";
  }

  lemma StreamRead(ns: string, rest: string, side: Side, nmosId: string)
    requires ns != "" && WritesStream(rest, side, nmosId)
    ensures ParseRest(ns, rest) == Some(Ownership(ns, side, nmosId))
  {
    var tail: string :|
      Label(tail) && rest == (if side == Sender then "sender" else "receiver") + "/" + nmosId + tail;
    LabelIff(tail);
    WithoutIff(nmosId, " ");
    assert SideToString(side) == if side == Sender then "sender" else "receiver";
    RestParses(ns, side, nmosId, tail);
  }

  lemma RestIff(ns: string, rest: string, side: Side, nmosId: string)
    ensures ParseRest(ns, rest) == Some(Ownership(ns, side, nmosId)) <==> ns != "" && WritesStream(rest, side, nmosId)
  {
    hide ParseRest, WritesStream;
    if ParseRest(ns, rest) == Some(Ownership(ns, side, nmosId)) {
      RestRead(ns, rest, side, nmosId);
    }
    if ns != "" && WritesStream(rest, side, nmosId) {
      StreamRead(ns, rest, side, nmosId);
    }
  }

  // ----- one form -----

  predicate Delimiter(delim: string) {
    |delim| == 1 || (|delim| == 2 && delim[0] != delim[1])
  }

  lemma AtInSlice(name: string, from: nat, to: nat, delim: string, j: nat)
    requires from <= to <= |name|
    ensures At(name[from..to], delim, j) ==> At(name, delim, from + j)
  {
    if At(name[from..to], delim, j) {
      forall k | 0 <= k < |delim|
        ensures name[from + j + k] == delim[k]
      {
        assert name[from..to][j + k] == delim[k];
      }
    }
  }

  lemma FindIsWithin(name: string, delim: string, from: nat, nsEnd: nat)
    requires delim != "" && Find(name, delim, from) == Some(nsEnd)
    ensures from <= nsEnd && nsEnd + |delim| <= |name| && Without(name[from..nsEnd], delim)
  {
    var ns := name[from..nsEnd];
    forall j: nat
      ensures !At(ns, delim, j)
    {
      AtInSlice(name, from, nsEnd, delim, j);
    }
    WithoutIff(ns, delim);
  }

  lemma FourPieces(name: string, i: nat, j: nat, k: nat)
    requires i <= j <= k <= |name|
    ensures name == name[..i] + name[i..j] + name[j..k] + name[k..]
  {
    assert name[..i] + name[i..j] == name[..j];
    assert name[..j] + name[j..k] == name[..k];
  }

  lemma SliceIs(name: string, delim: string, i: nat)
    requires At(name, delim, i)
    ensures name[i..i + |delim|] == delim
  {
  }

  lemma OpensWith(name: string, prefix: string)
    requires prefix <= name
    ensures |prefix| <= |name| && name[..|prefix|] == prefix
  {
  }

  lemma CutsInFour(name: string, prefix: string, delim: string, i: nat, j: nat, k: nat)
    requires i <= j <= k <= |name| && name[..i] == prefix && name[j..k] == delim
    ensures name == prefix + name[i..j] + delim + name[k..]
  {
    FourPieces(name, i, j, k);
  }

  lemma FormCuts(name: string, prefix: string, delim: string, nsEnd: nat)
    requires prefix <= name && delim != "" && |prefix| <= nsEnd && At(name, delim, nsEnd)
    ensures nsEnd + |delim| <= |name|
    ensures name == prefix + name[|prefix|..nsEnd] + delim + name[nsEnd + |delim|..]
  {
    OpensWith(name, prefix);
    SliceIs(name, delim, nsEnd);
    CutsInFour(name, prefix, delim, |prefix|, nsEnd, nsEnd + |delim|);
  }

  lemma FormFound(name: string, prefix: string, delim: string, ns: string, rest: string)
    requires Delimiter(delim) && Without(ns, delim) && name == prefix + ns + delim + rest
    ensures Find(name, delim, |prefix|) == Some(|prefix| + |ns|)
    ensures name[|prefix|..|prefix| + |ns|] == ns && name[|prefix| + |ns| + |delim|..] == rest
  {
    hide Find, Before, Without;
    Pieces(prefix, ns, delim, rest);
    WithoutIff(ns, delim);
    MarkerSplits(name, |prefix|, ns, delim);
  }

  /** What reading one form gives. */
  function ReadForm(name: string, prefix: string, delim: string): Option<Ownership> {
    if !(prefix <= name) then None
    else match Find(name, delim, |prefix|)
      case None => None
      case Some(nsEnd) =>
        if nsEnd + |delim| > |name| then None else ParseRest(name[|prefix|..nsEnd], name[nsEnd + |delim|..])
  }

  lemma ReadIffWritten(name: string, prefix: string, delim: string, ns: string, side: Side, nmosId: string)
    requires Delimiter(delim)
    ensures ReadForm(name, prefix, delim) == Some(Ownership(ns, side, nmosId))
            <==> Writes(name, prefix, delim, ns, side, nmosId)
  {
    hide ParseRest, WritesStream, Find, Without;
    if ReadForm(name, prefix, delim) == Some(Ownership(ns, side, nmosId)) {
      var nsEnd := Find(name, delim, |prefix|).value;
      var rest := name[nsEnd + |delim|..];
      FindIsWithin(name, delim, |prefix|, nsEnd);
      FormCuts(name, prefix, delim, nsEnd);
      RestKeepsNamespace(name[|prefix|..nsEnd], rest);
      RestIff(ns, rest, side, nmosId);
    }
    if Writes(name, prefix, delim, ns, side, nmosId) {
      var rest: string :| WritesStream(rest, side, nmosId) && name == prefix + ns + delim + rest;
      FormFound(name, prefix, delim, ns, rest);
      RestIff(ns, rest, side, nmosId);
    }
  }

  lemma ParsesByForm(name: string)
    ensures ParseManagedName(name) ==
            if "NMOS(" <= name then ReadForm(name, "NMOS(", ")/")
            else if "NMOS[" <= name then ReadForm(name, "NMOS[", "]/")
            else ReadForm(name, "NMOS", "/")
  {
    hide ParseRest;
  }

  /** For every string: it is read as naming an owner exactly if it is a marker of that owner, written in one of the
      three forms; all other names are nobody's. */
  lemma ParsedIffMarker(name: string, ns: string, side: Side, nmosId: string)
    ensures ParseManagedName(name) == Some(Ownership(ns, side, nmosId)) <==> IsMarker(name, ns, side, nmosId)
  {
    hide ParseManagedName, ReadForm, Writes;
    ParsesByForm(name);
    ReadIffWritten(name, "NMOS(", ")/", ns, side, nmosId);
    ReadIffWritten(name, "NMOS[", "]/", ns, side, nmosId);
    ReadIffWritten(name, "NMOS", "/", ns, side, nmosId);
  }

  lemma Unnest(a: string, b: string, c: string, d: string)
    ensures a + (b + c + d) == a + b + c + d
  {
  }

  /** The printed marker, spelled out. */
  lemma PrintedMarker(ns: string, side: Side, nmosId: string, title: string)
    ensures ManagedName(ns, side, nmosId, title)
            == "NMOS(" + ns + ")/" + (if side == Sender then "sender" else "receiver") + ("/" + nmosId)
               + (if title == "" then "" else " " + title)
  {
    hide Tail;
    var word := if side == Sender then "sender" else "receiver";
    var tail := if title == "" then "" else " " + title;
    assert Tail(title) == tail by {
      TailIs(title);
    }
    assert SideToString(side) + "/" + nmosId == word + ("/" + nmosId);
    Unnest("NMOS(" + ns + ")/", word, "/" + nmosId, tail);
  }

  lemma TailIs(title: string)
    ensures Tail(title) == if title == "" then "" else " " + title
  {
  }

  // ----- streams set up by hand -----

  lemma UnmarkedIsUnmanaged(name: string)
    requires !("NMOS" <= name)
    ensures ParseManagedName(name) == None
  {
  }

  /** The words of a marker alone do not make one. */
  lemma HandNamedExample()
    ensures ParseManagedName("rack/sender/mic1") == None
  {
    hide ParseManagedName;
    assert "NMOS"[0] != "rack/sender/mic1"[0];
    UnmarkedIsUnmanaged("rack/sender/mic1");
  }

  /** Any stream that a plan updates or removes carries a marker of the bridge's namespace: no plan, for whatever
      list of desired streams, aims at a stream of another name. */
  lemma PlansTouchMarkersOnly(ns: string, desired: seq<DesiredStream>, st: DaemonState, op: PlannedOp)
    requires op in PlanOps(ns, desired, st) && Lookup(st, op.slot).Some?
    ensures exists side, nmosId :: IsMarker(Lookup(st, op.slot).value.name, ns, side, nmosId)
    ensures "NMOS" <= Lookup(st, op.slot).value.name
  {
    hide PlanOps, IsMarker, ParseManagedName;
    var name := Lookup(st, op.slot).value.name;
    Targets.PlanFailsClosed(ns, desired, st, op);
    var owner := ParseManagedName(name).value;
    ParsedIffMarker(name, ns, owner.side, owner.nmosId);
    if !("NMOS" <= name) {
      UnmarkedIsUnmanaged(name);
    }
  }

  /** And a removal one filed on the side its marker names. */
  lemma RemovalsMeetOwnMarkers(ns: string, desired: seq<DesiredStream>, st: DaemonState, op: PlannedOp)
    requires op in PlanOps(ns, desired, st) && op.action == Remove
    ensures Lookup(st, op.slot).Some?
    ensures exists nmosId :: IsMarker(Lookup(st, op.slot).value.name, ns, op.slot.side, nmosId)
  {
    hide PlanOps, IsMarker, ParseManagedName;
    Targets.PlanFailsClosed(ns, desired, st, op);
    var owner := ParseManagedName(Lookup(st, op.slot).value.name).value;
    ParsedIffMarker(Lookup(st, op.slot).value.name, ns, owner.side, owner.nmosId);
  }

  /** Over whole runs of the loop: a stream that carries no marker of the bridge's namespace keeps its content for as
      long as nobody else changes it. */
  lemma UnmarkedStreamsStay(env: Env, run: seq<World>, steps: seq<Step>, slot: Slot, i: nat, j: nat)
    requires ValidSetup(env.setup) && IsRun(env, run, steps) && i <= j < |run|
    requires Lookup(run[i].daemon, slot).Some?
    requires forall side, nmosId :: !IsMarker(Lookup(run[i].daemon, slot).value.name, env.setup.ns, side, nmosId)
    requires forall m :: i <= m < j && steps[m].Outside? ==>
               Lookup(run[m + 1].daemon, slot) == Lookup(run[m].daemon, slot)
    ensures Lookup(run[j].daemon, slot) == Lookup(run[i].daemon, slot)
  {
    hide IsMarker, ParseManagedName, IsRun, Lookup;
    var name := Lookup(run[i].daemon, slot).value.name;
    var owner := ParseManagedName(name);
    if owner.Some? {
      ParsedIffMarker(name, env.setup.ns, owner.value.side, owner.value.nmosId);
    }
    RunLoopLaws.RunSparesProtected(env, run, steps, slot, i, j);
  }
}
