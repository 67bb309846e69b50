/** A daemon that drops square brackets from the names it stores but keeps all else: which streams then stay
    settled. */
module Sanitising {
  import opened JsonValues
  import opened Ownership
  import opened OwnershipLaws
  import opened DaemonStates
  import opened Reconcilers
  import opened Targets
  import opened Convergence

  function StripName(v: Json): Json {
    if HasField(v, "name") && v.fields["name"].String?
    then Object(v.fields["name" := String(StripBrackets(v.fields["name"].s))])
    else v
  }

  function Sanitised(decorate: Decoration): Storage {
    (slot, payload) => StripName(decorate(slot, payload))
  }

  /** A daemon of either kind. */
  function Storing(decorate: Decoration, sanitises: bool): Storage {
    if sanitises then Sanitised(decorate) else decorate
  }

  // ----- what is kept of a payload -----

  lemma SanitisedKeeps(decorate: Decoration, slot: Slot, payload: Json)
    requires Named(payload)
    ensures NameOf(Sanitised(decorate)(slot, payload)) == StripBrackets(NameOf(payload))
    ensures Drifted(Sanitised(decorate)(slot, payload), payload) <==> !BracketFree(NameOf(payload))
  {
    var kept := decorate(slot, payload);
    var stripped := StripName(kept);
    UndriftedKeepsName(kept, payload);
    assert "name" in payload.fields && HasField(kept, "name");
    StripLeaves(NameOf(payload));
    if BracketFree(NameOf(payload)) {
      assert stripped.fields == kept.fields;
    } else {
      assert stripped.fields["name"] != payload.fields["name"];
    }
  }

  lemma KeptIff(decorate: Decoration, sanitises: bool, ns: string, d: DesiredStream)
    requires Named(d.payload)
    ensures KeptAsOwn(Storing(decorate, sanitises), ns, d)
            <==> Recognised(ns, d) && (sanitises ==> BracketFree(NameOf(d.payload)))
  {
    if sanitises {
      SanitisedKeeps(decorate, d.slot, d.payload);
      StripLeaves(NameOf(d.payload));
    } else {
      assert !Drifted(decorate(d.slot, d.payload), d.payload);
      StoredIsOwn(decorate, ns, d);
    }
  }

  /** A daemon of the first kind keeps every payload, one of the second those without a bracket in the name. */
  lemma KeepsIff(decorate: Decoration, sanitises: bool, desired: seq<DesiredStream>)
    requires forall d :: d in desired && d.enabled ==> Named(d.payload)
    ensures Keeps(Storing(decorate, sanitises), desired)
            <==> (sanitises ==> forall d :: d in desired && d.enabled ==> BracketFree(NameOf(d.payload)))
  {
    hide Drifted;
    forall d | d in desired && d.enabled
      ensures !Drifted(Storing(decorate, sanitises)(d.slot, d.payload), d.payload)
              <==> (sanitises ==> BracketFree(NameOf(d.payload)))
    {
      KeepsOne(decorate, sanitises, d);
    }
  }

  lemma KeepsOne(decorate: Decoration, sanitises: bool, d: DesiredStream)
    requires Named(d.payload)
    ensures !Drifted(Storing(decorate, sanitises)(d.slot, d.payload), d.payload)
            <==> (sanitises ==> BracketFree(NameOf(d.payload)))
  {
    if sanitises {
      SanitisedKeeps(decorate, d.slot, d.payload);
    } else {
      assert !Drifted(decorate(d.slot, d.payload), d.payload);
    }
  }

  /** Passes converge with a sanitising daemon if and only if each enabled stream carries a name the bridge
      recognises and that has no square bracket to lose. */
  lemma SanitisedConvergesIff(decorate: Decoration, ns: string, desired: seq<DesiredStream>)
    requires UniqueSlots(desired)
    requires forall d :: d in desired && d.enabled ==> Named(d.payload)
    ensures Converges(Sanitised(decorate), ns, desired)
            <==> forall d :: d in desired && d.enabled ==> Recognised(ns, d) && BracketFree(NameOf(d.payload))
  {
    ConvergesIffKept(Sanitised(decorate), ns, desired);
    forall d | d in desired && d.enabled
      ensures KeptAsOwn(Sanitised(decorate), ns, d) <==> Recognised(ns, d) && BracketFree(NameOf(d.payload))
    {
      KeptIff(decorate, true, ns, d);
    }
  }

  /** The stripped name is still one the bridge takes for its own. */
  ghost predicate RecognisedStripped(ns: string, d: DesiredStream) {
    var ownership := ParseManagedName(StripBrackets(NameOf(d.payload)));
    ownership.Some? && ownership.value.ns == ns
  }

  /** From every state a complete pass leaves nothing to plan, if and only if each enabled stream whose name is
      still recognised once stripped has no square bracket to lose. */
  lemma SanitisedQuietIff(decorate: Decoration, ns: string, desired: seq<DesiredStream>)
    requires UniqueSlots(desired)
    requires forall d :: d in desired && d.enabled ==> Named(d.payload)
    ensures (forall st :: PlanOps(ns, desired, Pass(Sanitised(decorate), ns, desired, st)) == [])
            <==> forall d :: d in desired && d.enabled && RecognisedStripped(ns, d) ==> BracketFree(NameOf(d.payload))
  {
    QuietIffNoneRewritten(Sanitised(decorate), ns, desired);
    forall d | d in desired && d.enabled
      ensures RewrittenOnSight(Sanitised(decorate), ns, d)
              <==> RecognisedStripped(ns, d) && !BracketFree(NameOf(d.payload))
    {
      RewrittenIff(decorate, true, ns, d);
    }
  }

  lemma RewrittenIff(decorate: Decoration, sanitises: bool, ns: string, d: DesiredStream)
    requires Named(d.payload)
    ensures RewrittenOnSight(Storing(decorate, sanitises), ns, d)
            <==> sanitises && RecognisedStripped(ns, d) && !BracketFree(NameOf(d.payload))
  {
    if sanitises {
      SanitisedKeeps(decorate, d.slot, d.payload);
    } else {
      assert !Drifted(decorate(d.slot, d.payload), d.payload);
    }
  }

  /** A name as the daemon lists it. */
  function ListedName(sanitises: bool, name: string): string {
    if sanitises then StripBrackets(name) else name
  }

  lemma StoredName(decorate: Decoration, sanitises: bool, d: DesiredStream)
    requires Named(d.payload)
    ensures Stored(Storing(decorate, sanitises), d.slot, d.payload).name == ListedName(sanitises, NameOf(d.payload))
  {
    if sanitises {
      SanitisedKeeps(decorate, d.slot, d.payload);
    } else {
      UndriftedKeepsName(decorate(d.slot, d.payload), d.payload);
    }
  }

  // ----- markers -----

  lemma BracketFreeConcat(s: string, t: string)
    ensures BracketFree(s + t) <==> BracketFree(s) && BracketFree(t)
  {
  }

  lemma BracketFreeName(ns: string, side: Side, nmosId: string, title: string)
    ensures BracketFree(ManagedName(ns, side, nmosId, title))
            <==> BracketFree(ns) && BracketFree(nmosId) && BracketFree(title)
  {
    var rest := SideToString(side) + "/" + nmosId + Tail(title);
    BracketFreeConcat("NMOS(" + ns + ")/", rest);
    BracketFreeConcat("NMOS(" + ns, ")/");
    BracketFreeConcat("NMOS(", ns);
    BracketFreeConcat(SideToString(side) + "/" + nmosId, Tail(title));
    BracketFreeConcat(SideToString(side) + "/", nmosId);
    BracketFreeConcat(SideToString(side), "/");
    BracketFreeConcat(" ", title);
  }

  lemma StripRest(side: Side, nmosId: string, tail: string)
    ensures StripBrackets(SideToString(side) + "/" + nmosId + tail)
            == SideToString(side) + "/" + StripBrackets(nmosId) + StripBrackets(tail)
  {
    hide SideToString;
    StripConcat4(SideToString(side), "/", nmosId, tail);
    StripSideWord(side);
    StripDelimiter();
  }

  lemma StripMarker(ns: string, rest: string)
    ensures StripBrackets("NMOS(" + ns + ")/" + rest) == "NMOS(" + StripBrackets(ns) + ")/" + StripBrackets(rest)
  {
    hide StripBrackets;
    StripConcat4("NMOS(", ns, ")/", rest);
    StripLeaves("NMOS(");
    StripLeaves(")/");
  }

  lemma StripManagedName(ns: string, side: Side, nmosId: string, title: string)
    ensures StripBrackets(ManagedName(ns, side, nmosId, title)) ==
            "NMOS(" + StripBrackets(ns) + ")/"
            + (SideToString(side) + "/" + StripBrackets(nmosId) + StripBrackets(Tail(title)))
  {
    hide StripBrackets, SideToString, Tail;
    StripMarker(ns, SideToString(side) + "/" + nmosId + Tail(title));
    StripRest(side, nmosId, Tail(title));
  }

  /** Brackets in the title or the id of a stream do not hide its marker, but they keep the copy drifted: with a
      sanitising daemon the bridge rewrites such a stream on sight. */
  lemma BracketsAreRewritten(decorate: Decoration, ns: string, nmosId: string, title: string, d: DesiredStream)
    requires Named(d.payload) && NameOf(d.payload) == ManagedName(ns, d.slot.side, nmosId, title)
    requires PlainNamespace(ns) && BracketFree(ns) && !(BracketFree(nmosId) && BracketFree(title))
    requires StripBrackets(nmosId) != "" && StripBrackets(nmosId)[0] != ' '
    ensures RewrittenOnSight(Sanitised(decorate), ns, d)
  {
    SanitisedKeeps(decorate, d.slot, d.payload);
    BracketFreeName(ns, d.slot.side, nmosId, title);
    StripManagedName(ns, d.slot.side, nmosId, title);
    StripLeaves(ns);
    assert SetOff(StripBrackets(Tail(title)));
    MarkerComesBack(ns, d.slot.side, StripBrackets(nmosId), StripBrackets(Tail(title)));
  }

  ghost function Passes(store: Storage, ns: string, desired: seq<DesiredStream>, n: nat, st: DaemonState): DaemonState {
    if n == 0 then st else Pass(store, ns, desired, Passes(store, ns, desired, n - 1, st))
  }

  lemma {:induction false} PassesAreOne(store: Storage, ns: string, desired: seq<DesiredStream>, n: nat,
                                        st: DaemonState)
    requires UniqueSlots(desired) && n > 0
    ensures Passes(store, ns, desired, n, st) == Pass(store, ns, desired, st)
  {
    var one := Pass(store, ns, desired, st);
    if n > 1 {
      PassesAreOne(store, ns, desired, n - 1, st);
      forall slot
        ensures Lookup(Pass(store, ns, desired, one), slot) == Lookup(one, slot)
      {
        PassRefinesTarget(store, ns, desired, st, slot);
        PassRefinesTarget(store, ns, desired, one, slot);
        TargetIdempotent(store, ns, desired, slot, Lookup(st, slot));
      }
      SameState(Pass(store, ns, desired, one), one);
    }
  }

  /** So a single bracketed title is updated by every pass for ever, though the daemon's state no longer changes. */
  lemma BracketsAreRewrittenForEver(decorate: Decoration, ns: string, desired: seq<DesiredStream>, d: DesiredStream,
                                    nmosId: string, title: string, n: nat, st: DaemonState)
    requires UniqueSlots(desired) && d in desired && d.enabled && n > 0 && Lookup(st, d.slot).None?
    requires Named(d.payload) && NameOf(d.payload) == ManagedName(ns, d.slot.side, nmosId, title)
    requires PlainNamespace(ns) && BracketFree(ns) && !(BracketFree(nmosId) && BracketFree(title))
    requires StripBrackets(nmosId) != "" && StripBrackets(nmosId)[0] != ' '
    ensures var store := Sanitised(decorate);
            && Passes(store, ns, desired, n, st) == Pass(store, ns, desired, st)
            && PlannedOp(Update, d.slot, d.payload) in PlanOps(ns, desired, Passes(store, ns, desired, n, st))
  {
    var store := Sanitised(decorate);
    PassesAreOne(store, ns, desired, n, st);
    BracketsAreRewritten(decorate, ns, nmosId, title, d);
    NeededAfterPass(store, ns, desired, st, d.slot);
    PassRefinesTarget(store, ns, desired, st, d.slot);
    EnabledAtIs(desired, d);
    PlanIsSlotwise(ns, desired, Pass(store, ns, desired, st));
  }
}
