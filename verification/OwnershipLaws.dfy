/** What the marker printer and the parser promise each other. */
module OwnershipLaws {
  import opened Wrappers
  import opened Ownership

  // ----- names and the conditions on them -----

  /** The namespaces that come back out of a current-form marker. */
  predicate PlainNamespace(ns: string) {
    ns != "" && !Contains(ns, ")/")
  }

  predicate PlainId(nmosId: string) {
    nmosId != "" && !Contains(nmosId, " ")
  }

  function LegacyName(ns: string, side: Side, nmosId: string, title: string): string {
    "NMOS[" + ns + "]/" + (SideToString(side) + "/" + nmosId + Tail(title))
  }

  /** What sanitising by the daemon does to a name: square brackets are dropped. */
  function StripBrackets(s: string): string {
    if s == "" then ""
    else (if s[0] == '[' || s[0] == ']' then "" else [s[0]]) + StripBrackets(s[1..])
  }

  predicate BracketFree(s: string) {
    '[' !in s && ']' !in s
  }

  // ----- search lemmas -----

  /** s reads body from index from on, and then delim. */
  predicate Reads(s: string, from: nat, body: string, delim: string) {
    At(s, body, from) && At(s, delim, from + |body|)
  }

  lemma AtOne(s: string, c: char, i: nat)
    ensures At(s, [c], i) <==> i < |s| && s[i] == c
  {
    if i < |s| && s[i] == c {
      assert s[i + 0] == [c][0];
    }
    if At(s, [c], i) {
      assert s[i + 0] == [c][0];
    }
  }

  lemma AtInBody(s: string, from: nat, body: string, delim: string, j: nat)
    requires |delim| == 1 || (|delim| == 2 && delim[0] != delim[1])
    requires Reads(s, from, body, delim) && j < |body|
    ensures At(s, delim, from + j) == At(body, delim, j)
  {
    assert s[from + j] == body[j];
    if j + 1 < |body| {
      assert s[from + (j + 1)] == body[j + 1];
    } else {
      assert s[from + |body| + 0] == delim[0];
    }
  }

  lemma FirstIs(s: string, pat: string, from: nat, k: nat)
    requires from <= k && At(s, pat, k)
    requires forall j: nat :: from <= j < k ==> !At(s, pat, j)
    ensures Find(s, pat, from) == Some(k)
  {
  }

  /** The first delimiter is where the body has it, or right behind the body when the body has none. */
  lemma FindInBody(s: string, from: nat, body: string, delim: string)
    requires |delim| == 1 || (|delim| == 2 && delim[0] != delim[1])
    requires Reads(s, from, body, delim)
    ensures Find(s, delim, from) == Some(from + |Before(body, delim)|)
  {
    var k := |Before(body, delim)|;
    forall j: nat | from <= j < from + k
      ensures !At(s, delim, j)
    {
      AtInBody(s, from, body, delim, j - from);
    }
    if k < |body| {
      AtInBody(s, from, body, delim, k);
    }
    FirstIs(s, delim, from, from + k);
  }

  // ----- what each form parses to -----

  lemma SideWordParses(side: Side)
    ensures Before(SideToString(side), "/") == SideToString(side)
    ensures SideFromString(SideToString(side)) == Some(side)
  {
    var word := SideToString(side);
    forall j: nat
      ensures !At(word, "/", j)
    {
      AtOne(word, '/', j);
    }
  }

  /** Four pieces laid end to end are found again where they start. */
  lemma Pieces(a: string, b: string, c: string, d: string)
    ensures var s := a + b + c + d;
            && |s| == |a| + |b| + |c| + |d|
            && At(s, a, 0) && At(s, b, |a|) && At(s, c, |a| + |b|) && s[|a| + |b| + |c|..] == d
  {
  }

  lemma PrefixSlice(s: string, from: nat, body: string, part: string)
    requires At(s, body, from) && part <= body
    ensures s[from..from + |part|] == part
  {
    forall j | 0 <= j < |part|
      ensures s[from..from + |part|][j] == part[j]
    {
      assert s[from + j] == body[j];
    }
  }

  /** What the parser cuts out of a name that holds ns from index from on, then the delimiter, then rest. */
  lemma MarkerSplits(name: string, from: nat, ns: string, delim: string)
    requires |delim| == 1 || (|delim| == 2 && delim[0] != delim[1])
    requires Reads(name, from, ns, delim)
    ensures Find(name, delim, from) == Some(from + |Before(ns, delim)|)
    ensures from + |Before(ns, delim)| + |delim| <= |name|
    ensures name[from..from + |Before(ns, delim)|] == Before(ns, delim)
  {
    assert name[from..from + |Before(ns, delim)|] == Before(ns, delim) by {
      PrefixSlice(name, from, ns, Before(ns, delim));
    }
    FindInBody(name, from, ns, delim);
  }

  /** Nothing, or something set off from the id by a space. */
  predicate SetOff(tail: string) {
    tail == "" || tail[0] == ' '
  }

  lemma IdParses(nmosId: string, tail: string)
    requires SetOff(tail)
    ensures Before(nmosId + tail, " ") == Before(nmosId, " ")
  {
    var after := nmosId + tail;
    if tail == "" {
      assert after == nmosId;
    } else {
      AtOne(after, ' ', |nmosId|);
      FindInBody(after, 0, nmosId, " ");
    }
  }

  lemma RestParses(ns: string, side: Side, nmosId: string, tail: string)
    requires SetOff(tail)
    ensures ParseRest(ns, SideToString(side) + "/" + nmosId + tail) ==
            if ns == "" || Before(nmosId, " ") == "" then None
            else Some(Ownership(ns, side, Before(nmosId, " ")))
  {
    var word := SideToString(side);
    var after := nmosId + tail;
    var rest := word + "/" + nmosId + tail;
    assert rest == word + ("/" + after);
    assert rest[..|word|] == word && rest[|word|] == '/' && rest[|word| + 1..] == after;
    assert Find(rest, "/", 0) == Some(|word|) by {
      AtOne(rest, '/', |word|);
      FindInBody(rest, 0, word, "/");
      SideWordParses(side);
    }
    SideWordParses(side);
    IdParses(nmosId, tail);
  }

  lemma RestKeepsNamespace(ns: string, rest: string)
    ensures ParseRest(ns, rest).Some? ==> ParseRest(ns, rest).value.ns == ns
  {
  }

  lemma CurrentSplits(name: string, nsEnd: nat)
    requires "NMOS(" <= name && Find(name, ")/", 5) == Some(nsEnd)
    ensures 5 <= nsEnd && nsEnd + 2 <= |name|
    ensures ParseManagedName(name) == ParseRest(name[5..nsEnd], name[nsEnd + 2..])
  {
    hide ParseRest;
  }

  lemma LegacySplits(name: string, nsEnd: nat)
    requires "NMOS[" <= name && Find(name, "]/", 5) == Some(nsEnd)
    ensures 5 <= nsEnd && nsEnd + 2 <= |name|
    ensures ParseManagedName(name) == ParseRest(name[5..nsEnd], name[nsEnd + 2..])
  {
    hide ParseRest;
    assert name[4] == '[';
  }

  lemma CurrentParses(ns: string, rest: string)
    ensures var marker := Before(ns, ")/");
            var parsed := ParseManagedName("NMOS(" + ns + ")/" + rest);
            if marker != ns then parsed.Some? ==> parsed.value.ns == marker else parsed == ParseRest(ns, rest)
  {
    hide ParseRest, ParseManagedName, Before, Find;
    var name := "NMOS(" + ns + ")/" + rest;
    Pieces("NMOS(", ns, ")/", rest);
    var nsEnd := 5 + |Before(ns, ")/")|;
    MarkerSplits(name, 5, ns, ")/");
    CurrentSplits(name, nsEnd);
    RestKeepsNamespace(name[5..nsEnd], name[nsEnd + 2..]);
  }

  lemma LegacyParses(ns: string, rest: string)
    ensures var marker := Before(ns, "]/");
            var parsed := ParseManagedName("NMOS[" + ns + "]/" + rest);
            if marker != ns then parsed.Some? ==> parsed.value.ns == marker else parsed == ParseRest(ns, rest)
  {
    hide ParseRest, ParseManagedName, Before, Find;
    var name := "NMOS[" + ns + "]/" + rest;
    Pieces("NMOS[", ns, "]/", rest);
    var nsEnd := 5 + |Before(ns, "]/")|;
    MarkerSplits(name, 5, ns, "]/");
    LegacySplits(name, nsEnd);
    RestKeepsNamespace(name[5..nsEnd], name[nsEnd + 2..]);
  }

  // ----- the round trip -----

  /** The marker printed for (ns, side, nmosId) is read back as exactly that, for every label, if and only if
      the namespace is nonempty without ")/" and the id is nonempty without a space. */
  lemma RoundTrip(ns: string, side: Side, nmosId: string, title: string)
    ensures ParseManagedName(ManagedName(ns, side, nmosId, title)) == Some(Ownership(ns, side, nmosId))
            <==> PlainNamespace(ns) && PlainId(nmosId)
  {
    CurrentParses(ns, SideToString(side) + "/" + nmosId + Tail(title));
    RestParses(ns, side, nmosId, Tail(title));
  }

  /** What the reconciler needs is less than the round trip: the namespace must come back. It does, and the side
      with it, if and only if the namespace is plain and the id is nonempty and does not start with a space. */
  lemma NamespaceComesBack(ns: string, side: Side, nmosId: string, title: string)
    ensures var parsed := ParseManagedName(ManagedName(ns, side, nmosId, title));
            && (parsed.Some? && parsed.value.ns == ns <==> PlainNamespace(ns) && nmosId != "" && nmosId[0] != ' ')
            && (parsed.Some? && parsed.value.ns == ns ==> parsed.value.side == side)
  {
    MarkerComesBack(ns, side, nmosId, Tail(title));
  }

  lemma MarkerComesBack(ns: string, side: Side, nmosId: string, tail: string)
    requires SetOff(tail)
    ensures var parsed := ParseManagedName("NMOS(" + ns + ")/" + (SideToString(side) + "/" + nmosId + tail));
            && (parsed.Some? && parsed.value.ns == ns <==> PlainNamespace(ns) && nmosId != "" && nmosId[0] != ' ')
            && (parsed.Some? && parsed.value.ns == ns ==> parsed.value.side == side)
  {
    CurrentParses(ns, SideToString(side) + "/" + nmosId + tail);
    RestParses(ns, side, nmosId, tail);
    AtOne(nmosId, ' ', 0);
  }

  /** A namespace read off a marker opens the one it was printed with. */
  lemma ParsedOpensWritten(ns: string, rest: string)
    ensures var parsed := ParseManagedName("NMOS(" + ns + ")/" + rest);
            parsed.Some? ==> parsed.value.ns <= ns
  {
    hide ParseManagedName, ParseRest, Find;
    CurrentParses(ns, rest);
    RestKeepsNamespace(ns, rest);
  }

  /** Different bridges, sides or streams never print the same marker. */
  lemma MarkerInjective(ns: string, side: Side, nmosId: string, title: string,
                        ns': string, side': Side, nmosId': string, title': string)
    requires PlainNamespace(ns) && PlainId(nmosId) && PlainNamespace(ns') && PlainId(nmosId')
    requires ManagedName(ns, side, nmosId, title) == ManagedName(ns', side', nmosId', title')
    ensures ns == ns' && side == side' && nmosId == nmosId'
  {
    RoundTrip(ns, side, nmosId, title);
    RoundTrip(ns', side', nmosId', title');
  }

  /** The namespace that holds the beginning of a marker of ns inside it. */
  function Inside(ns: string, inner: Side, q: string): string {
    ns + (")/" + (SideToString(inner) + "/" + q))
  }

  /** Without that condition markers collide: a namespace that holds ")/sender/" or ")/receiver/" prints, for its
      streams, markers of the shorter namespace in front. Validation of the settings lets such a namespace
      through. */
  lemma MarkersCollide(ns: string, inner: Side, q: string, side: Side, nmosId: string, title: string)
    ensures ManagedName(Inside(ns, inner, q), side, nmosId, title)
            == ManagedName(ns, inner, q + (")/" + (SideToString(side) + "/" + nmosId)), title)
  {
    hide SideToString, Tail;
    var rest, tail := SideToString(side) + "/" + nmosId, Tail(title);
    Regroup("NMOS(", ns, ")/", SideToString(inner) + "/", q, rest, tail);
    assert SideToString(inner) + "/" + q == (SideToString(inner) + "/") + q;
  }

  lemma Regroup(a: string, b: string, c: string, d: string, e: string, f: string, g: string)
    ensures a + (b + (c + (d + e))) + c + (f + g) == a + b + c + (d + (e + (c + f)) + g)
  {
    assert a + (b + (c + (d + e))) == a + b + c + d + e;
    assert d + (e + (c + f)) + g == d + e + c + f + g;
    assert a + b + c + d + e + c + (f + g) == a + b + c + d + e + c + f + g;
    assert a + b + c + (d + e + c + f + g) == a + b + c + d + e + c + f + g;
  }

  lemma LegacyRoundTrip(ns: string, side: Side, nmosId: string, title: string)
    ensures ParseManagedName(LegacyName(ns, side, nmosId, title)) == Some(Ownership(ns, side, nmosId))
            <==> ns != "" && !Contains(ns, "]/") && PlainId(nmosId)
  {
    LegacyParses(ns, SideToString(side) + "/" + nmosId + Tail(title));
    RestParses(ns, side, nmosId, Tail(title));
  }

  // ----- bracket-stripped markers -----

  lemma {:induction false} StripConcat(s: string, t: string)
    ensures StripBrackets(s + t) == StripBrackets(s) + StripBrackets(t)
  {
    if s == "" {
      assert s + t == t;
    } else {
      assert (s + t)[1..] == s[1..] + t;
      StripConcat(s[1..], t);
    }
  }

  lemma {:induction false} StripLeaves(s: string)
    ensures BracketFree(StripBrackets(s))
    ensures BracketFree(s) ==> StripBrackets(s) == s
  {
    if s != "" {
      StripLeaves(s[1..]);
    }
  }

  lemma {:induction false} StripShortens(s: string)
    ensures |StripBrackets(s)| <= |s|
    ensures |StripBrackets(s)| == |s| ==> StripBrackets(s) == s
  {
    if s != "" {
      StripShortens(s[1..]);
    }
  }

  lemma StripConcat4(a: string, b: string, c: string, d: string)
    ensures StripBrackets(a + b + c + d)
            == StripBrackets(a) + StripBrackets(b) + StripBrackets(c) + StripBrackets(d)
  {
    StripConcat(a + b + c, d);
    StripConcat(a + b, c);
    StripConcat(a, b);
  }

  lemma StripPrefix()
    ensures StripBrackets("NMOS[") == "NMOS"
  {
    assert "NMOS[" == "NMOS" + "[";
    StripConcat("NMOS", "[");
    StripLeaves("NMOS");
  }

  lemma StripDelimiter()
    ensures StripBrackets("]/") == "/" == StripBrackets("/")
  {
    assert "]/"[1..] == "/";
  }

  lemma StripSideWord(side: Side)
    ensures StripBrackets(SideToString(side)) == SideToString(side)
  {
    StripLeaves(SideToString(side));
  }

  /** The stripped marker, piece by piece. */
  lemma StrippedPieces(ns: string, side: Side, nmosId: string, title: string)
    ensures StripBrackets(LegacyName(ns, side, nmosId, title)) ==
            "NMOS" + StripBrackets(ns) + "/"
            + (SideToString(side) + "/" + StripBrackets(nmosId) + StripBrackets(Tail(title)))
  {
    StripConcat4("NMOS[", ns, "]/", SideToString(side) + "/" + nmosId + Tail(title));
    StripConcat4(SideToString(side), "/", nmosId, Tail(title));
    StripPrefix();
    StripDelimiter();
    StripSideWord(side);
  }

  lemma {:induction false} ChainOfEquals(s: string)
    requires s != "" && forall j :: 0 <= j < |s| - 1 ==> s[j] == s[j + 1]
    ensures s[0] == s[|s| - 1]
  {
    if |s| > 1 {
      ChainOfEquals(s[1..]);
    }
  }

  /** A stripped marker whose namespace opens with a parenthesis is taken for a current-form one, and then the
      namespace never comes back: it would have to equal itself shifted by one place, up to the slash. */
  lemma ParenthesisShifts(ns: string, rest: string)
    requires ns != "" && ns[0] == '('
    ensures var parsed := ParseManagedName("NMOS" + ns + "/" + rest);
            parsed.Some? ==> parsed.value.ns != ns
  {
    var name := "NMOS" + ns + "/" + rest;
    Pieces("NMOS", ns, "/", rest);
    assert name[4] == '(' && name[4 + |ns|] == '/';
    var parsed := ParseManagedName(name);
    if parsed.Some? && parsed.value.ns == ns {
      assert name[5..5 + |ns|] == ns by {
        assert "NMOS(" <= name;
        var nsEnd := Find(name, ")/", 5).value;
        assert parsed.value.ns == name[5..nsEnd];
      }
      forall j | 0 <= j < |ns| - 1
        ensures ns[j] == ns[j + 1]
      {
        assert ns[j] == name[5..5 + |ns|][j] == name[4 + (j + 1)];
      }
      assert ns[|ns| - 1] == name[5..5 + |ns|][|ns| - 1] == '/';
      ChainOfEquals(ns);
    }
  }

  lemma StrippedSplits(name: string, nsEnd: nat)
    requires "NMOS" <= name && 4 < |name| && name[4] != '(' && name[4] != '[' && Find(name, "/", 4) == Some(nsEnd)
    ensures 4 <= nsEnd && nsEnd + 1 <= |name|
    ensures ParseManagedName(name) == ParseRest(name[4..nsEnd], name[nsEnd + 1..])
  {
    hide ParseRest;
  }

  lemma StrippedParses(ns: string, side: Side, nmosId: string, tail: string)
    requires BracketFree(ns) && (ns == "" || ns[0] != '(')
    ensures var rest := SideToString(side) + "/" + nmosId + tail;
            var marker := Before(ns, "/");
            var parsed := ParseManagedName("NMOS" + ns + "/" + rest);
            if marker != ns then parsed.Some? ==> parsed.value.ns == marker
            else parsed == ParseRest(ns, rest)
  {
    hide ParseRest, ParseManagedName, Before, Find, SideToString;
    var rest := SideToString(side) + "/" + nmosId + tail;
    var name := "NMOS" + ns + "/" + rest;
    Pieces("NMOS", ns, "/", rest);
    assert name[4] != '(' && name[4] != '[' by {
      if ns == "" {
        assert name[4] == '/';
      } else {
        assert name[4] == ns[0];
      }
    }
    var nsEnd := 4 + |Before(ns, "/")|;
    MarkerSplits(name, 4, ns, "/");
    StrippedSplits(name, nsEnd);
    RestKeepsNamespace(name[4..nsEnd], name[nsEnd + 1..]);
  }

  /** The stripped form gives the ownership back if and only if the namespace has no slash or bracket and does
      not open with a parenthesis, and the id has no space or bracket. */
  lemma StrippedRoundTrip(ns: string, side: Side, nmosId: string, title: string)
    ensures ParseManagedName(StripBrackets(LegacyName(ns, side, nmosId, title))) == Some(Ownership(ns, side, nmosId))
            <==> && ns != "" && BracketFree(ns) && !Contains(ns, "/") && ns[0] != '('
                 && PlainId(nmosId) && BracketFree(nmosId)
  {
    var n, i, tail := StripBrackets(ns), StripBrackets(nmosId), StripBrackets(Tail(title));
    StrippedPieces(ns, side, nmosId, title);
    StripLeaves(ns);
    StripLeaves(nmosId);
    if n != "" && n[0] == '(' {
      ParenthesisShifts(n, SideToString(side) + "/" + i + tail);
      ParsedFromName(StripBrackets(LegacyName(ns, side, nmosId, title)));
      StripLeaves(LegacyName(ns, side, nmosId, title));
    } else {
      StrippedParses(n, side, i, tail);
      RestParses(n, side, i, tail);
    }
  }

  /** A parsed namespace is a piece of the name. */
  lemma ParsedFromName(name: string)
    ensures var parsed := ParseManagedName(name);
            parsed.Some? && BracketFree(name) ==> BracketFree(parsed.value.ns)
  {
  }

  /** The three encodings of one stream's marker all name the same owner. */
  lemma EncodingsAgree(ns: string, side: Side, nmosId: string, title: string)
    requires ns != "" && BracketFree(ns) && !Contains(ns, "/") && ns[0] != '('
    requires PlainId(nmosId) && BracketFree(nmosId)
    ensures ParseManagedName(ManagedName(ns, side, nmosId, title))
            == ParseManagedName(LegacyName(ns, side, nmosId, title))
            == ParseManagedName(StripBrackets(LegacyName(ns, side, nmosId, title)))
            == Some(Ownership(ns, side, nmosId))
  {
    forall j: nat
      ensures !At(ns, ")/", j) && !At(ns, "]/", j)
    {
      AtOne(ns, '/', j + 1);
      assert ")/"[1] == "]/"[1] == '/';
    }
    RoundTrip(ns, side, nmosId, title);
    LegacyRoundTrip(ns, side, nmosId, title);
    StrippedRoundTrip(ns, side, nmosId, title);
  }
}
