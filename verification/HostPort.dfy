/** The host:port form of a static registration address. */
module HostPort {
  import opened Wrappers
  import opened Decimals

  datatype Endpoint = Endpoint(host: string, port: nat)

  /** The last colon of s. */
  function LastColon(s: string): (r: Option<nat>)
    ensures r.Some? ==> r.value < |s| && s[r.value] == ':' && forall i :: r.value < i < |s| ==> s[i] != ':'
    ensures r.None? ==> forall i :: 0 <= i < |s| ==> s[i] != ':'
  {
    if s == "" then None
    else if s[|s| - 1] == ':' then Some(|s| - 1)
    else LastColon(s[..|s| - 1])
  }

  predicate IsPort(s: string) {
    IsNumeral(s) && 0 < Value(s) <= 65535
  }

  function ParseHostPort(value: string): Option<Endpoint> {
    match LastColon(value)
    case None => Some(Endpoint(value, 0))
    case Some(colon) =>
      var host, portText := value[..colon], value[colon + 1..];
      if host == "" || portText == "" || !IsPort(portText) then None
      else Some(Endpoint(host, Value(portText)))
  }

  lemma {:induction false} LastColonAt(s: string, k: nat)
    requires k < |s| && s[k] == ':' && forall i :: k < i < |s| ==> s[i] != ':'
    ensures LastColon(s) == Some(k)
  {
    if k < |s| - 1 {
      LastColonAt(s[..|s| - 1], k);
    }
  }

  lemma Pieces(host: string, tail: string)
    ensures var s := host + ":" + tail;
            |s| == |host| + 1 + |tail| && s[..|host|] == host && s[|host|] == ':' && s[|host| + 1..] == tail
  {
  }

  lemma LastColonIs(s: string, k: nat, tail: string)
    requires k < |s| && s[k] == ':' && s[k + 1..] == tail && forall i :: 0 <= i < |tail| ==> tail[i] != ':'
    ensures LastColon(s) == Some(k)
  {
    forall i | k < i < |s|
      ensures s[i] != ':'
    {
      assert s[i] == tail[i - k - 1];
    }
    LastColonAt(s, k);
  }

  /** An endpoint with a port comes from exactly the texts that put a nonempty host, a colon and a port in range
      after one another; the host may itself hold colons. */
  lemma ParsedIffWritten(value: string, host: string, port: nat)
    requires port > 0
    ensures ParseHostPort(value) == Some(Endpoint(host, port)) <==>
            host != "" && exists digits :: IsPort(digits) && Value(digits) == port && value == host + ":" + digits
  {
    if ParseHostPort(value) == Some(Endpoint(host, port)) {
      var digits := value[|host| + 1..];
      assert value == host + ":" + digits;
    }
    if digits :| host != "" && IsPort(digits) && Value(digits) == port && value == host + ":" + digits {
      Pieces(host, digits);
      LastColonIs(value, |host|, digits);
    }
  }

  /** Any nonempty host, colons and all, and any port from 1 to 65535 come back. */
  lemma HostPortRoundTrip(host: string, port: nat)
    requires host != "" && 0 < port <= 65535
    ensures ParseHostPort(host + ":" + Print(port)) == Some(Endpoint(host, port))
  {
    PrintReads(port);
    ParsedIffWritten(host + ":" + Print(port), host, port);
  }

  /** A text without a colon is a host without a port. */
  lemma NoColonIsHost(value: string)
    requires forall i :: 0 <= i < |value| ==> value[i] != ':'
    ensures ParseHostPort(value) == Some(Endpoint(value, 0))
  {
  }

  /** The text's last colon stands between the two. */
  predicate LastColonBetween(value: string, host: string, text: string) {
    value == host + ":" + text && forall i :: 0 <= i < |text| ==> text[i] != ':'
  }

  lemma ReadAroundColon(value: string, host: string, text: string)
    requires LastColonBetween(value, host, text)
    ensures ParseHostPort(value) ==
            if host == "" || !(IsNumeral(text) && 0 < Value(text) <= 65535) then None
            else Some(Endpoint(host, Value(text)))
  {
    hide LastColon;
    Pieces(host, text);
    LastColonIs(value, |host|, text);
  }

  lemma ColonSplits(value: string) returns (host: string, text: string)
    requires LastColon(value).Some?
    ensures LastColonBetween(value, host, text)
  {
    var colon := LastColon(value).value;
    host, text := value[..colon], value[colon + 1..];
    assert value == host + ":" + text;
  }

  /** And nothing else has no port; a text is refused exactly if what stands before its last colon is empty, or what
      stands behind it is not a numeral from 1 to 65535. */
  lemma RefusedIff(value: string)
    ensures ParseHostPort(value).None? <==>
            exists host, text :: LastColonBetween(value, host, text)
                                 && (host == "" || !(IsNumeral(text) && 0 < Value(text) <= 65535))
    ensures ParseHostPort(value).Some? ==>
              (ParseHostPort(value).value.port == 0 <==> forall i :: 0 <= i < |value| ==> value[i] != ':')
  {
    hide LastColonBetween, LastColon;
    if LastColon(value).Some? {
      var host, text := ColonSplits(value);
      ReadAroundColon(value, host, text);
    }
    forall host, text | LastColonBetween(value, host, text)
      ensures ParseHostPort(value) ==
              if host == "" || !(IsNumeral(text) && 0 < Value(text) <= 65535) then None
              else Some(Endpoint(host, Value(text)))
    {
      ReadAroundColon(value, host, text);
    }
  }
}
