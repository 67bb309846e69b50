/** IPv4 addresses, CIDR blocks and the multicast destination pattern, on 32-bit words. */
module Ipv4 {
  import opened Wrappers
  import opened Decimals

  // ----- addresses -----

  ghost predicate Octets(values: seq<nat>) {
    |values| == 4 && forall i :: 0 <= i < 4 ==> values[i] <= 255
  }

  function Widen(x: nat): bv32 {
    if x <= 255 then x as bv32 else 0
  }

  function Shift(result: bv32, octet: bv32): bv32 {
    (result << 8) | octet
  }

  /** Octets shifted in from the right, the first n of them. */
  ghost function Shifted(octets: seq<nat>, n: nat): bv32
    requires n <= |octets|
  {
    if n == 0 then 0 else Shift(Shifted(octets, n - 1), Widen(octets[n - 1]))
  }

  /** The address a dotted quad denotes. */
  ghost function Address(s: string): Option<bv32> {
    var octets := ScanNumbers(s, 4);
    if octets.Some? && Octets(octets.value) then Some(Shifted(octets.value, 4)) else None
  }

  method ParseIpv4Address(address: string) returns (r: Option<bv32>)
    ensures r == Address(address)
    ensures forall a :: r == Some(a) <==> Quad(address, a)
  {
    forall a
      ensures Address(address) == Some(a) <==> Quad(address, a)
    {
      AddressIffQuad(address, a);
    }
    hide Quad;
    hide Widen;
    var octets := ScanNumbers(address, 4);
    if octets.None? {
      return None;
    }
    var result: bv32 := 0;
    for i := 0 to 4
      invariant forall j :: 0 <= j < i ==> octets.value[j] <= 255
      invariant result == Shifted(octets.value, i)
    {
      var octet := octets.value[i];
      if octet > 255 {
        return None;
      }
      result := Shift(result, Widen(octet));
    }
    return Some(result);
  }

  function FromBytes(a: bv8, b: bv8, c: bv8, d: bv8): bv32 {
    (a as bv32 << 24) | (b as bv32 << 16) | (c as bv32 << 8) | d as bv32
  }

  lemma ShiftedFour(octets: seq<nat>)
    requires |octets| == 4
    ensures Shifted(octets, 4)
            == Shift(Shift(Shift(Shift(0, Widen(octets[0])), Widen(octets[1])), Widen(octets[2])), Widen(octets[3]))
  {
    hide Widen;
    hide Shift;
    assert Shifted(octets, 1) == Shift(Shifted(octets, 0), Widen(octets[0]));
    assert Shifted(octets, 2) == Shift(Shifted(octets, 1), Widen(octets[1]));
    assert Shifted(octets, 3) == Shift(Shifted(octets, 2), Widen(octets[2]));
  }

  /** Shifting four bytes in lays them side by side, the first one highest. */
  lemma ShiftsSideBySide(a: bv8, b: bv8, c: bv8, d: bv8)
    ensures Shift(Shift(Shift(Shift(0, a as bv32), b as bv32), c as bv32), d as bv32) == FromBytes(a, b, c, d)
  {
  }

  // ----- canonical form -----

  function Octet(a: bv32, k: nat): bv8
    requires k < 4
  {
    match k
    case 0 => ((a >> 24) & 0xff) as bv8
    case 1 => ((a >> 16) & 0xff) as bv8
    case 2 => ((a >> 8) & 0xff) as bv8
    case 3 => (a & 0xff) as bv8
  }

  function DottedParts(a: bv32): seq<string> {
    [Print(Octet(a, 0) as int), Print(Octet(a, 1) as int), Print(Octet(a, 2) as int), Print(Octet(a, 3) as int)]
  }

  function Dotted(a: bv32): string {
    Join(DottedParts(a))
  }

  lemma NumberWidens(x: int)
    requires 0 <= x <= 255
    ensures Widen(x) == (x as bv8) as bv32
  {
  }

  lemma ByteReturns(o: bv8, x: int)
    requires x == o as int
    ensures 0 <= x <= 255 && x as bv8 == o
  {
  }

  lemma OctetWidens(o: bv8, x: int)
    requires x == o as int
    ensures 0 <= x <= 255 && Widen(x) == o as bv32
  {
    ByteReturns(o, x);
    NumberWidens(x);
  }

  lemma OctetsRebuild(a: bv32)
    ensures FromBytes(Octet(a, 0), Octet(a, 1), Octet(a, 2), Octet(a, 3)) == a
  {
  }

  lemma FourScan(a: string, b: string, c: string, d: string)
    requires IsNumeral(a) && IsNumeral(b) && IsNumeral(c) && IsNumeral(d)
    ensures ScanNumbers(Join([a, b, c, d]), 4) == Some([Value(a), Value(b), Value(c), Value(d)])
  {
    JoinScans([a, b, c, d]);
    assert Values([a, b, c, d]) == [Value(a), Value(b), Value(c), Value(d)];
  }

  lemma BytesReturn(s: string, a: bv8, b: bv8, c: bv8, d: bv8)
    requires ScanNumbers(s, 4) == Some([a as int, b as int, c as int, d as int])
    ensures Address(s) == Some(FromBytes(a, b, c, d))
  {
    hide Widen;
    hide Shift;
    OctetWidens(a, a as int);
    OctetWidens(b, b as int);
    OctetWidens(c, c as int);
    OctetWidens(d, d as int);
    ShiftedFour([a as int, b as int, c as int, d as int]);
    ShiftsSideBySide(a, b, c, d);
  }

  lemma PartReads(a: bv32, k: nat)
    requires k < 4
    ensures IsNumeral(DottedParts(a)[k]) && Value(DottedParts(a)[k]) == Octet(a, k) as int
  {
    PrintReads(Octet(a, k) as int);
  }

  lemma DottedScans(a: bv32)
    ensures ScanNumbers(Dotted(a), 4)
            == Some([Octet(a, 0) as int, Octet(a, 1) as int, Octet(a, 2) as int, Octet(a, 3) as int])
  {
    var parts := DottedParts(a);
    PartReads(a, 0);
    PartReads(a, 1);
    PartReads(a, 2);
    PartReads(a, 3);
    assert parts == [parts[0], parts[1], parts[2], parts[3]];
    FourScan(parts[0], parts[1], parts[2], parts[3]);
  }

  /** Printing any 32-bit address in canonical form and parsing it gives it back. */
  lemma DottedRoundTrip(a: bv32)
    ensures Address(Dotted(a)) == Some(a)
  {
    DottedScans(a);
    BytesReturn(Dotted(a), Octet(a, 0), Octet(a, 1), Octet(a, 2), Octet(a, 3));
    OctetsRebuild(a);
  }

  // ----- exactly which texts are addresses -----

  /** The text is a numeral for the byte. */
  ghost predicate Part(text: string, byte: bv8) {
    IsNumeral(text) && Value(text) == byte as int
  }

  /** Four numerals for bytes with dots between them, and the word in which the bytes lie side by side. */
  ghost predicate Quad(s: string, a: bv32) {
    exists p, q, r, t, w, x, y, z ::
      && Part(p, w) && Part(q, x) && Part(r, y) && Part(t, z)
      && s == p + "." + q + "." + r + "." + t && a == FromBytes(w, x, y, z)
  }

  lemma ByteIsSmall(byte: bv8)
    ensures byte as int <= 255
  {
  }

  lemma NextByte(byte: bv8, n: nat)
    requires n == byte as int && n < 255
    ensures (byte + 1) as int == n + 1
  {
  }

  /** Counting up, for there is a byte for every number up to 255. */
  lemma {:induction false} SmallIsByte(n: nat) returns (byte: bv8)
    requires n <= 255
    ensures byte as int == n
  {
    if n == 0 {
      byte := 0;
    } else {
      var before := SmallIsByte(n - 1);
      NextByte(before, n - 1);
      byte := before + 1;
    }
  }

  /** Numerals for bytes are those of value at most 255. */
  lemma PartIff(text: string)
    ensures (exists byte :: Part(text, byte)) <==> IsNumeral(text) && Value(text) <= 255
  {
    if byte :| Part(text, byte) {
      ByteIsSmall(byte);
    }
    if IsNumeral(text) && Value(text) <= 255 {
      var byte := SmallIsByte(Value(text));
      assert Part(text, byte);
    }
  }

  lemma JoinFour(p: string, q: string, r: string, t: string)
    ensures Join([p, q, r, t]) == p + "." + q + "." + r + "." + t
  {
    assert Join([t]) == t;
    assert [r, t][1..] == [t] && [q, r, t][1..] == [r, t] && [p, q, r, t][1..] == [q, r, t];
    assert Join([r, t]) == r + ("." + t);
    assert Join([q, r, t]) == q + ("." + (r + ("." + t)));
  }

  lemma QuadIsRead(s: string, a: bv32)
    requires Quad(s, a)
    ensures Address(s) == Some(a)
  {
    hide FromBytes, ScanNumbers, Value, Join, Address;
    var p, q, r, t, w, x, y, z :|
      && Part(p, w) && Part(q, x) && Part(r, y) && Part(t, z)
      && s == p + "." + q + "." + r + "." + t && a == FromBytes(w, x, y, z);
    JoinFour(p, q, r, t);
    FourScan(p, q, r, t);
    BytesReturn(s, w, x, y, z);
  }

  lemma ScannedParts(s: string) returns (parts: seq<string>)
    requires ScanNumbers(s, 4).Some?
    ensures |parts| == 4 && Numerals(parts) && Join(parts) == s
    ensures forall k :: 0 <= k < 4 ==> ScanNumbers(s, 4).value[k] == Value(parts[k])
  {
    hide ScanNumbers, Join, Value;
    parts := ScansOnlyJoins(s, 4);
    JoinScans(parts);
  }

  lemma ReadIsQuad(s: string, a: bv32)
    requires Address(s) == Some(a)
    ensures Quad(s, a)
  {
    hide FromBytes, ScanNumbers, Value, Join, Shifted;
    var parts := ScannedParts(s);
    var w := SmallIsByte(Value(parts[0]));
    var x := SmallIsByte(Value(parts[1]));
    var y := SmallIsByte(Value(parts[2]));
    var z := SmallIsByte(Value(parts[3]));
    assert Part(parts[0], w) && Part(parts[1], x) && Part(parts[2], y) && Part(parts[3], z);
    assert parts == [parts[0], parts[1], parts[2], parts[3]];
    JoinFour(parts[0], parts[1], parts[2], parts[3]);
    assert ScanNumbers(s, 4).value == [w as int, x as int, y as int, z as int];
    BytesReturn(s, w, x, y, z);
  }

  /** For every text: it is read as an address exactly if it is four numerals of value at most 255 with dots between
      them, and then as the word in which they lie side by side. */
  lemma AddressIffQuad(s: string, a: bv32)
    ensures Address(s) == Some(a) <==> Quad(s, a)
  {
    hide Address, Quad;
    if Address(s) == Some(a) {
      ReadIsQuad(s, a);
    }
    if Quad(s, a) {
      QuadIsRead(s, a);
    }
  }

  /** Numerals with dots between them of which one is above 255 are refused. */
  lemma LargeOctetIsRefused(parts: seq<string>, k: nat)
    requires |parts| == 4 && Numerals(parts) && k < 4 && Value(parts[k]) > 255
    ensures Address(Join(parts)) == None
  {
    hide ScanNumbers, Join, Value, Shifted;
    JoinScans(parts);
  }
}
