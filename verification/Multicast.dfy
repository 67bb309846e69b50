/** The pattern that constrains a sender's destination, against the address parser. */
module Multicast {
  import opened Wrappers
  import opened Decimals
  import opened Ipv4

  /** The first group of the pattern: 22[4-9] or 23[0-9]. */
  predicate FirstGroup(s: string) {
    && |s| == 3 && s[0] == '2'
    && ((s[1] == '2' && '4' <= s[2] <= '9') || (s[1] == '3' && IsDigit(s[2])))
  }

  /** The other groups: 25[0-5], 2[0-4][0-9], or an optional 1 before one or two digits. */
  predicate OctetGroup(s: string) {
    || (|s| == 3 && s[0] == '2' && s[1] == '5' && '0' <= s[2] <= '5')
    || (|s| == 3 && s[0] == '2' && '0' <= s[1] <= '4' && IsDigit(s[2]))
    || (1 <= |s| <= 2 && IsNumeral(s))
    || (2 <= |s| <= 3 && s[0] == '1' && IsNumeral(s[1..]))
  }

  /** The strings the whole pattern matches: four groups with dots between them. */
  ghost predicate Accepts(s: string) {
    exists a, b, c, d :: FirstGroup(a) && OctetGroup(b) && OctetGroup(c) && OctetGroup(d) && s == Join([a, b, c, d])
  }

  /** Section 4 of RFC 1112: host group addresses have 1110 as their high-order four bits. */
  predicate IsMulticast(a: bv32) {
    a & 0xf000_0000 == 0xe000_0000
  }

  lemma ValueOfThree(s: string)
    requires |s| == 3 && IsNumeral(s)
    ensures Value(s) == 100 * Digit(s[0]) + 10 * Digit(s[1]) + Digit(s[2])
  {
    assert s[..2][..1] == s[..1] && s[..1][..0] == "";
    assert Value(s[..1]) == Digit(s[0]);
    assert Value(s[..2]) == 10 * Digit(s[0]) + Digit(s[1]);
  }

  lemma ValueOfTwo(s: string)
    requires |s| == 2 && IsNumeral(s)
    ensures Value(s) == 10 * Digit(s[0]) + Digit(s[1])
  {
    assert s[..1][..0] == "";
    assert Value(s[..1]) == Digit(s[0]);
  }

  lemma ValueOfOne(s: string)
    requires |s| == 1 && IsNumeral(s)
    ensures Value(s) == Digit(s[0])
  {
    assert s[..0] == "";
  }

  lemma FirstGroupValue(s: string)
    requires FirstGroup(s)
    ensures IsNumeral(s) && 224 <= Value(s) <= 239
  {
    ValueOfThree(s);
  }

  lemma OctetGroupValue(s: string)
    requires OctetGroup(s)
    ensures IsNumeral(s) && Value(s) <= 255
  {
    assert forall i :: 1 <= i < |s| ==> s[i] == s[1..][i - 1];
    if |s| == 3 {
      ValueOfThree(s);
    } else if |s| == 2 {
      ValueOfTwo(s);
    } else {
      ValueOfOne(s);
    }
  }

  lemma HighBits(a: bv8, b: bv8, c: bv8, d: bv8)
    ensures IsMulticast(FromBytes(a, b, c, d)) <==> 224 <= a <= 239
  {
  }

  /** A word that fits a byte. */
  predicate FitsByte(w: bv32) {
    w <= 255
  }

  predicate OpensMulticast(w: bv32) {
    FitsByte(w) && w & 0xf0 == 0xe0
  }

  lemma WidenFits(x: nat)
    ensures FitsByte(Widen(x))
  {
  }

  lemma WidenOpensLow(x: nat)
    requires 224 <= x <= 231
    ensures OpensMulticast(Widen(x))
  {
    assert x == 224 || x == 225 || x == 226 || x == 227 || x == 228 || x == 229 || x == 230 || x == 231;
  }

  lemma WidenOpensHigh(x: nat)
    requires 232 <= x <= 239
    ensures OpensMulticast(Widen(x))
  {
    assert x == 232 || x == 233 || x == 234 || x == 235 || x == 236 || x == 237 || x == 238 || x == 239;
  }

  lemma WidenOpens(x: nat)
    requires 224 <= x <= 239
    ensures OpensMulticast(Widen(x))
  {
    hide *;
    if x <= 231 {
      WidenOpensLow(x);
    } else {
      WidenOpensHigh(x);
    }
  }

  lemma ShiftedHighBits(a: bv32, b: bv32, c: bv32, d: bv32)
    requires OpensMulticast(a) && FitsByte(b) && FitsByte(c) && FitsByte(d)
    ensures IsMulticast(Shift(Shift(Shift(Shift(0, a), b), c), d))
  {
  }

  lemma ByteOrder(o: bv8)
    ensures 224 <= o as int <= 239 <==> 224 <= o <= 239
  {
  }

  lemma GroupsScan(a: string, b: string, c: string, d: string) returns (octets: seq<nat>)
    requires FirstGroup(a) && OctetGroup(b) && OctetGroup(c) && OctetGroup(d)
    ensures ScanNumbers(Join([a, b, c, d]), 4) == Some(octets) && Octets(octets) && 224 <= octets[0] <= 239
  {
    hide FirstGroup;
    hide OctetGroup;
    hide ScanNumbers;
    hide Join;
    FirstGroupValue(a);
    OctetGroupValue(b);
    OctetGroupValue(c);
    OctetGroupValue(d);
    FourScan(a, b, c, d);
    octets := [Value(a), Value(b), Value(c), Value(d)];
  }

  /** Every string the pattern accepts is parsed, to a multicast address. */
  lemma AcceptedIsMulticast(s: string)
    requires Accepts(s)
    ensures Address(s).Some? && IsMulticast(Address(s).value)
  {
    hide Address;
    hide IsMulticast;
    hide Join;
    var a, b, c, d :|
      FirstGroup(a) && OctetGroup(b) && OctetGroup(c) && OctetGroup(d) && s == Join([a, b, c, d]);
    var octets := GroupsScan(a, b, c, d);
    MulticastOctets(s, octets);
  }

  lemma MulticastOctets(s: string, octets: seq<nat>)
    requires ScanNumbers(s, 4) == Some(octets) && Octets(octets) && 224 <= octets[0] <= 239
    ensures Address(s).Some? && IsMulticast(Address(s).value)
  {
    hide Widen;
    hide Shift;
    hide IsMulticast;
    hide OpensMulticast;
    hide FitsByte;
    ShiftedFour(octets);
    WidenOpens(octets[0]);
    WidenFits(octets[1]);
    WidenFits(octets[2]);
    WidenFits(octets[3]);
    ShiftedHighBits(Widen(octets[0]), Widen(octets[1]), Widen(octets[2]), Widen(octets[3]));
  }

  lemma PrintedOctet(n: nat)
    requires n <= 255
    ensures OctetGroup(Print(n))
    ensures 224 <= n <= 239 ==> FirstGroup(Print(n))
  {
    if n >= 100 {
      assert Print(n) == Print(n / 10) + [('0' as int + n % 10) as char];
      assert Print(n / 10) == Print(n / 100) + [('0' as int + n / 10 % 10) as char];
      assert Print(n / 100) == [('0' as int + n / 100) as char];
    }
  }

  /** The canonical form of every multicast address is accepted. */
  lemma MulticastIsAccepted(a: bv32)
    requires IsMulticast(a)
    ensures Accepts(Dotted(a))
  {
    hide Octet;
    hide IsMulticast;
    hide FromBytes;
    OctetsRebuild(a);
    HighBits(Octet(a, 0), Octet(a, 1), Octet(a, 2), Octet(a, 3));
    ByteOrder(Octet(a, 0));
    var parts := DottedParts(a);
    PrintedOctet(Octet(a, 0) as int);
    PrintedOctet(Octet(a, 1) as int);
    PrintedOctet(Octet(a, 2) as int);
    PrintedOctet(Octet(a, 3) as int);
    assert Dotted(a) == Join([parts[0], parts[1], parts[2], parts[3]]);
  }

  // ----- exactly which texts the pattern accepts -----

  lemma FirstGroupIff(s: string)
    ensures FirstGroup(s) <==> |s| == 3 && IsNumeral(s) && 224 <= Value(s) <= 239
  {
    if |s| == 3 && IsNumeral(s) {
      ValueOfThree(s);
    }
  }

  /** Leading zeros are let through as far as two digits. */
  lemma OctetGroupIff(s: string)
    ensures OctetGroup(s) <==> IsNumeral(s) && |s| <= 3 && Value(s) <= 255 && (|s| == 3 ==> s[0] != '0')
  {
    assert forall i :: 1 <= i < |s| ==> s[i] == s[1..][i - 1];
    if IsNumeral(s) {
      if |s| == 3 {
        ValueOfThree(s);
      } else if |s| == 2 {
        ValueOfTwo(s);
      } else if |s| == 1 {
        ValueOfOne(s);
      }
    }
  }

  /** The pattern accepts exactly four numerals with dots between them, the first of three digits and from 224 to 239,
      the others of at most three digits, at most 255, and not of three digits with a leading zero. */
  lemma AcceptsIff(s: string)
    ensures Accepts(s) <==>
            exists a, b, c, d ::
              && s == a + "." + b + "." + c + "." + d
              && |a| == 3 && IsNumeral(a) && 224 <= Value(a) <= 239
              && ShortOctet(b) && ShortOctet(c) && ShortOctet(d)
  {
    hide FirstGroup, OctetGroup, Join, Value, ShortOctet;
    if Accepts(s) {
      var a, b, c, d :|
        FirstGroup(a) && OctetGroup(b) && OctetGroup(c) && OctetGroup(d) && s == Join([a, b, c, d]);
      JoinFour(a, b, c, d);
      FirstGroupIff(a);
      ShortOctetIff(b);
      ShortOctetIff(c);
      ShortOctetIff(d);
    }
    if a, b, c, d :|
      && s == a + "." + b + "." + c + "." + d
      && |a| == 3 && IsNumeral(a) && 224 <= Value(a) <= 239
      && ShortOctet(b) && ShortOctet(c) && ShortOctet(d) {
      JoinFour(a, b, c, d);
      FirstGroupIff(a);
      ShortOctetIff(b);
      ShortOctetIff(c);
      ShortOctetIff(d);
    }
  }

  predicate ShortOctet(s: string) {
    IsNumeral(s) && |s| <= 3 && Value(s) <= 255 && (|s| == 3 ==> s[0] != '0')
  }

  lemma ShortOctetIff(s: string)
    ensures OctetGroup(s) <==> ShortOctet(s)
  {
    OctetGroupIff(s);
  }
}
