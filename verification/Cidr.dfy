/** CIDR blocks: the mask form the code uses and the address ranges it stands for. */
module Cidr {
  import opened Wrappers
  import opened Ownership
  import OwnershipLaws
  import opened Decimals
  import opened Ipv4

  datatype Ipv4Cidr = Ipv4Cidr(network: bv32, prefix: bv32)

  datatype CidrError = MissingPrefix | InvalidPrefix | PrefixOutOfRange | InvalidAddress

  function Mask(prefix: bv32): bv32
    requires prefix <= 32
  {
    if prefix == 0 then 0 else 0xffffffff << (32 - prefix)
  }

  function Masked(a: bv32, prefix: bv32): bv32
    requires prefix <= 32
  {
    a & Mask(prefix)
  }

  /** The last address of the block that starts at network. */
  function Last(network: bv32, prefix: bv32): bv32
    requires prefix <= 32
  {
    network + !Mask(prefix)
  }

  /** The unsigned order on words and on bytes. Named, so that proofs can use it without unfolding to bits. */
  predicate AtMost(a: bv32, b: bv32) {
    a <= b
  }

  predicate ByteAtMost(a: bv8, b: bv8) {
    a <= b
  }

  predicate ValidCidr(cidr: Ipv4Cidr) {
    cidr.prefix <= 32 && Masked(cidr.network, cidr.prefix) == cidr.network
  }

  /** The block as a range of addresses. */
  predicate InBlock(a: bv32, cidr: Ipv4Cidr)
    requires ValidCidr(cidr)
  {
    AtMost(cidr.network, a) && AtMost(a, Last(cidr.network, cidr.prefix))
  }

  /** A block has 2^(32 - prefix) addresses, and does not run over the end of the address space. */
  lemma BlockSize(network: bv32, prefix: bv32)
    requires prefix <= 32 && Masked(network, prefix) == network
    ensures (Last(network, prefix) - network) as bv64 + 1 == (1 as bv64) << (32 - prefix as bv64)
    ensures AtMost(network, Last(network, prefix))
  {
  }

  /** The bits below the ones of a mask are a run from the lowest bit on. */
  predicate HighRun(mask: bv32) {
    !mask & (!mask + 1) == 0
  }

  function Under(a: bv32, mask: bv32): bv32 {
    a & mask
  }

  lemma RunIsMonotone(a: bv32, b: bv32, mask: bv32)
    requires a <= b && !mask & (!mask + 1) == 0
    ensures a & mask <= b & mask
  {
  }

  lemma HighRunIsMonotone(a: bv32, b: bv32, mask: bv32)
    requires AtMost(a, b) && HighRun(mask)
    ensures AtMost(Under(a, mask), Under(b, mask))
  {
    RunIsMonotone(a, b, mask);
  }

  lemma MaskIsHighRun(prefix: bv32)
    requires prefix <= 32
    ensures HighRun(Mask(prefix))
  {
  }

  lemma MaskedIsUnder(a: bv32, prefix: bv32)
    requires prefix <= 32
    ensures Masked(a, prefix) == Under(a, Mask(prefix))
  {
    hide Mask;
  }

  lemma MaskIsMonotone(a: bv32, b: bv32, prefix: bv32)
    requires prefix <= 32 && AtMost(a, b)
    ensures AtMost(Masked(a, prefix), Masked(b, prefix))
  {
    hide *;
    MaskIsHighRun(prefix);
    HighRunIsMonotone(a, b, Mask(prefix));
    MaskedIsUnder(a, prefix);
    MaskedIsUnder(b, prefix);
  }

  lemma LastMasksToNetwork(network: bv32, prefix: bv32)
    requires prefix <= 32 && Masked(network, prefix) == network
    ensures Masked(Last(network, prefix), prefix) == network
  {
  }

  lemma MaskedLiesBelow(a: bv32, prefix: bv32)
    requires prefix <= 32
    ensures AtMost(Masked(a, prefix), a) && AtMost(a, Last(Masked(a, prefix), prefix))
  {
  }

  // ----- two words, each at most the other, are equal: byte by byte from the top -----

  lemma BytesAntisymmetric(a: bv8, b: bv8)
    requires ByteAtMost(a, b) && ByteAtMost(b, a)
    ensures a == b
  {
  }

  lemma TopByteOrder(a: bv32, b: bv32)
    requires AtMost(a, b)
    ensures ByteAtMost(Octet(a, 0), Octet(b, 0))
  {
  }

  lemma SecondByteOrder(a: bv32, b: bv32)
    requires AtMost(a, b) && Octet(a, 0) == Octet(b, 0)
    ensures ByteAtMost(Octet(a, 1), Octet(b, 1))
  {
  }

  lemma ThirdByteOrder(a: bv32, b: bv32)
    requires AtMost(a, b) && Octet(a, 0) == Octet(b, 0) && Octet(a, 1) == Octet(b, 1)
    ensures ByteAtMost(Octet(a, 2), Octet(b, 2))
  {
  }

  lemma LastByteOrder(a: bv32, b: bv32)
    requires AtMost(a, b) && Octet(a, 0) == Octet(b, 0) && Octet(a, 1) == Octet(b, 1) && Octet(a, 2) == Octet(b, 2)
    ensures ByteAtMost(Octet(a, 3), Octet(b, 3))
  {
  }

  lemma Antisymmetric(a: bv32, b: bv32)
    requires AtMost(a, b) && AtMost(b, a)
    ensures a == b
  {
    hide *;
    TopByteOrder(a, b);
    TopByteOrder(b, a);
    BytesAntisymmetric(Octet(a, 0), Octet(b, 0));
    SecondByteOrder(a, b);
    SecondByteOrder(b, a);
    BytesAntisymmetric(Octet(a, 1), Octet(b, 1));
    ThirdByteOrder(a, b);
    ThirdByteOrder(b, a);
    BytesAntisymmetric(Octet(a, 2), Octet(b, 2));
    LastByteOrder(a, b);
    LastByteOrder(b, a);
    BytesAntisymmetric(Octet(a, 3), Octet(b, 3));
    OctetsRebuild(a);
    OctetsRebuild(b);
  }

  /** The mask test holds of exactly the addresses in the block. */
  lemma MaskIffInBlock(a: bv32, network: bv32, prefix: bv32)
    requires prefix <= 32 && Masked(network, prefix) == network
    ensures Masked(a, prefix) == network <==> AtMost(network, a) && AtMost(a, Last(network, prefix))
  {
    hide *;
    MaskedLiesBelow(a, prefix);
    if AtMost(network, a) && AtMost(a, Last(network, prefix)) {
      MaskIsMonotone(network, a, prefix);
      MaskIsMonotone(a, Last(network, prefix), prefix);
      LastMasksToNetwork(network, prefix);
      Antisymmetric(network, Masked(a, prefix));
    }
  }

  lemma LongerMaskRefines(a: bv32, b: bv32, short: bv32, long: bv32)
    requires short <= long <= 32 && Masked(a, long) == Masked(b, long)
    ensures Masked(a, short) == Masked(b, short)
  {
  }

  lemma InnerAddress(outer: Ipv4Cidr, inner: Ipv4Cidr, a: bv32)
    requires ValidCidr(outer) && ValidCidr(inner) && outer.prefix <= inner.prefix && InBlock(a, inner)
    ensures InBlock(a, outer) <==> Masked(inner.network, outer.prefix) == outer.network
  {
    hide Masked;
    hide Last;
    hide AtMost;
    MaskIffInBlock(a, inner.network, inner.prefix);
    MaskIffInBlock(a, outer.network, outer.prefix);
    LongerMaskRefines(a, inner.network, outer.prefix, inner.prefix);
  }

  /** Any two blocks are nested or disjoint (section 3.1 of RFC 4632): the one with the longer prefix lies wholly
      inside the other, or they share no address. */
  lemma NestedOrDisjoint(outer: Ipv4Cidr, inner: Ipv4Cidr)
    requires ValidCidr(outer) && ValidCidr(inner) && outer.prefix <= inner.prefix
    ensures || (forall a :: InBlock(a, inner) ==> InBlock(a, outer))
            || (forall a :: InBlock(a, inner) ==> !InBlock(a, outer))
  {
    hide Masked;
    hide InBlock;
    forall a | InBlock(a, inner)
      ensures InBlock(a, outer) <==> Masked(inner.network, outer.prefix) == outer.network
    {
      InnerAddress(outer, inner, a);
    }
  }

  // ----- parsing and matching -----

  const INT_MAX: nat := 0x7fff_ffff

  /** The block a CIDR text denotes, with the first error met otherwise. */
  ghost function CidrOf(s: string): Result<Ipv4Cidr, CidrError> {
    match Find(s, "/", 0)
    case None => Err(MissingPrefix)
    case Some(slash) =>
      var prefixText := s[slash + 1..];
      if !IsNumeral(prefixText) || Value(prefixText) > INT_MAX then Err(InvalidPrefix)
      else if Value(prefixText) > 32 then Err(PrefixOutOfRange)
      else match Address(s[..slash])
        case None => Err(InvalidAddress)
        case Some(a) => Ok(BlockAround(a, Value(prefixText)))
  }

  lemma SmallPrefix(prefix: nat)
    requires prefix <= 32
    ensures prefix as bv32 <= 32
  {
  }

  /** The block of the given size that holds the address. */
  function BlockAround(a: bv32, prefix: nat): (cidr: Ipv4Cidr)
    requires prefix <= 32
    ensures ValidCidr(cidr) && cidr.prefix == prefix as bv32
  {
    SmallPrefix(prefix);
    var p := prefix as bv32;
    MaskTwice(a, p);
    Ipv4Cidr(Masked(a, p), p)
  }

  lemma MaskTwice(a: bv32, prefix: bv32)
    requires prefix <= 32
    ensures Masked(Masked(a, prefix), prefix) == Masked(a, prefix)
  {
  }

  /** The address a block was written with lies in the block. */
  lemma BlockHoldsAddress(a: bv32, prefix: nat)
    requires prefix <= 32
    ensures InBlock(a, BlockAround(a, prefix))
  {
    hide Mask;
    hide Masked;
    SmallPrefix(prefix);
    MaskedLiesBelow(a, prefix as bv32);
  }

  lemma {:induction false} ScannedHasNoSlash(s: string, k: nat)
    requires k > 0 && ScanNumbers(s, k).Some?
    ensures forall i :: 0 <= i < |s| ==> s[i] != '/'
    decreases k
  {
    var n := DigitRun(s);
    if k > 1 {
      ScannedHasNoSlash(s[n + 1..], k - 1);
      forall i | 0 <= i < |s|
        ensures s[i] != '/'
      {
        if i > n {
          assert s[i] == s[n + 1..][i - n - 1];
        }
      }
    }
  }

  lemma FirstSlash(address: string, tail: string)
    requires forall i :: 0 <= i < |address| ==> address[i] != '/'
    ensures var s := address + "/" + tail;
            && Find(s, "/", 0) == Some(|address|) && s[..|address|] == address && s[|address| + 1..] == tail
  {
    var s := address + "/" + tail;
    OwnershipLaws.AtOne(s, '/', |address|);
    forall j: nat | j < |address|
      ensures !At(s, "/", j)
    {
      OwnershipLaws.AtOne(s, '/', j);
    }
    OwnershipLaws.FirstIs(s, "/", 0, |address|);
  }

  /** The text writes the block down: an address in it, a slash, and the prefix. */
  ghost predicate Writes(s: string, address: string, digits: string, cidr: Ipv4Cidr) {
    && s == address + "/" + digits && IsNumeral(digits) && Value(digits) <= 32
    && exists a :: Quad(address, a) && cidr == BlockAround(a, Value(digits))
  }

  lemma WrittenIsRead(s: string, address: string, digits: string, cidr: Ipv4Cidr)
    requires Writes(s, address, digits, cidr)
    ensures CidrOf(s) == Ok(cidr)
  {
    hide BlockAround, Find, Shifted, Octets, At, Quad;
    var a :| Quad(address, a) && cidr == BlockAround(a, Value(digits));
    AddressIffQuad(address, a);
    ScannedHasNoSlash(address, 4);
    FirstSlash(address, digits);
  }

  lemma ReadIsWritten(s: string, cidr: Ipv4Cidr)
    requires CidrOf(s) == Ok(cidr)
    ensures exists address, digits :: Writes(s, address, digits, cidr)
  {
    hide BlockAround, Find, Address, At, Value, IsNumeral, Quad;
    var slash := Find(s, "/", 0).value;
    OwnershipLaws.AtOne(s, '/', slash);
    AddressIffQuad(s[..slash], Address(s[..slash]).value);
    assert s == s[..slash] + "/" + s[slash + 1..];
    assert Writes(s, s[..slash], s[slash + 1..], cidr);
  }

  /** A block is read from exactly the texts that write it down. */
  lemma BlockIffWritten(s: string, cidr: Ipv4Cidr)
    ensures CidrOf(s) == Ok(cidr) <==> exists address, digits :: Writes(s, address, digits, cidr)
  {
    hide Writes, CidrOf;
    if CidrOf(s) == Ok(cidr) {
      ReadIsWritten(s, cidr);
    }
    if address, digits :| Writes(s, address, digits, cidr) {
      WrittenIsRead(s, address, digits, cidr);
    }
  }

  /** Any address and any prefix from 0 to 32, printed, are read as the block around the address. */
  lemma CidrRoundTrip(a: bv32, prefix: nat)
    requires prefix <= 32
    ensures CidrOf(Dotted(a) + "/" + Print(prefix)) == Ok(BlockAround(a, prefix))
  {
    hide BlockAround, Address, Dotted, Quad;
    DottedRoundTrip(a);
    AddressIffQuad(Dotted(a), a);
    PrintReads(prefix);
    assert Writes(Dotted(a) + "/" + Print(prefix), Dotted(a), Print(prefix), BlockAround(a, prefix));
    BlockIffWritten(Dotted(a) + "/" + Print(prefix), BlockAround(a, prefix));
  }

  // ----- what is refused, and as what -----

  /** The address and the prefix text before and after the first slash. */
  ghost predicate SplitAtSlash(s: string, address: string, text: string) {
    s == address + "/" + text && forall i :: 0 <= i < |address| ==> address[i] != '/'
  }

  /** Every text has no slash, or splits at its first one in one way; and this is what either is read as. */
  lemma RefusedAs(s: string, address: string, text: string)
    ensures CidrOf(s) == Err(MissingPrefix) <==> forall i :: 0 <= i < |s| ==> s[i] != '/'
    ensures SplitAtSlash(s, address, text) ==>
              && (CidrOf(s) == Err(InvalidPrefix) <==> !IsNumeral(text) || Value(text) > 2147483647)
              && (CidrOf(s) == Err(PrefixOutOfRange) <==> IsNumeral(text) && 32 < Value(text) <= 2147483647)
              && (CidrOf(s) == Err(InvalidAddress) <==>
                    IsNumeral(text) && Value(text) <= 32 && forall a :: !Quad(address, a))
  {
    hide BlockAround, Find, Address, At, Value, IsNumeral, Quad;
    SlashIff(s);
    if SplitAtSlash(s, address, text) {
      FirstSlash(address, text);
      forall a
        ensures Address(address) == Some(a) <==> Quad(address, a)
      {
        AddressIffQuad(address, a);
      }
    }
  }

  lemma SlashIff(s: string)
    ensures Find(s, "/", 0).None? <==> forall i :: 0 <= i < |s| ==> s[i] != '/'
  {
    forall i: nat
      ensures At(s, "/", i) <==> i < |s| && s[i] == '/'
    {
      OwnershipLaws.AtOne(s, '/', i);
    }
  }

  method ParseIpv4Cidr(s: string) returns (r: Result<Ipv4Cidr, CidrError>)
    ensures r == CidrOf(s)
    ensures r.Ok? ==> ValidCidr(r.value)
  {
    hide Mask;
    hide Masked;
    var slash := Find(s, "/", 0);
    if slash.None? {
      return Err(MissingPrefix);
    }
    var address, prefixText := s[..slash.value], s[slash.value + 1..];
    if !IsNumeral(prefixText) || Value(prefixText) > INT_MAX {
      return Err(InvalidPrefix);
    }
    var prefix := Value(prefixText);
    if prefix > 32 {
      return Err(PrefixOutOfRange);
    }
    var a := ParseIpv4Address(address);
    if a.None? {
      return Err(InvalidAddress);
    }
    return Ok(BlockAround(a.value, prefix));
  }

  /** An address text matches a block if and only if it denotes an address in the block's range. */
  method MatchesCidr(address: string, cidr: Ipv4Cidr) returns (matches: bool)
    requires ValidCidr(cidr)
    ensures matches <==> Address(address).Some? && InBlock(Address(address).value, cidr)
    ensures matches <==> exists a :: Quad(address, a) && InBlock(a, cidr)
  {
    hide Masked;
    hide Last;
    hide AtMost;
    hide Address;
    hide Quad;
    var a := ParseIpv4Address(address);
    if a.None? {
      assert forall b :: !Quad(address, b);
      return false;
    }
    assert Quad(address, a.value);
    MaskIffInBlock(a.value, cidr.network, cidr.prefix);
    return Masked(a.value, cidr.prefix) == cidr.network;
  }
}
