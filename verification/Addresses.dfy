/**
 What the broker makes of an address: whether it lies in one of the ranges of a proxy, and the key
 by which the limits know it.
 */
module Addresses {
  import opened AddressText
  import opened Options

  // ---------------------------------------------------------------------------------------------
  // Bits

  function And(one: nat, other: nat): nat {
    if one == 0 || other == 0 then 0
    else 2 * And(one / 2, other / 2) + if one % 2 == 1 && other % 2 == 1 then 1 else 0
  }

  function Or(one: nat, other: nat): nat {
    if one == 0 then other
    else if other == 0 then one
    else 2 * Or(one / 2, other / 2) + if one % 2 == 1 || other % 2 == 1 then 1 else 0
  }

  function ShiftLeft(bits: nat, n: nat): nat {
    if n == 0 then bits else 2 * ShiftLeft(bits, n - 1)
  }

  function ShiftRight(bits: nat, n: nat): nat {
    if n == 0 then bits else ShiftRight(bits / 2, n - 1)
  }

  /** The numbers, each `width` bits, one behind the other. */
  function Concatenated(numbers: seq<nat>, width: nat): nat {
    if numbers == [] then 0
    else Or(ShiftLeft(Concatenated(numbers[..|numbers| - 1], width), width), numbers[|numbers| - 1])
  }

  predicate Fits(bits: nat, width: nat) {
    bits < ShiftLeft(1, width)
  }

  /** The bit with `i` bits below it. */
  function Bit(bits: nat, i: nat): nat {
    ShiftRight(bits, i) % 2
  }

  ghost predicate SameBits(one: nat, other: nat, from: nat, to: nat) {
    forall i :: from <= i < to ==> Bit(one, i) == Bit(other, i)
  }

  lemma {:induction false} OrBelow(one: nat, n: nat, other: nat)
    requires Fits(other, n)
    ensures Or(ShiftLeft(one, n), other) == ShiftLeft(one, n) + other
  {
    if n > 0 {
      OrBelow(one, n - 1, other / 2);
      assert ShiftLeft(one, n) / 2 == ShiftLeft(one, n - 1);
    }
  }

  lemma {:induction false} AndShifted(bits: nat, mask: nat, n: nat)
    ensures And(bits, ShiftLeft(mask, n)) == ShiftLeft(And(ShiftRight(bits, n), mask), n)
  {
    if n > 0 {
      AndShifted(bits / 2, mask, n - 1);
      assert ShiftLeft(mask, n) / 2 == ShiftLeft(mask, n - 1);
    }
  }

  lemma {:induction false} ShiftPositive(bits: nat, n: nat)
    ensures ShiftLeft(bits, n) == 0 <==> bits == 0
  {
    if n > 0 {
      ShiftPositive(bits, n - 1);
    }
  }

  lemma {:induction false} AndOnes(bits: nat, width: nat)
    requires Fits(bits, width)
    ensures And(bits, ShiftLeft(1, width) - 1) == bits
  {
    if width > 0 {
      AndOnes(bits / 2, width - 1);
      assert (ShiftLeft(1, width) - 1) / 2 == ShiftLeft(1, width - 1) - 1;
    }
  }

  lemma {:induction false} RightFits(bits: nat, width: nat, n: nat)
    requires n <= width && Fits(bits, width)
    ensures Fits(ShiftRight(bits, n), width - n)
  {
    if n > 0 {
      RightFits(bits / 2, width - 1, n - 1);
    }
  }

  lemma {:induction false} ShiftApart(one: nat, other: nat, n: nat)
    ensures ShiftLeft(one, n) == ShiftLeft(other, n) <==> one == other
  {
    if n > 0 {
      ShiftApart(one, other, n - 1);
    }
  }

  lemma {:induction false} RightStep(bits: nat, n: nat)
    ensures ShiftRight(bits, n) / 2 == ShiftRight(bits, n + 1)
  {
    if n > 0 {
      RightStep(bits / 2, n - 1);
    }
  }

  /** Numbers agree from a bit on exactly when they are equal without the bits below. */
  lemma {:induction false} SameAbove(one: nat, other: nat, from: nat, width: nat)
    requires from <= width && Fits(one, width) && Fits(other, width)
    ensures ShiftRight(one, from) == ShiftRight(other, from) <==> SameBits(one, other, from, width)
    decreases width - from
  {
    RightFits(one, width, from);
    RightFits(other, width, from);
    if from < width {
      SameAbove(one, other, from + 1, width);
      RightStep(one, from);
      RightStep(other, from);
      if SameBits(one, other, from, width) {
        assert Bit(one, from) == Bit(other, from);
      }
    }
  }

  // ---------------------------------------------------------------------------------------------
  // Ranges

  function WidthOf(family: int): nat {
    if family == 4 then 32 else 128
  }

  /** A network and how many of its leading bits count. */
  datatype Cidr = Cidr(family: int, base: nat, prefix: nat)

  predicate IsCidr(cidr: Cidr) {
    && (cidr.family == 4 || cidr.family == 6)
    && cidr.prefix <= WidthOf(cidr.family) && Fits(cidr.base, WidthOf(cidr.family))
  }

  datatype Range = Range(family: int, network: nat, mask: nat)

  function RangeOf(cidr: Cidr): Range
    requires IsCidr(cidr)
  {
    var mask := MaskOf(cidr.prefix, WidthOf(cidr.family));
    Range(cidr.family, And(cidr.base, mask), mask)
  }

  function MaskOf(prefix: nat, width: nat): nat
    requires prefix <= width
  {
    ShiftPositive(1, prefix);
    ShiftLeft(ShiftLeft(1, prefix) - 1, width - prefix)
  }

  /** The mask test holds exactly when the leading bits agree: section 2.3 of RFC 4291, section 3.1 of RFC 4632. */
  lemma MaskTestsLeadingBits(bits: nat, cidr: Cidr)
    requires IsCidr(cidr) && Fits(bits, WidthOf(cidr.family))
    ensures var width := WidthOf(cidr.family);
            And(bits, RangeOf(cidr).mask) == RangeOf(cidr).network
            <==> SameBits(bits, cidr.base, width - cidr.prefix, width)
  {
    var width := WidthOf(cidr.family);
    var below := width - cidr.prefix;
    LeavesLeading(bits, cidr.prefix, width);
    LeavesLeading(cidr.base, cidr.prefix, width);
    ShiftApart(ShiftRight(bits, below), ShiftRight(cidr.base, below), below);
    SameAbove(bits, cidr.base, below, width);
  }

  lemma LeavesLeading(bits: nat, prefix: nat, width: nat)
    requires prefix <= width && Fits(bits, width)
    ensures And(bits, MaskOf(prefix, width)) == ShiftLeft(ShiftRight(bits, width - prefix), width - prefix)
  {
    ShiftPositive(1, prefix);
    AndShifted(bits, ShiftLeft(1, prefix) - 1, width - prefix);
    RightFits(bits, width, width - prefix);
    AndOnes(ShiftRight(bits, width - prefix), prefix);
  }

  // ---------------------------------------------------------------------------------------------
  // The bits of an address

  /** Which family an address text is of, or neither; 4 and 6 as the operating system tells. */
  type Families = string -> int

  datatype Address = V4(bytes: seq<string>) | V6(spelling: Spelling)

  predicate IsAddress(address: Address) {
    match address
    case V4(bytes) => AreBytes(bytes)
    case V6(spelling) => Allowed(spelling)
  }

  function TextOfAddress(address: Address): string {
    match address
    case V4(bytes) => Join(bytes, '.')
    case V6(spelling) => Render(spelling)
  }

  function FamilyOf(address: Address): int {
    if address.V4? then 4 else 6
  }

  function NumbersOf(address: Address): seq<int>
    requires IsAddress(address)
  {
    match address
    case V4(bytes) => seq(4, i requires 0 <= i < 4 => Value(bytes[i], 10))
    case V6(spelling) => GroupsMeant(spelling)
  }

  /**
   The family of every allowed spelling is told right, and only such a spelling, or one with a zone,
   is taken for IPv6.
   */
  ghost predicate Knows(isIP: Families) {
    && (forall address :: IsAddress(address) ==> isIP(TextOfAddress(address)) == FamilyOf(address))
    && (forall text :: isIP(text) == 6 && '%' !in text ==>
          exists spelling :: Allowed(spelling) && Render(spelling) == text)
  }

  function DecimalsOf(parts: seq<string>): seq<int> {
    seq(|parts|, i requires 0 <= i < |parts| => ParseDecimal(parts[i]))
  }

  predicate AllNumbers(numbers: seq<int>) {
    forall i :: 0 <= i < |numbers| ==> numbers[i] >= 0
  }

  /** The numbers of an address as bits; none when one of them is not a number. */
  function BitsOf(family: int, text: string): Option<nat> {
    var numbers := if family == 4 then Some(DecimalsOf(Split(text, '.'))) else GroupsOf(text);
    if numbers.None? || !AllNumbers(numbers.value) then None
    else Some(Concatenated(numbers.value, if family == 4 then 8 else 16))
  }

  const MAPPED := "::ffff:"

  predicate IsMapped(text: string) {
    |MAPPED| <= |text| && text[..|MAPPED|] == MAPPED
  }

  /** Whether an address lies in one of the ranges; a mapped one is taken for the IPv4 address in it. */
  predicate InRanges(isIP: Families, cidrs: seq<Cidr>, text: string)
    requires forall i :: 0 <= i < |cidrs| ==> IsCidr(cidrs[i])
  {
    var plain := if IsMapped(text) && isIP(text[|MAPPED|..]) == 4 then text[|MAPPED|..] else text;
    var family := isIP(plain);
    var bits := BitsOf(family, plain);
    && (family == 4 || family == 6)
    && bits.Some?
    && exists i :: 0 <= i < |cidrs| && Matches(RangeOf(cidrs[i]), family, bits.value)
  }

  predicate Matches(range: Range, family: int, bits: nat) {
    range.family == family && And(bits, range.mask) == range.network
  }

  function BitsMeant(address: Address): nat
    requires IsAddress(address)
  {
    NumbersFit(address);
    Concatenated(NumbersOf(address), if address.V4? then 8 else 16)
  }

  lemma NumbersFit(address: Address)
    requires IsAddress(address)
    ensures forall i :: 0 <= i < |NumbersOf(address)| ==>
              0 <= NumbersOf(address)[i] < if address.V4? then 256 else 65536
    ensures |NumbersOf(address)| == if address.V4? then 4 else 8
  {
    if address.V6? {
      GroupsFit(address.spelling);
      assert forall i :: 0 <= i < |NumbersOf(address)| ==> NumbersOf(address)[i] in NumbersOf(address);
    }
  }

  lemma ReadsBits(address: Address)
    requires IsAddress(address)
    ensures BitsOf(FamilyOf(address), TextOfAddress(address)) == Some(BitsMeant(address))
  {
    NumbersFit(address);
    match address {
      case V4(bytes) =>
        forall i | 0 <= i < |bytes| ensures '.' !in bytes[i] && ParseDecimal(bytes[i]) == Value(bytes[i], 10) {
          ByteReads(bytes[i]);
        }
        hide ParseDecimal, Value, Join, Split, Concatenated;
        SplitJoined(bytes, '.');
        assert DecimalsOf(bytes) == NumbersOf(address);
      case V6(spelling) =>
        hide GroupsOf, Render, GroupsMeant, Concatenated, Allowed;
        EverySpellingReads(spelling);
    }
  }

  /** The width of so many numbers. */
  function Total(count: nat, width: nat): nat {
    if count == 0 then 0 else Total(count - 1, width) + width
  }

  lemma {:induction false} ConcatenatedFits(numbers: seq<nat>, width: nat)
    requires forall i :: 0 <= i < |numbers| ==> Fits(numbers[i], width)
    ensures Fits(Concatenated(numbers, width), Total(|numbers|, width))
  {
    if numbers != [] {
      var n := |numbers| - 1;
      ConcatenatedFits(numbers[..n], width);
      var before := Concatenated(numbers[..n], width);
      OrBelow(before, width, numbers[n]);
      ShiftBoth(before, Total(n, width), width, numbers[n]);
    }
  }

  lemma {:induction false} ShiftBoth(bits: nat, width: nat, n: nat, below: nat)
    requires Fits(bits, width) && Fits(below, n)
    ensures ShiftLeft(bits, n) + below < ShiftLeft(1, width + n)
  {
    if n > 0 {
      ShiftBoth(bits, width, n - 1, below / 2);
    }
  }

  /** An address lies in the ranges exactly when the leading bits of one of its family agree with its own. */
  lemma InRangesIffLeadingBits(isIP: Families, cidrs: seq<Cidr>, address: Address)
    requires Knows(isIP) && IsAddress(address) && !IsMapped(TextOfAddress(address))
    requires forall i :: 0 <= i < |cidrs| ==> IsCidr(cidrs[i])
    ensures InRanges(isIP, cidrs, TextOfAddress(address)) <==> exists i :: 0 <= i < |cidrs| && Leads(cidrs[i], address)
  {
    var bits := BitsMeant(address);
    ReadsBits(address);
    AddressFits(address);
    hide IsAddress, TextOfAddress, BitsOf, BitsMeant, IsMapped, IsCidr, RangeOf, And;
    forall i | 0 <= i < |cidrs|
      ensures Matches(RangeOf(cidrs[i]), FamilyOf(address), bits) <==> Leads(cidrs[i], address)
    {
      if cidrs[i].family == FamilyOf(address) {
        MaskTestsLeadingBits(bits, cidrs[i]);
      }
      RangeFamily(cidrs[i]);
    }
    assert isIP(TextOfAddress(address)) == FamilyOf(address);
  }

  lemma RangeFamily(cidr: Cidr)
    requires IsCidr(cidr)
    ensures RangeOf(cidr).family == cidr.family
  {
  }

  /** An address of the family of a range with the same leading bits. */
  ghost predicate Leads(cidr: Cidr, address: Address)
    requires IsCidr(cidr) && IsAddress(address)
  {
    var width := WidthOf(cidr.family);
    cidr.family == FamilyOf(address) && SameBits(BitsMeant(address), cidr.base, width - cidr.prefix, width)
  }

  lemma AddressFits(address: Address)
    requires IsAddress(address)
    ensures Fits(BitsMeant(address), WidthOf(FamilyOf(address)))
  {
    NumbersFit(address);
    assert ShiftLeft(1, 8) == 256 && ShiftLeft(1, 16) == 65536 by {
      Shifts();
    }
    assert Total(4, 8) == 32 && Total(8, 16) == 128 by {
      Totals();
    }
    hide ShiftLeft, NumbersOf, IsAddress, Total;
    ConcatenatedFits(NumbersOf(address), if address.V4? then 8 else 16);
  }

  lemma Totals()
    ensures Total(4, 8) == 32 && Total(8, 16) == 128
  {
    assert Total(2, 8) == 16 && Total(2, 16) == 32;
    assert Total(4, 16) == 64;
    assert Total(6, 16) == 96;
  }

  lemma Shifts()
    ensures ShiftLeft(1, 8) == 256 && ShiftLeft(1, 16) == 65536
  {
    assert ShiftLeft(1, 4) == 16;
    assert ShiftLeft(1, 8) == 256;
    assert ShiftLeft(1, 12) == 4096;
  }

  // ---------------------------------------------------------------------------------------------
  // The key of an address

  function HexDigit(n: nat): (c: char)
    requires n < 16
    ensures IsHex(c) && HexValue(c) == n && c != ':'
  {
    if n < 10 then '0' + n as char else 'a' + (n - 10) as char
  }

  function ToHex(n: nat): (text: string)
    ensures AllHex(text) && ':' !in text && text != ""
  {
    if n < 16 then [HexDigit(n)] else ToHex(n / 16) + [HexDigit(n % 16)]
  }

  lemma {:induction false} HexReads(n: nat)
    ensures Value(ToHex(n), 16) == n
  {
    if n < 16 {
      assert ToHex(n)[..0] == "";
    } else {
      HexReads(n / 16);
      assert ToHex(n)[..|ToHex(n)| - 1] == ToHex(n / 16);
    }
  }

  function HexTexts(groups: seq<int>): (texts: seq<string>)
    requires AllNumbers(groups)
    ensures |texts| == |groups|
  {
    seq(|groups|, i requires 0 <= i < |groups| => ToHex(groups[i]))
  }

  function StripMappedPrefix(text: string): string {
    if IsMapped(text) then text[|MAPPED|..] else text
  }

  /** The key of an IPv6 address with these groups. */
  function PrefixKey(groups: seq<int>): string
    requires |groups| >= 4 && AllNumbers(groups[..4])
  {
    Join(HexTexts(groups[..4]), ':') + "::/64"
  }

  /** What the limits know an address by: of IPv6 the first four groups, of anything else the text itself; no zone. */
  function AddressKeyOf(isIP: Families, text: string): Option<string> {
    var bare := StripMappedPrefix(Split(text, '%')[0]);
    if isIP(bare) != 6 then Some(bare)
    else
      var groups := GroupsOf(Lower(bare));
      if groups.None? || |groups.value| < 4 || !AllNumbers(groups.value[..4]) then None
      else Some(PrefixKey(groups.value))
  }

  lemma {:induction false} JoinApart(one: seq<string>, other: seq<string>)
    requires one != [] && other != [] && (forall i :: 0 <= i < |one| ==> ':' !in one[i])
    requires forall i :: 0 <= i < |other| ==> ':' !in other[i]
    requires Join(one, ':') == Join(other, ':')
    ensures one == other
  {
    SplitJoined(one, ':');
    SplitJoined(other, ':');
  }

  /** Keys tell first four groups apart. */
  lemma KeysApart(one: seq<int>, other: seq<int>)
    requires |one| >= 4 && |other| >= 4 && AllNumbers(one[..4]) && AllNumbers(other[..4])
    ensures PrefixKey(one) == PrefixKey(other) <==> one[..4] == other[..4]
  {
    if PrefixKey(one) == PrefixKey(other) {
      var texts, others := HexTexts(one[..4]), HexTexts(other[..4]);
      var end := |PrefixKey(one)| - |"::/64"|;
      assert PrefixKey(one)[..end] == Join(texts, ':') && PrefixKey(other)[..end] == Join(others, ':');
      JoinApart(texts, others);
      forall i | 0 <= i < 4 ensures one[..4][i] == other[..4][i] {
        HexReads(one[i]);
        HexReads(other[i]);
        assert texts[i] == others[i];
      }
    }
  }

  // Case does not matter

  function LowerPiece(piece: Piece): Piece {
    match piece
    case Group(digits) => Group(Lower(digits))
    case Dotted(_) => piece
  }

  function LowerPieces(pieces: seq<Piece>): (lower: seq<Piece>)
    ensures |lower| == |pieces|
  {
    seq(|pieces|, i requires 0 <= i < |pieces| => LowerPiece(pieces[i]))
  }

  function LowerSpelling(spelling: Spelling): Spelling {
    match spelling
    case Full(pieces) => Full(LowerPieces(pieces))
    case Short(front, back) => Short(LowerPieces(front), LowerPieces(back))
  }

  lemma LowerBoth(text: string, more: string)
    ensures Lower(text + more) == Lower(text) + Lower(more)
  {
  }

  lemma {:induction false} LowerValue(text: string, base: nat)
    requires AllHex(text)
    ensures AllHex(Lower(text)) && Value(Lower(text), base) == Value(text, base)
  {
    if text != "" {
      var n := |text| - 1;
      LowerValue(text[..n], base);
      assert Lower(text)[..n] == Lower(text[..n]);
    }
  }

  lemma LowerDigits(text: string)
    requires forall c :: c in text ==> IsDigit(c) || c == '.'
    ensures Lower(text) == text
  {
    forall i | 0 <= i < |text| ensures Lower(text)[i] == text[i] {
      assert text[i] in text;
    }
  }

  lemma LowerPieceText(piece: Piece)
    requires IsPiece(piece)
    ensures IsPiece(LowerPiece(piece)) && (IsGroup(piece) ==> IsGroup(LowerPiece(piece)))
    ensures Meant(LowerPiece(piece)) == Meant(piece) && TextOf(LowerPiece(piece)) == Lower(TextOf(piece))
  {
    match piece {
      case Group(digits) => LowerValue(digits, 16);
      case Dotted(bytes) =>
        DottedChars(bytes);
        LowerDigits(Join(bytes, '.'));
    }
  }

  lemma LowerPiecesAre(pieces: seq<Piece>)
    requires ArePieces(pieces)
    ensures ArePieces(LowerPieces(pieces))
    ensures (forall i :: 0 <= i < |pieces| ==> IsGroup(pieces[i])) ==>
              forall i :: 0 <= i < |pieces| ==> IsGroup(LowerPieces(pieces)[i])
  {
    forall i | 0 <= i < |pieces|
      ensures IsPiece(LowerPieces(pieces)[i]) && (IsGroup(pieces[i]) ==> IsGroup(LowerPieces(pieces)[i]))
    {
      LowerPieceText(pieces[i]);
    }
  }

  lemma {:induction false} LowerPiecesMean(pieces: seq<Piece>)
    requires ArePieces(pieces)
    ensures ArePieces(LowerPieces(pieces)) && MeantBy(LowerPieces(pieces)) == MeantBy(pieces)
  {
    LowerPiecesAre(pieces);
    if pieces != [] {
      LowerPiecesMean(pieces[1..]);
      LowerPieceText(pieces[0]);
      hide IsPiece, IsGroup, Meant;
      assert LowerPieces(pieces)[1..] == LowerPieces(pieces[1..]);
    }
  }

  lemma {:induction false} LowerPiecesText(pieces: seq<Piece>)
    requires ArePieces(pieces)
    ensures Join(TextsOf(LowerPieces(pieces)), ':') == Lower(Join(TextsOf(pieces), ':'))
  {
    if pieces != [] {
      LowerPiecesText(pieces[1..]);
      LowerPieceText(pieces[0]);
      var texts, lower := TextsOf(pieces), TextsOf(LowerPieces(pieces));
      assert lower[1..] == TextsOf(LowerPieces(pieces[1..])) && texts[1..] == TextsOf(pieces[1..]);
      assert lower[0] == Lower(texts[0]);
      LowerJoined(texts, lower);
    }
  }

  lemma LowerJoined(texts: seq<string>, lower: seq<string>)
    requires |texts| == |lower| > 0 && lower[0] == Lower(texts[0])
    requires Join(lower[1..], ':') == Lower(Join(texts[1..], ':'))
    ensures Join(lower, ':') == Lower(Join(texts, ':'))
  {
    assert Lower([':']) == [':'];
    LowerBoth(texts[0], [':']);
    LowerBoth(texts[0] + [':'], Join(texts[1..], ':'));
    hide Lower;
  }

  lemma LowerRendered(spelling: Spelling)
    requires Allowed(spelling)
    ensures Render(LowerSpelling(spelling)) == Lower(Render(spelling))
  {
    match spelling {
      case Full(pieces) =>
        hide Join, Lower;
        LowerPiecesText(pieces);
      case Short(front, back) =>
        LowerPiecesText(front);
        LowerPiecesText(back);
        assert Lower("::") == "::";
        hide Join, Lower, TextsOf, LowerPieces, Allowed;
        LowerBoth(Join(TextsOf(front), ':'), "::");
        LowerBoth(Join(TextsOf(front), ':') + "::", Join(TextsOf(back), ':'));
    }
  }

  lemma LowerMeans(spelling: Spelling)
    requires Allowed(spelling)
    ensures Allowed(LowerSpelling(spelling)) && GroupsMeant(LowerSpelling(spelling)) == GroupsMeant(spelling)
  {
    hide MeantBy, LowerPieces, IsPiece, IsGroup, ArePieces;
    match spelling {
      case Full(pieces) => LowerPiecesMean(pieces);
      case Short(front, back) =>
        LowerPiecesAre(front);
        LowerPiecesMean(front);
        LowerPiecesMean(back);
    }
  }

  lemma LowerReads(spelling: Spelling)
    requires Allowed(spelling)
    ensures GroupsOf(Lower(Render(spelling))) == Some(GroupsMeant(spelling))
  {
    hide *;
    LowerRendered(spelling);
    LowerMeans(spelling);
    EverySpellingReads(LowerSpelling(spelling));
  }

  // Which addresses share a key

  /** What comes behind an address to name the interface. */
  function WithZone(text: string, zone: Option<string>): string {
    if zone.None? then text else text + ['%'] + zone.value
  }

  lemma NoPercent(spelling: Spelling)
    requires Allowed(spelling)
    ensures '%' !in Render(spelling)
  {
    match spelling {
      case Full(pieces) => JoinedTight(pieces);
      case Short(front, back) =>
        if front != [] {
          JoinedTight(front);
        }
        if back != [] {
          JoinedTight(back);
        }
    }
  }

  lemma WithoutZone(text: string, zone: Option<string>)
    requires '%' !in text
    ensures Split(WithZone(text, zone), '%')[0] == text
  {
    if zone.Some? {
      FirstPart(text, '%', zone.value);
    } else {
      OnlyPart(text, '%');
    }
  }

  lemma UnmappedKey(isIP: Families, spelling: Spelling, zone: Option<string>)
    requires Knows(isIP) && Allowed(spelling) && !IsMapped(Render(spelling))
    ensures AllNumbers(GroupsMeant(spelling)[..4])
    ensures AddressKeyOf(isIP, WithZone(Render(spelling), zone)) == Some(PrefixKey(GroupsMeant(spelling)))
  {
    NoPercent(spelling);
    EverySpellingReads(spelling);
    LowerReads(spelling);
    var text := Render(spelling);
    hide Render, GroupsOf, GroupsMeant, Allowed, Lower, IsMapped, PrefixKey, Split;
    WithoutZone(text, zone);
    assert isIP(TextOfAddress(V6(spelling))) == 6;
    forall i | 0 <= i < 4 ensures GroupsMeant(spelling)[..4][i] >= 0 {
      assert GroupsMeant(spelling)[i] in GroupsMeant(spelling);
    }
  }

  lemma BeginsWithGroup(spelling: Spelling)
    requires Allowed(spelling) && (spelling.Short? ==> spelling.front != [])
    ensures !IsMapped(Render(spelling))
  {
    var first := if spelling.Full? then spelling.pieces else spelling.front;
    JoinedTight(first);
    hide Join, TextsOf;
    assert Render(spelling)[0] == Join(TextsOf(first), ':')[0];
    NotMapped(Render(spelling));
  }

  /** A spelling that begins as a mapped address leaves out its first groups and goes on with `ffff`. */
  lemma MappedShape(spelling: Spelling)
    requires Allowed(spelling) && IsMapped(Render(spelling))
    ensures spelling.Short? && spelling.front == [] && |spelling.back| >= 2
    ensures Render(spelling) == MAPPED + Join(TextsOf(spelling.back[1..]), ':')
  {
    if spelling.Full? || spelling.front != [] {
      BeginsWithGroup(spelling);
    } else {
      hide Join;
      var joined := Join(TextsOf(spelling.back), ':');
      assert Render(spelling) == "" + "::" + joined by {
        assert Join(TextsOf([]), ':') == "" by {
          NothingJoined();
        }
      }
      MappedBack(spelling.back, Render(spelling));
    }
  }

  lemma NothingJoined()
    ensures Join(TextsOf([]), ':') == ""
  {
  }

  lemma MappedBack(back: seq<Piece>, text: string)
    requires ArePieces(back) && text == "::" + Join(TextsOf(back), ':') && IsMapped(text)
    ensures |back| >= 2 && text == MAPPED + Join(TextsOf(back[1..]), ':')
  {
    var joined := Join(TextsOf(back), ':');
    assert text[..|MAPPED|] == "::" + "ffff" + [':'];
    assert joined == text[2..] && joined == "ffff" + [':'] + joined[5..];
    if back == [] {
      NothingJoined();
    } else {
      PieceText(back[0]);
      hide TextOf, IsPiece, GroupsOfPiece, Meant, IsMapped, Join;
      assert TextsOf(back)[0] == TextOf(back[0]) && TextsOf(back)[1..] == TextsOf(back[1..]);
      FirstOfJoined(TextsOf(back), "ffff", joined[5..]);
    }
  }

  lemma FirstOfJoined(texts: seq<string>, head: string, rest: string)
    requires texts != [] && ':' !in texts[0] && ':' !in head && Join(texts, ':') == head + [':'] + rest
    ensures |texts| > 1 && texts[0] == head && Join(texts[1..], ':') == rest
  {
    if |texts| > 1 {
      SameFirst(head, rest, texts[0], Join(texts[1..], ':'));
    } else {
      IndexAfter(head, ':', rest);
      OnlyPart(texts[0], ':');
    }
  }

  /** A text without separators is known by what follows it. */
  lemma SameFirst(one: string, rest: string, other: string, otherRest: string)
    requires ':' !in one && ':' !in other && one + [':'] + rest == other + [':'] + otherRest
    ensures one == other && rest == otherRest
  {
    IndexAfter(one, ':', rest);
    IndexAfter(other, ':', otherRest);
    var text := one + [':'] + rest;
    assert one == text[..|one|] && rest == text[|one| + 1..];
    assert other == text[..|one|] && otherRest == text[|one| + 1..];
  }

  /** What is left of it without that beginning is no address. */
  lemma MappedRestIsNone(isIP: Families, spelling: Spelling)
    requires Knows(isIP) && Allowed(spelling) && IsMapped(Render(spelling))
    ensures isIP(Render(spelling)[|MAPPED|..]) != 6
  {
    MappedShape(spelling);
    var rest := spelling.back[1..];
    var bare := Render(spelling)[|MAPPED|..];
    assert bare == Join(TextsOf(rest), ':');
    JoinedTight(rest);
    assert '%' !in bare;
    ReadsPart(rest);
    hide Join, GroupsIn, Render, TextsOf, IsPiece, IsAddressChar, IsMapped;
    NoDoubleColon(bare);
    assert |MeantBy(rest)| < 8;
    forall other | Allowed(other) && Render(other) == bare ensures false {
      EverySpellingReads(other);
    }
  }

  lemma MappedKey(isIP: Families, spelling: Spelling, zone: Option<string>)
    requires Knows(isIP) && Allowed(spelling) && IsMapped(Render(spelling))
    ensures AddressKeyOf(isIP, WithZone(Render(spelling), zone)) == Some(Render(spelling)[|MAPPED|..])
    ensures '/' !in Render(spelling)
  {
    NoPercent(spelling);
    MappedRestIsNone(isIP, spelling);
    NoSlash(spelling);
    hide Render, Allowed, Split, Knows;
    WithoutZone(Render(spelling), zone);
  }

  lemma NoSlash(spelling: Spelling)
    requires Allowed(spelling)
    ensures '/' !in Render(spelling)
  {
    match spelling {
      case Full(pieces) => JoinedTight(pieces);
      case Short(front, back) =>
        if front != [] {
          JoinedTight(front);
        }
        if back != [] {
          JoinedTight(back);
        }
    }
  }

  lemma PrefixKeyHasSlash(groups: seq<int>)
    requires |groups| >= 4 && AllNumbers(groups[..4])
    ensures '/' in PrefixKey(groups)
  {
    var key := PrefixKey(groups);
    assert key[|key| - 3] == '/';
  }

  /**
   An IPv6 address, however spelled and with whatever zone, counts by its first four groups exactly
   when it does not begin as a mapped address.
   */
  lemma KeyIsPrefix(isIP: Families, spelling: Spelling, zone: Option<string>)
    requires Knows(isIP) && Allowed(spelling)
    ensures |GroupsMeant(spelling)| == 8 && AllNumbers(GroupsMeant(spelling)[..4])
    ensures AddressKeyOf(isIP, WithZone(Render(spelling), zone)) == Some(PrefixKey(GroupsMeant(spelling)))
       <==> !IsMapped(Render(spelling))
  {
    hide PrefixKey, Render, Allowed, GroupsMeant, Knows, AddressKeyOf, IsMapped;
    GroupsAreNumbers(spelling);
    if IsMapped(Render(spelling)) {
      MappedKey(isIP, spelling, zone);
      PrefixKeyHasSlash(GroupsMeant(spelling));
    } else {
      UnmappedKey(isIP, spelling, zone);
    }
  }

  lemma GroupsAreNumbers(spelling: Spelling)
    requires Allowed(spelling)
    ensures |GroupsMeant(spelling)| == 8 && AllNumbers(GroupsMeant(spelling)[..4])
  {
    GroupsFit(spelling);
    hide Allowed, GroupsMeant;
    forall i | 0 <= i < 4 ensures GroupsMeant(spelling)[..4][i] >= 0 {
      assert GroupsMeant(spelling)[i] in GroupsMeant(spelling);
    }
  }

  /**
   When two IPv6 addresses share a key, however spelled and with whatever zones: when their first
   four groups agree; among spellings that begin as mapped addresses only those with the same text
   do, and never one of these with one of the others.
   */
  lemma KeysShareIff(isIP: Families, one: Spelling, other: Spelling, zone: Option<string>, otherZone: Option<string>)
    requires Knows(isIP) && Allowed(one) && Allowed(other)
    ensures |GroupsMeant(one)| == 8 && |GroupsMeant(other)| == 8
    ensures AddressKeyOf(isIP, WithZone(Render(one), zone)) == AddressKeyOf(isIP, WithZone(Render(other), otherZone))
       <==> if IsMapped(Render(one)) != IsMapped(Render(other)) then false
            else if IsMapped(Render(one)) then Render(one) == Render(other)
            else GroupsMeant(one)[..4] == GroupsMeant(other)[..4]
  {
    hide PrefixKey, Render, Allowed, GroupsMeant, Knows, AddressKeyOf;
    GroupsAreNumbers(one);
    GroupsAreNumbers(other);
    PrefixKeyHasSlash(GroupsMeant(one));
    PrefixKeyHasSlash(GroupsMeant(other));
    KeysApart(GroupsMeant(one), GroupsMeant(other));
    if IsMapped(Render(one)) {
      MappedKey(isIP, one, zone);
      assert Render(one) == MAPPED + Render(one)[|MAPPED|..];
    } else {
      UnmappedKey(isIP, one, zone);
    }
    if IsMapped(Render(other)) {
      MappedKey(isIP, other, otherZone);
      assert Render(other) == MAPPED + Render(other)[|MAPPED|..];
    } else {
      UnmappedKey(isIP, other, otherZone);
    }
  }

  /** A first group other than zero rules out a spelling that begins as a mapped address. */
  lemma NonZeroIsNotMapped(spelling: Spelling)
    requires Allowed(spelling) && GroupsMeant(spelling) != [] && GroupsMeant(spelling)[0] != 0
    ensures !IsMapped(Render(spelling))
  {
    BeginsWithGroup(spelling);
  }

  /** An IPv4 address and its mapped form have one key and lie in the same ranges. */
  lemma MappedIsItsHalf(isIP: Families, cidrs: seq<Cidr>, bytes: seq<string>)
    requires Knows(isIP) && AreBytes(bytes) && forall i :: 0 <= i < |cidrs| ==> IsCidr(cidrs[i])
    ensures AddressKeyOf(isIP, MAPPED + Join(bytes, '.')) == Some(Join(bytes, '.'))
              == AddressKeyOf(isIP, Join(bytes, '.'))
    ensures InRanges(isIP, cidrs, MAPPED + Join(bytes, '.')) <==> InRanges(isIP, cidrs, Join(bytes, '.'))
  {
    var text := Join(bytes, '.');
    assert isIP(TextOfAddress(V4(bytes))) == 4;
    DottedOnlyDigits(bytes);
    OnlyPart(text, '%');
    OnlyPart(MAPPED + text, '%');
    assert (MAPPED + text)[|MAPPED|..] == text && (MAPPED + text)[..|MAPPED|] == MAPPED;
    NotMapped(text);
  }

  lemma NotMapped(text: string)
    requires text != "" && text[0] != ':'
    ensures !IsMapped(text)
  {
    assert |MAPPED| <= |text| ==> text[..|MAPPED|][0] == text[0];
  }

  lemma DottedOnlyDigits(bytes: seq<string>)
    requires AreBytes(bytes)
    ensures var text := Join(bytes, '.');
            text != "" && text[0] != ':' && '%' !in text && '%' !in MAPPED + text
  {
    DottedText(bytes);
    var text := Join(bytes, '.');
    assert text[0] in text;
  }

  lemma {:induction false} GroupsOneEach(pieces: seq<Piece>)
    requires forall i :: 0 <= i < |pieces| ==> IsGroup(pieces[i])
    ensures ArePieces(pieces) && |MeantBy(pieces)| == |pieces|
    ensures forall i :: 0 <= i < |pieces| ==> MeantBy(pieces)[i] == Value(pieces[i].digits, 16)
  {
    if pieces != [] {
      GroupsOneEach(pieces[1..]);
    }
  }

  const ZERO := Group("0")
  const LAST := [Group("ffff"), Group("1"), Group("2")]
  const SHORTENED := Short([], LAST)
  const WRITTEN_OUT := Full([ZERO, ZERO, ZERO, ZERO, ZERO] + LAST)

  lemma BothSpellTheSame()
    ensures Allowed(SHORTENED) && Allowed(WRITTEN_OUT) && GroupsMeant(SHORTENED) == GroupsMeant(WRITTEN_OUT)
  {
    GroupsOneEach(LAST);
    GroupsOneEach(WRITTEN_OUT.pieces);
    assert Value("0", 16) == 0 by {
      assert "0"[..0] == "";
    }
    assert MeantBy([]) == [] && LAST == [Group("ffff"), Group("1"), Group("2")];
    hide MeantBy, Value;
    assert GroupsMeant(SHORTENED) == Zeros(5) + MeantBy(LAST);
  }

  lemma ShortenedText()
    ensures Render(SHORTENED) == "::ffff:1:2" && Render(WRITTEN_OUT) != "" && Render(WRITTEN_OUT)[0] == '0'
  {
    var texts := TextsOf(LAST);
    assert texts == ["ffff", "1", "2"] && texts[1..] == ["1", "2"] && texts[1..][1..] == ["2"];
    assert Join(texts[1..][1..], ':') == "2";
    assert Join(texts[1..], ':') == "1" + [':'] + "2";
    assert Join(texts, ':') == "ffff" + [':'] + ("1" + [':'] + "2");
    assert TextsOf(WRITTEN_OUT.pieces)[0] == "0";
  }

  /** So two spellings of one address can have two keys, as `::ffff:1:2` and the same written out have. */
  lemma MappedSpellingHasAnotherKey(isIP: Families)
    requires Knows(isIP)
    ensures Allowed(SHORTENED) && Allowed(WRITTEN_OUT) && GroupsMeant(SHORTENED) == GroupsMeant(WRITTEN_OUT)
    ensures Render(SHORTENED) == "::ffff:1:2"
    ensures AddressKeyOf(isIP, Render(SHORTENED)) != AddressKeyOf(isIP, Render(WRITTEN_OUT))
  {
    BothSpellTheSame();
    ShortenedText();
    assert Render(SHORTENED)[..7] == MAPPED;
    NotMapped(Render(WRITTEN_OUT));
    hide Render, Allowed, GroupsMeant, AddressKeyOf;
    KeysShareIff(isIP, SHORTENED, WRITTEN_OUT, None, None);
  }
}
