/**
 Reading IPv6 and IPv4 addresses from text. Every spelling that section 2.2 of RFC 4291 allows is
 read back as the eight groups it stands for.
 */
module AddressText {
  import opened Options

  /** What a number that is none reads as. */
  const NOT_A_NUMBER: int := -1

  // ---------------------------------------------------------------------------------------------
  // Splitting and joining

  function Split(text: string, separator: char): (parts: seq<string>)
    ensures parts != []
  {
    var i := IndexOf(text, separator);
    if i == |text| then [text] else [text[..i]] + Split(text[i + 1..], separator)
  }

  function IndexOf(text: string, c: char): (i: nat)
    ensures i <= |text| && (i < |text| ==> text[i] == c)
    ensures c !in text[..i]
  {
    if text == "" || text[0] == c then 0
    else
      var i := 1 + IndexOf(text[1..], c);
      assert text[..i] == [text[0]] + text[1..][..i - 1];
      i
  }

  function Join(parts: seq<string>, separator: char): string {
    if parts == [] then ""
    else if |parts| == 1 then parts[0]
    else parts[0] + [separator] + Join(parts[1..], separator)
  }

  lemma {:induction false} IndexAfter(part: string, separator: char, rest: string)
    requires separator !in part
    ensures IndexOf(part + [separator] + rest, separator) == |part|
  {
    if part != "" {
      IndexAfter(part[1..], separator, rest);
      assert (part + [separator] + rest)[1..] == part[1..] + [separator] + rest;
    }
  }

  lemma FirstPart(part: string, separator: char, rest: string)
    requires separator !in part
    ensures Split(part + [separator] + rest, separator) == [part] + Split(rest, separator)
  {
    var text := part + [separator] + rest;
    IndexAfter(part, separator, rest);
    assert text[..|part|] == part && text[|part| + 1..] == rest;
  }

  lemma {:induction false} OnlyPart(part: string, separator: char)
    requires separator !in part
    ensures IndexOf(part, separator) == |part| && Split(part, separator) == [part]
  {
    if part != "" {
      OnlyPart(part[1..], separator);
    }
  }

  lemma {:induction false} SplitJoined(parts: seq<string>, separator: char)
    requires parts != [] && forall i :: 0 <= i < |parts| ==> separator !in parts[i]
    ensures Split(Join(parts, separator), separator) == parts
  {
    if |parts| == 1 {
      OnlyPart(parts[0], separator);
    } else {
      SplitJoined(parts[1..], separator);
      FirstPart(parts[0], separator, Join(parts[1..], separator));
    }
  }

  // ---------------------------------------------------------------------------------------------
  // Numbers

  predicate IsDigit(c: char) {
    '0' <= c <= '9'
  }

  predicate IsHex(c: char) {
    IsDigit(c) || 'a' <= c <= 'f' || 'A' <= c <= 'F'
  }

  function HexValue(c: char): (value: nat)
    requires IsHex(c)
    ensures value < 16
  {
    if IsDigit(c) then (c - '0') as nat
    else if 'a' <= c <= 'f' then 10 + (c - 'a') as nat
    else 10 + (c - 'A') as nat
  }

  predicate AllHex(text: string) {
    forall i :: 0 <= i < |text| ==> IsHex(text[i])
  }

  predicate AllDigits(text: string) {
    forall i :: 0 <= i < |text| ==> IsDigit(text[i])
  }

  function Value(text: string, base: nat): nat
    requires AllHex(text)
  {
    if text == "" then 0 else base * Value(text[..|text| - 1], base) + HexValue(text[|text| - 1])
  }

  /** The number the leading hexadecimal digits make. */
  function ParseHex(text: string): int {
    var run := HexRun(text);
    if run == 0 then NOT_A_NUMBER else Value(text[..run], 16)
  }

  function HexRun(text: string): (run: nat)
    ensures run <= |text| && AllHex(text[..run])
    ensures AllHex(text) ==> run == |text|
  {
    if text == "" || !IsHex(text[0]) then 0
    else
      var run := 1 + HexRun(text[1..]);
      assert text[..run] == [text[0]] + text[1..][..run - 1];
      run
  }

  function ParseDecimal(text: string): int {
    if AllDigits(text) then Value(text, 10) else NOT_A_NUMBER
  }

  function Lower(text: string): (lower: string)
    ensures |lower| == |text|
  {
    seq(|text|, i requires 0 <= i < |text| => LowerChar(text[i]))
  }

  function LowerChar(c: char): char {
    if 'A' <= c <= 'Z' then c - 'A' + 'a' else c
  }

  // ---------------------------------------------------------------------------------------------
  // Groups

  /** The groups of one piece; a dotted one makes two. */
  function GroupsOfPiece(piece: string): seq<int> {
    if '.' !in piece then [ParseHex(piece)]
    else
      var parts := Split(piece, '.');
      [NumberAt(parts, 0) * 256 + NumberAt(parts, 1), NumberAt(parts, 2) * 256 + NumberAt(parts, 3)]
  }

  function NumberAt(parts: seq<string>, i: nat): int {
    if i < |parts| then ParseDecimal(parts[i]) else 0
  }

  function GroupsOfPieces(pieces: seq<string>): seq<int> {
    if pieces == [] then [] else GroupsOfPiece(pieces[0]) + GroupsOfPieces(pieces[1..])
  }

  function GroupsIn(part: string): seq<int> {
    if part == "" then [] else GroupsOfPieces(Split(part, ':'))
  }

  /** Where the first double colon is, or the length of the text. */
  function DoubleColon(text: string): (i: nat)
    ensures i <= |text| && (i < |text| ==> i + 1 < |text| && text[i] == ':' && text[i + 1] == ':')
  {
    if |text| < 2 then |text|
    else if text[0] == ':' && text[1] == ':' then 0
    else 1 + DoubleColon(text[1..])
  }

  function Zeros(n: nat): seq<int> {
    seq(n, _ => 0)
  }

  /** The groups of an address; none when it has more groups than there is place for. */
  function GroupsOf(address: string): Option<seq<int>> {
    var i := DoubleColon(address);
    if i == |address| then Some(GroupsIn(address))
    else
      var rest := address[i + 2..];
      var front, back := GroupsIn(address[..i]), GroupsIn(rest[..DoubleColon(rest)]);
      if |front| + |back| > 8 then None else Some(front + Zeros(8 - |front| - |back|) + back)
  }

  // ---------------------------------------------------------------------------------------------
  // Spellings

  /** A group in one to four hexadecimal digits, or two groups as a dotted IPv4 address. */
  datatype Piece = Group(digits: string) | Dotted(bytes: seq<string>)

  /** A decimal number below 256 without a leading zero. */
  predicate IsByte(text: string) {
    1 <= |text| <= 3 && AllDigits(text) && Value(text, 10) < 256 && (|text| > 1 ==> text[0] != '0')
  }

  predicate AreBytes(bytes: seq<string>) {
    |bytes| == 4 && forall i :: 0 <= i < |bytes| ==> IsByte(bytes[i])
  }

  predicate IsGroup(piece: Piece) {
    piece.Group? && 1 <= |piece.digits| <= 4 && AllHex(piece.digits)
  }

  predicate IsPiece(piece: Piece) {
    IsGroup(piece) || (piece.Dotted? && AreBytes(piece.bytes))
  }

  function TextOf(piece: Piece): string {
    match piece
    case Group(digits) => digits
    case Dotted(bytes) => Join(bytes, '.')
  }

  function Pair(bytes: seq<string>): seq<int>
    requires AreBytes(bytes)
  {
    [Value(bytes[0], 10) * 256 + Value(bytes[1], 10), Value(bytes[2], 10) * 256 + Value(bytes[3], 10)]
  }

  function Meant(piece: Piece): seq<int>
    requires IsPiece(piece)
  {
    match piece
    case Group(digits) => [Value(digits, 16)]
    case Dotted(bytes) => Pair(bytes)
  }

  predicate ArePieces(pieces: seq<Piece>) {
    forall i :: 0 <= i < |pieces| ==> IsPiece(pieces[i]) && (i < |pieces| - 1 ==> IsGroup(pieces[i]))
  }

  function MeantBy(pieces: seq<Piece>): seq<int>
    requires ArePieces(pieces)
  {
    if pieces == [] then [] else Meant(pieces[0]) + MeantBy(pieces[1..])
  }

  function TextsOf(pieces: seq<Piece>): (texts: seq<string>)
    ensures |texts| == |pieces|
  {
    seq(|pieces|, i requires 0 <= i < |pieces| => TextOf(pieces[i]))
  }

  /** All groups written out, or a run of zero groups left out between `front` and `back`. */
  datatype Spelling = Full(pieces: seq<Piece>) | Short(front: seq<Piece>, back: seq<Piece>)

  predicate Allowed(spelling: Spelling) {
    match spelling
    case Full(pieces) => ArePieces(pieces) && |MeantBy(pieces)| == 8
    case Short(front, back) =>
      && ArePieces(front) && ArePieces(back) && (forall i :: 0 <= i < |front| ==> IsGroup(front[i]))
      && |MeantBy(front)| + |MeantBy(back)| < 8
  }

  function Render(spelling: Spelling): string {
    match spelling
    case Full(pieces) => Join(TextsOf(pieces), ':')
    case Short(front, back) => Join(TextsOf(front), ':') + "::" + Join(TextsOf(back), ':')
  }

  function GroupsMeant(spelling: Spelling): seq<int>
    requires Allowed(spelling)
  {
    match spelling
    case Full(pieces) => MeantBy(pieces)
    case Short(front, back) =>
      MeantBy(front) + Zeros(8 - |MeantBy(front)| - |MeantBy(back)|) + MeantBy(back)
  }

  // ---------------------------------------------------------------------------------------------
  // Reading a spelling back

  predicate IsAddressChar(c: char) {
    IsHex(c) || c == ':' || c == '.'
  }

  /** No colon at either end, and no two together. */
  predicate Tight(text: string) {
    && text != "" && text[0] != ':' && text[|text| - 1] != ':'
    && forall i :: 0 <= i < |text| - 1 ==> !(text[i] == ':' && text[i + 1] == ':')
  }

  lemma {:induction false} DottedChars(parts: seq<string>)
    requires forall i :: 0 <= i < |parts| ==> AllDigits(parts[i])
    ensures forall c :: c in Join(parts, '.') ==> IsDigit(c) || c == '.'
    ensures |parts| > 1 ==> '.' in Join(parts, '.')
  {
    if |parts| > 1 {
      DottedChars(parts[1..]);
      assert Join(parts, '.')[|parts[0]|] == '.';
    }
  }

  lemma PieceText(piece: Piece)
    requires IsPiece(piece)
    ensures TextOf(piece) != "" && ':' !in TextOf(piece) && forall c :: c in TextOf(piece) ==> IsAddressChar(c)
    ensures GroupsOfPiece(TextOf(piece)) == Meant(piece)
  {
    match piece {
      case Group(digits) => GroupText(digits);
      case Dotted(bytes) => DottedText(bytes);
    }
  }

  lemma GroupText(digits: string)
    requires IsGroup(Group(digits))
    ensures ':' !in digits && forall c :: c in digits ==> IsAddressChar(c)
    ensures GroupsOfPiece(digits) == [Value(digits, 16)]
  {
    assert '.' !in digits;
    assert digits[..|digits|] == digits;
  }

  lemma DottedText(bytes: seq<string>)
    requires AreBytes(bytes)
    ensures var text := Join(bytes, '.');
            text != "" && ':' !in text && forall ch :: ch in text ==> IsAddressChar(ch)
    ensures GroupsOfPiece(Join(bytes, '.')) == Pair(bytes)
  {
    forall i | 0 <= i < |bytes| ensures AllDigits(bytes[i]) && '.' !in bytes[i] {
      ByteReads(bytes[i]);
    }
    hide IsByte, AllDigits, Join, Split, IsAddressChar, GroupsOfPiece, Pair;
    DottedChars(bytes);
    SplitJoined(bytes, '.');
    DigitsAndDots(Join(bytes, '.'));
    PairReads(Join(bytes, '.'), bytes);
  }

  lemma PairReads(text: string, bytes: seq<string>)
    requires AreBytes(bytes) && '.' in text && Split(text, '.') == bytes
    ensures GroupsOfPiece(text) == Pair(bytes)
  {
    forall i | 0 <= i < |bytes| ensures AllHex(bytes[i]) && ParseDecimal(bytes[i]) == Value(bytes[i], 10) {
      ByteReads(bytes[i]);
    }
    hide IsByte, AllDigits, AllHex, Split, Value, ParseDecimal, ParseHex;
    assert NumberAt(bytes, 0) == Value(bytes[0], 10) && NumberAt(bytes, 1) == Value(bytes[1], 10);
    assert NumberAt(bytes, 2) == Value(bytes[2], 10) && NumberAt(bytes, 3) == Value(bytes[3], 10);
  }

  lemma DigitsAndDots(text: string)
    requires forall c :: c in text ==> IsDigit(c) || c == '.'
    ensures ':' !in text && forall c :: c in text ==> IsAddressChar(c)
  {
  }

  lemma ByteReads(text: string)
    requires IsByte(text)
    ensures AllHex(text) && '.' !in text && ParseDecimal(text) == Value(text, 10)
  {
  }

  lemma BothTight(text: string, more: string)
    requires text != "" && ':' !in text && Tight(more)
    ensures Tight(text + [':'] + more)
  {
    var both := text + [':'] + more;
    forall i | 0 <= i < |both| - 1 ensures !(both[i] == ':' && both[i + 1] == ':') {
      if i < |text| {
        assert both[i] == text[i];
      } else {
        assert both[i + 1] == more[i - |text|];
        assert i > |text| ==> both[i] == more[i - |text| - 1];
      }
    }
  }

  lemma {:induction false} JoinedTight(pieces: seq<Piece>)
    requires ArePieces(pieces) && pieces != []
    ensures Tight(Join(TextsOf(pieces), ':'))
    ensures forall c :: c in Join(TextsOf(pieces), ':') ==> IsAddressChar(c)
  {
    PieceText(pieces[0]);
    if |pieces| > 1 {
      JoinedTight(pieces[1..]);
      hide Tight, IsAddressChar, TextOf, IsPiece;
      assert TextsOf(pieces)[1..] == TextsOf(pieces[1..]);
      BothTight(TextOf(pieces[0]), Join(TextsOf(pieces[1..]), ':'));
    } else {
      hide IsAddressChar, TextOf, IsPiece;
      assert TextsOf(pieces) == [TextOf(pieces[0])];
    }
  }

  lemma {:induction false} JoinedGroups(pieces: seq<Piece>)
    requires ArePieces(pieces)
    ensures GroupsOfPieces(TextsOf(pieces)) == MeantBy(pieces)
  {
    if pieces != [] {
      PieceText(pieces[0]);
      JoinedGroups(pieces[1..]);
      assert TextsOf(pieces)[1..] == TextsOf(pieces[1..]);
    }
  }

  lemma ReadsPart(pieces: seq<Piece>)
    requires ArePieces(pieces)
    ensures GroupsIn(Join(TextsOf(pieces), ':')) == MeantBy(pieces)
  {
    if pieces != [] {
      JoinedTight(pieces);
      forall i | 0 <= i < |pieces| ensures ':' !in TextsOf(pieces)[i] {
        PieceText(pieces[i]);
      }
      SplitJoined(TextsOf(pieces), ':');
      JoinedGroups(pieces);
    }
  }

  lemma {:induction false} NoDoubleColon(text: string)
    requires forall i :: 0 <= i < |text| - 1 ==> !(text[i] == ':' && text[i + 1] == ':')
    ensures DoubleColon(text) == |text|
  {
    if |text| >= 2 {
      NoDoubleColon(text[1..]);
    }
  }

  lemma {:induction false} FirstDoubleColon(before: string, after: string)
    requires before != "" ==> before[|before| - 1] != ':'
    requires forall i :: 0 <= i < |before| - 1 ==> !(before[i] == ':' && before[i + 1] == ':')
    ensures DoubleColon(before + "::" + after) == |before|
    decreases |before|
  {
    var text := before + "::" + after;
    if before != "" {
      FirstDoubleColon(before[1..], after);
      assert text[1..] == before[1..] + "::" + after;
      assert text[0] == before[0] && (|before| > 1 ==> text[1] == before[1]);
    }
  }

  lemma FullReads(pieces: seq<Piece>)
    requires Allowed(Full(pieces))
    ensures GroupsOf(Render(Full(pieces))) == Some(MeantBy(pieces))
  {
    JoinedTight(pieces);
    ReadsPart(pieces);
    hide Join, MeantBy, GroupsIn;
    NoDoubleColon(Render(Full(pieces)));
  }

  /** Where a shortened spelling is taken apart. */
  lemma ShortParts(front: seq<Piece>, back: seq<Piece>)
    requires Allowed(Short(front, back))
    ensures var head, tail := Join(TextsOf(front), ':'), Join(TextsOf(back), ':');
            && DoubleColon(Render(Short(front, back))) == |head| && DoubleColon(tail) == |tail|
            && Render(Short(front, back))[..|head|] == head && Render(Short(front, back))[|head| + 2..] == tail
  {
    var head, tail := Join(TextsOf(front), ':'), Join(TextsOf(back), ':');
    if front != [] {
      JoinedTight(front);
    }
    if back != [] {
      JoinedTight(back);
    }
    hide Join;
    FirstDoubleColon(head, tail);
    NoDoubleColon(tail);
  }

  lemma ShortReads(front: seq<Piece>, back: seq<Piece>)
    requires Allowed(Short(front, back))
    ensures GroupsOf(Render(Short(front, back))) == Some(GroupsMeant(Short(front, back)))
  {
    hide Join, GroupsIn, DoubleColon, Render, TextsOf, GroupsOf, Zeros, ArePieces, IsGroup, MeantBy;
    var head, tail := Join(TextsOf(front), ':'), Join(TextsOf(back), ':');
    ShortParts(front, back);
    ReadsPart(front);
    ReadsPart(back);
    RenderedLength(front, back);
    PartsRead(Render(Short(front, back)), |head|, tail);
  }

  lemma RenderedLength(front: seq<Piece>, back: seq<Piece>)
    ensures |Render(Short(front, back))| == |Join(TextsOf(front), ':')| + 2 + |Join(TextsOf(back), ':')|
  {
    hide Join, TextsOf;
  }

  lemma PartsRead(address: string, i: nat, tail: string)
    requires DoubleColon(address) == i < |address| && i + 2 <= |address| && address[i + 2..] == tail
               && DoubleColon(tail) == |tail|
    requires |GroupsIn(address[..i])| + |GroupsIn(tail)| <= 8
    ensures var front, back := GroupsIn(address[..i]), GroupsIn(tail);
            GroupsOf(address) == Some(front + Zeros(8 - |front| - |back|) + back)
  {
    hide GroupsIn, DoubleColon, Zeros;
    assert tail[..|tail|] == tail;
  }

  /** Every spelling is read as the groups it stands for. */
  lemma EverySpellingReads(spelling: Spelling)
    requires Allowed(spelling)
    ensures GroupsOf(Render(spelling)) == Some(GroupsMeant(spelling)) && |GroupsMeant(spelling)| == 8
    ensures forall group :: group in GroupsMeant(spelling) ==> 0 <= group < 65536
  {
    hide GroupsOf, Render;
    GroupsFit(spelling);
    match spelling {
      case Full(pieces) => FullReads(pieces);
      case Short(front, back) => ShortReads(front, back);
    }
  }

  lemma {:induction false} ValueFits(text: string, base: nat)
    requires AllHex(text) && 0 < base
    requires forall i :: 0 <= i < |text| ==> HexValue(text[i]) < base
    ensures Value(text, base) < Power(base, |text|)
  {
    if text != "" {
      ValueFits(text[..|text| - 1], base);
      Distribute(base, Value(text[..|text| - 1], base), Power(base, |text| - 1));
    }
  }

  lemma Distribute(base: nat, one: nat, other: nat)
    requires one < other
    ensures base * one + base <= base * other
  {
    var more := other - one - 1;
    assert base * other == base * one + base + base * more;
    assert 0 <= base * more;
  }

  function Power(base: nat, n: nat): (power: nat)
    ensures base > 0 ==> power > 0
  {
    if n == 0 then 1 else base * Power(base, n - 1)
  }

  lemma PieceFits(piece: Piece)
    requires IsPiece(piece)
    ensures forall group :: group in Meant(piece) ==> 0 <= group < 65536
  {
    if piece.Group? {
      ValueFits(piece.digits, 16);
      assert Power(16, 4) == 65536 && Power(16, 3) == 4096 && Power(16, 2) == 256 && Power(16, 1) == 16;
    }
  }

  lemma {:induction false} PiecesFit(pieces: seq<Piece>)
    requires ArePieces(pieces)
    ensures forall group :: group in MeantBy(pieces) ==> 0 <= group < 65536
  {
    if pieces != [] {
      PieceFits(pieces[0]);
      PiecesFit(pieces[1..]);
    }
  }

  lemma GroupsFit(spelling: Spelling)
    requires Allowed(spelling)
    ensures |GroupsMeant(spelling)| == 8
    ensures forall group :: group in GroupsMeant(spelling) ==> 0 <= group < 65536
  {
    match spelling {
      case Full(pieces) => PiecesFit(pieces);
      case Short(front, back) =>
        PiecesFit(front);
        PiecesFit(back);
    }
  }
}
