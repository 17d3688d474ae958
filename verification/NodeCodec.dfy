/** The body of a node info message, and the printed form of node ids. */
module NodeCodec {
  import opened Bytes
  import opened Codecs

  // ---------------------------------------------------------------- variable-length integers

  const UV1 := 0x40
  const UV2 := 0x4000
  const UV4 := 0x4000_0000
  const UV8 := 0x4000_0000_0000_0000

  /** The shortest of the four forms of section 16 of RFC 9000: the top two bits of the first byte
      tell the length. */
  function EncodeUintVar(n: nat): seq<byte> {
    if n < UV1 then BE(n, 1)
    else if n < UV2 then BE(UV2 + n, 2)
    else if n < UV4 then BE(2 * UV4 + n, 4)
    else BE(3 * UV8 + n, 8)
  }

  /** The length that a first byte announces. */
  function UintVarSize(b: byte): nat {
    if b / 64 == 0 then 1 else if b / 64 == 1 then 2 else if b / 64 == 2 then 4 else 8
  }

  function UintVarRange(b: byte): nat {
    if b / 64 == 0 then UV1 else if b / 64 == 1 then UV2 else if b / 64 == 2 then UV4 else UV8
  }

  function TakeUintVar(s: seq<byte>): Parse<nat> {
    if s == [] || |s| < UintVarSize(s[0]) then Overrun
    else Parsed(Value(s[..UintVarSize(s[0])]) % UintVarRange(s[0]), s[UintVarSize(s[0])..])
  }

  /** The first byte of a big-endian number is its leading digit. */
  lemma LeadingByte(m: nat, w: nat)
    requires w > 0 && m < Pow256(w)
    ensures var s := BE(m, w);
            var p := Pow256(w - 1);
            s[0] * p <= m < s[0] * p + p
  {
    var s := BE(m, w);
    RoundTrip(m, w);
    assert s == [s[0]] + s[1..];
    ValueCons(s[0], s[1..]);
    ValueBound(s[1..]);
  }

  lemma MoreWidths()
    ensures Pow256(0) == 1 && Pow256(3) == 0x100_0000 && Pow256(7) == 0x100_0000_0000_0000
  {
    Widths();
    assert Pow256(4) == 256 * Pow256(3) && Pow256(8) == 256 * Pow256(7);
  }

  lemma UintVarFirst(n: nat)
    requires n < UV8
    ensures var s := EncodeUintVar(n);
            s != [] && |s| == UintVarSize(s[0])
            && (n < UV1 ==> s[0] / 64 == 0) && (UV1 <= n < UV2 ==> s[0] / 64 == 1)
            && (UV2 <= n < UV4 ==> s[0] / 64 == 2) && (UV4 <= n ==> s[0] / 64 == 3)
  {
    Widths();
    MoreWidths();
    if n < UV1 {
      LeadingByte(n, 1);
    } else if n < UV2 {
      LeadingByte(UV2 + n, 2);
    } else if n < UV4 {
      LeadingByte(2 * UV4 + n, 4);
    } else {
      LeadingByte(3 * UV8 + n, 8);
    }
  }

  lemma UintVarValue(n: nat)
    requires n < UV8
    ensures var s := EncodeUintVar(n);
            Value(s) == if n < UV1 then n else if n < UV2 then UV2 + n else if n < UV4 then 2 * UV4 + n else 3 * UV8 + n
  {
    Widths();
    if n < UV1 {
      RoundTrip(n, 1);
    } else if n < UV2 {
      RoundTrip(UV2 + n, 2);
    } else if n < UV4 {
      RoundTrip(2 * UV4 + n, 4);
    } else {
      RoundTrip(3 * UV8 + n, 8);
    }
  }

  lemma UintVarModulo(n: nat)
    requires n < UV8
    ensures var s := EncodeUintVar(n); s != [] && Value(s) % UintVarRange(s[0]) == n
  {
    UintVarFirst(n);
    UintVarValue(n);
  }

  lemma UintVarBack(n: nat, rest: seq<byte>)
    requires n < UV8
    ensures TakeUintVar(EncodeUintVar(n) + rest) == Parsed(n, rest)
  {
    UintVarFirst(n);
    UintVarModulo(n);
    TakeFront(EncodeUintVar(n), rest);
  }

  lemma TakeFront(s: seq<byte>, rest: seq<byte>)
    requires s != [] && |s| == UintVarSize(s[0])
    ensures TakeUintVar(s + rest) == Parsed(Value(s) % UintVarRange(s[0]), rest)
  {
    assert (s + rest)[..|s|] == s && (s + rest)[|s|..] == rest;
  }

  // ---------------------------------------------------------------- node info

  /** A path item is copied as it lies in memory. */
  const ITEM := 16

  /** The coordinates are kept as the eight bytes sent for them. */
  datatype NodeInfo = NodeInfo(id: nat, kind: byte, contact: seq<byte>, longitude: seq<byte>, latitude: seq<byte>,
                               path: seq<seq<byte>>)

  ghost predicate NodeFits(n: NodeInfo) {
    && n.id < Pow256(8) && |n.contact| < UV8 && |n.longitude| == 8 && |n.latitude| == 8
    && forall i | 0 <= i < |n.path| :: |n.path[i]| == ITEM
  }

  function EncodePath(path: seq<seq<byte>>): seq<byte> {
    if path == [] then [] else path[0] + EncodePath(path[1..])
  }

  /** Items are read to the end of the bytes. */
  function DecodePath(s: seq<byte>): Parse<seq<seq<byte>>>
    decreases |s|
  {
    if s == [] then Parsed([], [])
    else if |s| < ITEM then Overrun
    else
      var more := DecodePath(s[ITEM..]);
      if !more.Parsed? then Overrun else Parsed([s[..ITEM]] + more.value, [])
  }

  lemma {:induction false} PathBack(path: seq<seq<byte>>)
    requires forall i | 0 <= i < |path| :: |path[i]| == ITEM
    ensures DecodePath(EncodePath(path)) == Parsed(path, [])
    ensures |EncodePath(path)| == ITEM * |path|
    decreases |path|
  {
    if path != [] {
      PathBack(path[1..]);
      var s := EncodePath(path);
      assert s[..ITEM] == path[0] && s[ITEM..] == EncodePath(path[1..]);
      assert [path[0]] + path[1..] == path;
    }
  }

  function EncodePlace(n: NodeInfo): seq<byte> {
    n.contact + (n.longitude + (n.latitude + EncodePath(n.path)))
  }

  function EncodeNode(n: NodeInfo): seq<byte> {
    BE(n.id, 8) + ([n.kind] + (EncodeUintVar(|n.contact|) + EncodePlace(n)))
  }

  function DecodePlace(s: seq<byte>, id: nat, kind: byte, contactLen: nat): Parse<NodeInfo> {
    if |s| < contactLen + 16 then Overrun
    else
      var path := DecodePath(s[contactLen + 16..]);
      if !path.Parsed? then Overrun
      else
        Parsed(NodeInfo(id, kind, s[..contactLen], s[contactLen..contactLen + 8], s[contactLen + 8..contactLen + 16],
                        path.value), [])
  }

  function DecodeNode(s: seq<byte>): Parse<NodeInfo> {
    var id := TakeNumber(s, 8);
    if !id.Parsed? || id.rest == [] then Overrun
    else
      var len := TakeUintVar(id.rest[1..]);
      if !len.Parsed? then Overrun else DecodePlace(len.rest, id.value, id.rest[0], len.value)
  }

  lemma PlaceBack(n: NodeInfo)
    requires NodeFits(n)
    ensures DecodePlace(EncodePlace(n), n.id, n.kind, |n.contact|) == Parsed(n, [])
  {
    var s, k := EncodePlace(n), |n.contact|;
    assert s[..k] == n.contact && s[k..k + 8] == n.longitude && s[k + 8..k + 16] == n.latitude;
    assert s[k + 16..] == EncodePath(n.path);
    PathBack(n.path);
  }

  /** Decoding a node info gives it back. */
  lemma NodeBack(n: NodeInfo)
    requires NodeFits(n)
    ensures DecodeNode(EncodeNode(n)) == Parsed(n, [])
  {
    var rest := [n.kind] + (EncodeUintVar(|n.contact|) + EncodePlace(n));
    NumberBack(n.id, 8, rest);
    assert rest[1..] == EncodeUintVar(|n.contact|) + EncodePlace(n);
    UintVarBack(|n.contact|, EncodePlace(n));
    PlaceBack(n);
  }

  function NodeSize(n: NodeInfo): nat {
    8 + 1 + |EncodeUintVar(|n.contact|)| + |n.contact| + 8 + 8 + |n.path| * ITEM
  }

  lemma NodeSizeExact(n: NodeInfo)
    requires NodeFits(n)
    ensures |EncodeNode(n)| == NodeSize(n)
  {
    PathBack(n.path);
  }

  /** The encoder, item by item. */
  lemma PathNext(data: seq<byte>, path: seq<seq<byte>>, i: nat)
    requires i < |path|
    ensures data + EncodePath(path[i..]) == data + path[i] + EncodePath(path[i + 1..])
  {
    assert path[i..][1..] == path[i + 1..];
  }

  method SerializeNode(n: NodeInfo) returns (data: seq<byte>)
    ensures data == EncodeNode(n)
  {
    data := BE(n.id, 8);
    data := data + [n.kind];
    data := data + EncodeUintVar(|n.contact|);
    data := data + n.contact;
    data := data + n.longitude;
    data := data + n.latitude;
    ghost var head := data;
    assert n.path[0..] == n.path;
    for i := 0 to |n.path|
      invariant data + EncodePath(n.path[i..]) == head + EncodePath(n.path)
    {
      PathNext(data, n.path, i);
      data := data + n.path[i];
    }
    assert n.path[|n.path|..] == [] && data + [] == data;
    NodeParts(n);
  }

  lemma NodeParts(n: NodeInfo)
    ensures BE(n.id, 8) + [n.kind] + EncodeUintVar(|n.contact|) + n.contact + n.longitude + n.latitude + EncodePath(n.path) ==
            EncodeNode(n)
  {
  }

  /** The decoder's loop over path items. */
  method ParsePath(s: seq<byte>) returns (path: seq<seq<byte>>)
    requires DecodePath(s).Parsed?
    ensures path == DecodePath(s).value
  {
    path := [];
    var it := s;
    while it != []
      invariant DecodePath(it).Parsed?
      invariant path + DecodePath(it).value == DecodePath(s).value
      decreases |it|
    {
      assert path + ([it[..ITEM]] + DecodePath(it[ITEM..]).value) == path + [it[..ITEM]] + DecodePath(it[ITEM..]).value;
      path := path + [it[..ITEM]];
      it := it[ITEM..];
    }
  }

  // ---------------------------------------------------------------- node ids as text

  datatype Text<T> = Good(value: T) | Bad

  predicate IsDigit(c: char) {
    '0' <= c <= '9'
  }

  function Digit(d: nat): char
    requires d < 10
  {
    '0' + d as char
  }

  function DigitValue(c: char): nat {
    if IsDigit(c) then (c - '0') as nat else 0
  }

  function Decimal(n: nat): string {
    if n < 10 then [Digit(n)] else Decimal(n / 10) + [Digit(n % 10)]
  }

  /** The number that the leading digits stand for. */
  function Leading(s: string): string {
    if s == [] || !IsDigit(s[0]) then [] else [s[0]] + Leading(s[1..])
  }

  function Number(s: string): nat {
    if s == [] then 0 else 10 * Number(s[..|s| - 1]) + DigitValue(s[|s| - 1])
  }

  /** Reading an unsigned decimal stops at the first character that is not a digit, and fails without
      any digit. */
  function ReadNumber(s: string): Text<nat> {
    if Leading(s) == [] then Bad else Good(Number(Leading(s)))
  }

  /** The position of a character, or the length when there is none. */
  function Find(s: string, c: char): nat {
    if s == [] || s[0] == c then 0 else 1 + Find(s[1..], c)
  }

  /** Half of a node id: one number, or two numbers of 16 bits joined by a dot. Text after a second
      dot is cut off by the number it follows. */
  function ReadHalf(s: string): Text<nat> {
    var dot := Find(s, '.');
    if dot >= |s| then
      var all := ReadNumber(s);
      if all.Bad? || all.value >= 0x1_0000_0000_0000_0000 then Bad else Good(all.value % 0x1_0000_0000)
    else
      var hi, lo := ReadNumber(s[..dot]), ReadNumber(s[dot + 1..]);
      if hi.Bad? || hi.value > 0xFFFF || lo.Bad? || lo.value > 0xFFFF then Bad
      else Good(hi.value * 0x1_0000 + lo.value)
  }

  function ReadId(s: string): Text<nat> {
    var colon := Find(s, ':');
    if colon >= |s| then Bad
    else
      var hi, lo := ReadHalf(s[..colon]), ReadHalf(s[colon + 1..]);
      if hi.Bad? || lo.Bad? then Bad else Good(hi.value * 0x1_0000_0000 + lo.value)
  }

  function PrintHalf(n: nat): string {
    Decimal(n / 0x1_0000) + "." + Decimal(n % 0x1_0000)
  }

  /** Four 16-bit numbers. */
  function PrintId(id: nat): string {
    PrintHalf(id / 0x1_0000_0000) + ":" + PrintHalf(id % 0x1_0000_0000)
  }

  ghost predicate Digits(s: string) {
    forall i | 0 <= i < |s| :: IsDigit(s[i])
  }

  lemma {:induction false} DecimalDigits(n: nat)
    ensures Digits(Decimal(n)) && Decimal(n) != [] && Number(Decimal(n)) == n
  {
    if n < 10 {
      assert [Digit(n)][..0] == [];
    } else {
      DecimalDigits(n / 10);
      assert Decimal(n)[..|Decimal(n)| - 1] == Decimal(n / 10);
    }
  }

  lemma {:induction false} LeadingAll(s: string)
    requires Digits(s)
    ensures Leading(s) == s
  {
    if s != [] {
      LeadingAll(s[1..]);
    }
  }

  lemma ReadDecimal(n: nat)
    ensures ReadNumber(Decimal(n)) == Good(n)
  {
    DecimalDigits(n);
    LeadingAll(Decimal(n));
  }

  lemma {:induction false} FindAfter(a: string, c: char, b: string)
    requires c !in a
    ensures Find(a + [c] + b, c) == |a|
  {
    if a == [] {
      assert a + [c] + b == [c] + b;
    } else {
      FindAfter(a[1..], c, b);
      assert (a + [c] + b)[1..] == a[1..] + [c] + b;
    }
  }

  lemma HalfBack(n: nat)
    requires n < 0x1_0000_0000
    ensures ReadHalf(PrintHalf(n)) == Good(n) && ':' !in PrintHalf(n)
  {
    var a, b := Decimal(n / 0x1_0000), Decimal(n % 0x1_0000);
    DecimalDigits(n / 0x1_0000);
    DecimalDigits(n % 0x1_0000);
    ReadDecimal(n / 0x1_0000);
    ReadDecimal(n % 0x1_0000);
    FindAfter(a, '.', b);
    assert PrintHalf(n)[..|a|] == a && PrintHalf(n)[|a| + 1..] == b;
  }

  /** Parsing the printed text of any 64-bit node id returns that id. */
  lemma IdBack(id: nat)
    requires id < 0x1_0000_0000_0000_0000
    ensures ReadId(PrintId(id)) == Good(id)
  {
    var a, b := PrintHalf(id / 0x1_0000_0000), PrintHalf(id % 0x1_0000_0000);
    HalfBack(id / 0x1_0000_0000);
    HalfBack(id % 0x1_0000_0000);
    ReadTwoHalves(a, b, id / 0x1_0000_0000, id % 0x1_0000_0000);
  }

  lemma ReadTwoHalves(a: string, b: string, hi: nat, lo: nat)
    requires ':' !in a && ReadHalf(a) == Good(hi) && ReadHalf(b) == Good(lo)
    ensures ReadId(a + ":" + b) == Good(hi * 0x1_0000_0000 + lo)
  {
    FindAfter(a, ':', b);
    assert (a + ":" + b)[..|a|] == a && (a + ":" + b)[|a| + 1..] == b;
  }
}
