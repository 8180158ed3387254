/** The RML wire codec.  A frame is a two-byte header (body length, type
    letter), a body laid out by a fixed `struct` format, and a two-byte CRC
    footer.  Formats use native alignment on a little-endian host: a field of
    size s starts at the next multiple of s, and multi-byte integers are
    stored least significant byte first. */
module Rml {
  import opened Common
  import Crc15

  // ---------------------------------------------------------------------
  // Field layouts

  /** `struct` format characters used by the protocol:
      B, c, H, h, Q, q. */
  datatype Field = U8 | Char | U16 | I16 | U64 | I64

  function Size(f: Field): nat {
    match f
    case U8 => 1
    case Char => 1
    case U16 => 2
    case I16 => 2
    case U64 => 8
    case I64 => 8
  }

  predicate Signed(f: Field) {
    f == I16 || f == I64
  }

  /** A value handed to or produced by `struct`: an integer, or a one-byte
      `bytes` object for the `c` format. */
  datatype Value = Num(n: int) | Chr(c: Byte)

  function Pow256(k: nat): (r: nat)
    ensures r >= 1
  {
    if k == 0 then 1 else 256 * Pow256(k - 1)
  }

  /** 2^(8 * size): the number of bit patterns of a numeric field. */
  function Modulus(f: Field): (r: nat)
    ensures r == Pow256(Size(f))
  {
    assert Pow256(2) == 0x1_0000;
    assert Pow256(8) == 0x1_0000_0000_0000_0000;
    match f
    case U8 => 0x100
    case Char => 0x100
    case U16 => 0x1_0000
    case I16 => 0x1_0000
    case U64 => 0x1_0000_0000_0000_0000
    case I64 => 0x1_0000_0000_0000_0000
  }

  /** The integers a numeric field can hold: `MinOf(f) <= n < Bound(f)`. */
  function MinOf(f: Field): int {
    match f
    case I16 => -0x8000
    case I64 => -0x8000_0000_0000_0000
    case _ => 0
  }

  function Bound(f: Field): int {
    match f
    case I16 => 0x8000
    case I64 => 0x8000_0000_0000_0000
    case _ => Modulus(f)
  }

  /** `struct.pack` accepts `v` for field `f`. */
  predicate Fits(f: Field, v: Value) {
    if f == Char then v.Chr? else v.Num? && MinOf(f) <= v.n < Bound(f)
  }

  predicate Conforms(layout: seq<Field>, vals: seq<Value>) {
    |layout| == |vals| && forall i | 0 <= i < |vals| :: Fits(layout[i], vals[i])
  }

  // ---------------------------------------------------------------------
  // Byte orders

  /** The low `k` bytes of `n`, least significant first. */
  function LittleEndian(n: nat, k: nat): (r: seq<Byte>)
    ensures |r| == k
  {
    if k == 0 then [] else [n % 256] + LittleEndian(n / 256, k - 1)
  }

  function FromLittleEndian(bs: seq<Byte>): (r: nat)
    ensures r < Pow256(|bs|)
  {
    if |bs| == 0 then 0
    else
      var rest := FromLittleEndian(bs[1..]);
      assert rest <= Pow256(|bs| - 1) - 1;
      assert 256 * rest <= 256 * Pow256(|bs| - 1) - 256;
      bs[0] + 256 * rest
  }

  /** `int.from_bytes(bs, 'big')`. */
  function FromBigEndian(bs: seq<Byte>): (r: nat)
    ensures r < Pow256(|bs|)
  {
    if |bs| == 0 then 0
    else
      var rest := FromBigEndian(bs[..|bs| - 1]);
      assert rest <= Pow256(|bs| - 1) - 1;
      assert 256 * rest <= 256 * Pow256(|bs| - 1) - 256;
      rest * 256 + bs[|bs| - 1]
  }

  lemma {:induction false} LittleEndianRoundTrip(n: nat, k: nat)
    requires n < Pow256(k)
    ensures FromLittleEndian(LittleEndian(n, k)) == n
    decreases k
  {
    if k > 0 {
      var bs := LittleEndian(n, k);
      assert bs[1..] == LittleEndian(n / 256, k - 1);
      assert n / 256 < Pow256(k - 1);
      LittleEndianRoundTrip(n / 256, k - 1);
    }
  }

  lemma {:induction false} FromLittleEndianRoundTrip(bs: seq<Byte>)
    ensures LittleEndian(FromLittleEndian(bs), |bs|) == bs
    decreases |bs|
  {
    if |bs| > 0 {
      var n := FromLittleEndian(bs);
      var rest := FromLittleEndian(bs[1..]);
      assert n % 256 == bs[0] && n / 256 == rest;
      FromLittleEndianRoundTrip(bs[1..]);
    }
  }

  // ---------------------------------------------------------------------
  // One field

  /** The bytes `struct.pack` writes for one field; a negative value of a
      signed field is stored in two's complement. */
  function EncodeField(f: Field, v: Value): (r: seq<Byte>)
    requires Fits(f, v)
    ensures |r| == Size(f)
  {
    if f == Char then [v.c]
    else if v.n < 0 then LittleEndian(v.n + Modulus(f), Size(f))
    else LittleEndian(v.n, Size(f))
  }

  /** The value `struct.unpack` reads for one field. */
  function DecodeField(f: Field, bs: seq<Byte>): (r: Value)
    requires |bs| == Size(f)
    ensures Fits(f, r)
  {
    if f == Char then Chr(bs[0])
    else
      var u := FromLittleEndian(bs);
      if Signed(f) && u >= Bound(f) then Num(u - Modulus(f))
      else Num(u)
  }

  lemma FieldRoundTrip(f: Field, v: Value)
    requires Fits(f, v)
    ensures DecodeField(f, EncodeField(f, v)) == v
  {
    if f != Char {
      var k := Size(f);
      if v.n < 0 {
        LittleEndianRoundTrip(v.n + Modulus(f), k);
      } else {
        assert v.n < Bound(f) <= Modulus(f);
        LittleEndianRoundTrip(v.n, k);
      }
    }
  }

  // ---------------------------------------------------------------------
  // Whole layouts, with native alignment

  /** Zero bytes inserted before a field at offset `off` so that it starts
      at a multiple of its own size. */
  function Pad(off: nat, f: Field): (r: nat)
    ensures r < Size(f)
  {
    match f
    case U8 => 0
    case Char => 0
    case U16 => off % 2
    case I16 => off % 2
    case U64 => (8 - off % 8) % 8
    case I64 => (8 - off % 8) % 8
  }

  /** The offset just past a field that is placed at offset `off`. */
  function Next(off: nat, f: Field): (r: nat)
    ensures r >= off + Size(f)
  {
    off + Pad(off, f) + Size(f)
  }

  /** The offset just past a layout that starts at offset `off`. */
  function EndFrom(off: nat, layout: seq<Field>): (r: nat)
    ensures r >= off
    decreases |layout|
  {
    if |layout| == 0 then off else EndFrom(Next(off, layout[0]), layout[1..])
  }

  /** `struct.calcsize` of a layout (no trailing padding in native mode). */
  function CalcSize(layout: seq<Field>): nat {
    EndFrom(0, layout)
  }

  function Zeros(n: nat): (r: seq<Byte>)
    ensures |r| == n && forall i | 0 <= i < n :: r[i] == 0
  {
    if n == 0 then [] else [0] + Zeros(n - 1)
  }

  /** The bytes of `vals` laid out by `layout` from offset `off` on. */
  function PackFrom(off: nat, layout: seq<Field>, vals: seq<Value>): (r: seq<Byte>)
    requires Conforms(layout, vals)
    ensures off + |r| == EndFrom(off, layout)
    decreases |layout|
  {
    if |layout| == 0 then []
    else
      Zeros(Pad(off, layout[0])) + EncodeField(layout[0], vals[0])
        + PackFrom(Next(off, layout[0]), layout[1..], vals[1..])
  }

  /** The values read from `data` laid out by `layout` from offset `off` on;
      padding bytes are skipped whatever they hold. */
  function UnpackFrom(off: nat, layout: seq<Field>, data: seq<Byte>): (r: seq<Value>)
    requires off + |data| == EndFrom(off, layout)
    ensures Conforms(layout, r)
    decreases |layout|
  {
    if |layout| == 0 then []
    else
      var skip := Pad(off, layout[0]);
      var len := skip + Size(layout[0]);
      [DecodeField(layout[0], data[skip..len])]
        + UnpackFrom(Next(off, layout[0]), layout[1..], data[len..])
  }

  lemma {:induction false} UnpackPackFrom(off: nat, layout: seq<Field>, vals: seq<Value>)
    requires Conforms(layout, vals)
    ensures UnpackFrom(off, layout, PackFrom(off, layout, vals)) == vals
    decreases |layout|
  {
    if |layout| > 0 {
      var f := layout[0];
      var skip := Pad(off, f);
      var len := skip + Size(f);
      var field := EncodeField(f, vals[0]);
      assert Conforms(layout[1..], vals[1..]);
      var rest := PackFrom(Next(off, f), layout[1..], vals[1..]);
      var data := Zeros(skip) + field + rest;
      assert data[skip..len] == field;
      assert data[len..] == rest;
      FieldRoundTrip(f, vals[0]);
      UnpackPackFrom(Next(off, f), layout[1..], vals[1..]);
    }
  }

  /** Why a `struct`, dictionary or `bytes` operation raises. */
  datatype CodecError =
    | UnknownType(t: Byte)                  // KeyError on STRUCT_FORMATS
    | ArgumentCount(expected: nat, got: nat) // struct.error / TypeError
    | BadValue                              // struct.error: value out of range or wrong kind
    | SizeMismatch(expected: nat, got: nat)  // struct.error on unpack
    | NotAByte(n: int)                      // ValueError from bytes([n])

  /** `struct.pack(layout, *vals)`. */
  function Pack(layout: seq<Field>, vals: seq<Value>): (r: Result<seq<Byte>, CodecError>)
    ensures r.Ok? <==> Conforms(layout, vals)
    ensures r.Ok? ==> |r.value| == CalcSize(layout)
  {
    if |vals| != |layout| then Err(ArgumentCount(|layout|, |vals|))
    else if !Conforms(layout, vals) then Err(BadValue)
    else Ok(PackFrom(0, layout, vals))
  }

  /** `struct.unpack(layout, data)`: fails unless the data has exactly the
      layout's size. */
  function Unpack(layout: seq<Field>, data: seq<Byte>): (r: Result<seq<Value>, CodecError>)
    ensures r.Ok? <==> |data| == CalcSize(layout)
    ensures r.Ok? ==> Conforms(layout, r.value)
  {
    if |data| != CalcSize(layout) then Err(SizeMismatch(CalcSize(layout), |data|))
    else Ok(UnpackFrom(0, layout, data))
  }

  /** Unpacking what was packed gives back the values. */
  lemma UnpackPack(layout: seq<Field>, vals: seq<Value>)
    requires Conforms(layout, vals)
    ensures Pack(layout, vals).Ok?
    ensures Unpack(layout, Pack(layout, vals).value) == Ok(vals)
  {
    UnpackPackFrom(0, layout, vals);
  }

  // ---------------------------------------------------------------------
  // Protocol tables

  const HELLO: Byte := 0x48  // 'H'
  const ACK: Byte := 0x41  // 'A'
  const UPDATE: Byte := 0x55  // 'U'
  const CALIBRATE: Byte := 0x43  // 'C'
  const POSITION: Byte := 0x50  // 'P'
  const SINUSOIDAL: Byte := 0x53  // 'S'
  const WALK: Byte := 0x57  // 'W'
  const FOOTER: Byte := 0x46  // 'F'
  const EPOCH: Byte := 0x54  // 'T'
  const LIST: Byte := 0x4c  // 'L'
  const LIST_END: Byte := 0x45  // 'E'

  const HeaderLayout: seq<Field> := [U8, Char]
  const HelloLayout: seq<Field> := [U8, U8]
  const AckLayout: seq<Field> := [U8]
  const UpdateLayout: seq<Field> := [Char, U8, U8, U8, U8, U8, U8, U8, U16]
  const CalibrationConstantsLayout: seq<Field> := [U64, U16, U16, U16, U16, U16, U16, U16, U16]
  const PositionLayout: seq<Field> := [U8, U8, U8, U8]
  const SinusoidalLayout: seq<Field> := [U16, U8, U8, I16, U16, U8, U8, I16, U16]
  const WalkLayout: seq<Field> := [Char]
  const FooterLayout: seq<Field> := [U16]
  const EpochLayout: seq<Field> := [I64]
  const ListHeaderLayout: seq<Field> := [I16, U16]

  /** `STRUCT_FORMATS`: the body layout of each type letter that can be
      decoded.  The calibration letter maps to the calibration-constants
      layout, although a calibration command is sent with an empty body. */
  function StructFormat(t: Byte): Option<seq<Field>> {
    if t == HELLO then Some(HelloLayout)
    else if t == ACK then Some(AckLayout)
    else if t == UPDATE then Some(UpdateLayout)
    else if t == CALIBRATE then Some(CalibrationConstantsLayout)
    else if t == POSITION then Some(PositionLayout)
    else if t == SINUSOIDAL then Some(SinusoidalLayout)
    else if t == WALK then Some(WalkLayout)
    else if t == FOOTER then Some(FooterLayout)
    else if t == EPOCH then Some(EpochLayout)
    else None
  }

  /** `HEADERS`: the fixed header of each type the server sends. */
  function HeaderOf(t: Byte): Option<seq<Byte>> {
    if t == ACK then Some([1, ACK])
    else if t == CALIBRATE then Some([0, CALIBRATE])
    else if t == POSITION then Some([4, POSITION])
    else if t == SINUSOIDAL then Some([14, SINUSOIDAL])
    else if t == WALK then Some([1, WALK])
    else if t == EPOCH then Some([8, EPOCH])
    else None
  }

  // ---------------------------------------------------------------------
  // RMLPacker

  /** `encode`: a calibration body is empty whatever the data; any other
      type is packed by its layout. */
  function Encode(t: Byte, vals: seq<Value>): (r: Result<seq<Byte>, CodecError>)
    ensures t == CALIBRATE ==> r == Ok([])
    ensures t != CALIBRATE ==> (r.Ok? <==> StructFormat(t).Some? && Conforms(StructFormat(t).value, vals))
  {
    if t == CALIBRATE then Ok([])
    else match StructFormat(t)
      case None => Err(UnknownType(t))
      case Some(layout) => Pack(layout, vals)
  }

  /** `decode`: unknown type letters raise, and so does a body whose length
      differs from the layout's size. */
  function Decode(t: Byte, body: seq<Byte>): (r: Result<seq<Value>, CodecError>)
    ensures StructFormat(t).None? ==> r == Err(UnknownType(t))
    ensures StructFormat(t).Some? ==>
              (r.Ok? <==> |body| == CalcSize(StructFormat(t).value))
    ensures r.Ok? ==> Conforms(StructFormat(t).value, r.value)
  {
    match StructFormat(t)
    case None => Err(UnknownType(t))
    case Some(layout) => Unpack(layout, body)
  }

  /** Decoding what was encoded gives back the values, for every type letter
      but the calibration one. */
  lemma EncodeDecode(t: Byte, vals: seq<Value>)
    requires t != CALIBRATE && StructFormat(t).Some? && Conforms(StructFormat(t).value, vals)
    ensures Encode(t, vals).Ok? && Decode(t, Encode(t, vals).value) == Ok(vals)
  {
    UnpackPack(StructFormat(t).value, vals);
  }

  /** Reading a single little-endian field at the start of a layout. */
  lemma UnpackFirstField(off: nat, layout: seq<Field>, data: seq<Byte>)
    requires |layout| > 0 && off + |data| == EndFrom(off, layout)
    ensures UnpackFrom(off, layout, data)[0]
            == DecodeField(layout[0], data[Pad(off, layout[0])..Pad(off, layout[0]) + Size(layout[0])])
  {
  }

  lemma FromLittleEndianShort(bs: seq<Byte>)
    ensures |bs| == 1 ==> FromLittleEndian(bs) == bs[0]
    ensures |bs| == 2 ==> FromLittleEndian(bs) == bs[0] as int + 256 * bs[1] as int
  {
    if |bs| == 2 {
      assert FromLittleEndian(bs[1..]) == bs[1];
    }
  }

  /** `decode_header`: the first byte is the body length and the second the
      type letter; a header of any other length than two raises. */
  function DecodeHeader(header: seq<Byte>): (r: Result<(nat, Byte), CodecError>)
    ensures r.Ok? <==> |header| == 2
    ensures r.Ok? ==> r.value == (header[0] as nat, header[1])
  {
    HeaderSize();
    match Unpack(HeaderLayout, header)
    case Err(e) => Err(e)
    case Ok(fields) =>
      UnpackFirstField(0, HeaderLayout, header);
      UnpackFirstField(1, HeaderLayout[1..], header[1..]);
      FromLittleEndianShort(header[..1]);
      Ok((fields[0].n, fields[1].c))
  }

  /** `make_crc_footer`: the checksum of header and body as two big-endian
      bytes. */
  function MakeCrcFooter(headerAndBody: seq<Byte>): (r: seq<Byte>)
    ensures |r| == 2 && r[0] < 0x80
    ensures FromBigEndian(r) == Crc15.Crc(headerAndBody)
  {
    var crc := Crc15.Crc(headerAndBody);
    [crc / 256, crc % 256]
  }

  /** `verify_checksum`: the footer read as a little-endian 16-bit value
      equals the checksum of header and body; a footer of any other length
      than two raises. */
  function VerifyChecksum(header: seq<Byte>, body: seq<Byte>, footer: seq<Byte>): (r: Result<bool, CodecError>)
    ensures r.Ok? <==> |footer| == 2
  {
    match Unpack(FooterLayout, footer)
    case Err(e) => Err(e)
    case Ok(fields) => Ok(fields[0].n == Crc15.Crc(header + body))
  }

  /** The byte order `send_package` puts the footer on the wire in. */
  function Swap(footer: seq<Byte>): (r: seq<Byte>)
    requires |footer| == 2
    ensures |r| == 2 && r[0] == footer[1] && r[1] == footer[0]
  {
    [footer[1], footer[0]]
  }

  /** A two-byte footer verifies exactly when it is the byte-swapped
      `make_crc_footer` of header and body; in particular every footer the
      server sends verifies. */
  lemma VerifyChecksumExactly(header: seq<Byte>, body: seq<Byte>, footer: seq<Byte>)
    requires |footer| == 2
    ensures VerifyChecksum(header, body, footer) == Ok(footer == Swap(MakeCrcFooter(header + body)))
  {
    FooterSize();
    var crc := Crc15.Crc(header + body);
    UnpackFirstField(0, FooterLayout, footer);
    assert footer[Pad(0, U16)..Pad(0, U16) + Size(U16)] == footer;
    FromLittleEndianShort(footer);
    assert Unpack(FooterLayout, footer).value[0] == Num(FromLittleEndian(footer));
    var lo: int := footer[0];
    var hi: int := footer[1];
    assert lo + 256 * hi == crc <==> lo == crc % 256 && hi == crc / 256;
    assert footer == [lo, hi];
    assert Swap(MakeCrcFooter(header + body)) == [crc % 256, crc / 256];
  }

  lemma SentFooterVerifies(header: seq<Byte>, body: seq<Byte>)
    ensures VerifyChecksum(header, body, Swap(MakeCrcFooter(header + body))) == Ok(true)
  {
    VerifyChecksumExactly(header, body, Swap(MakeCrcFooter(header + body)));
  }

  // ---------------------------------------------------------------------
  // Packages sent by the server

  /** A header-and-body together with its (big-endian) CRC footer. */
  datatype Package = Package(headerAndBody: seq<Byte>, footer: seq<Byte>)

  predicate FooterMatches(p: Package) {
    p.footer == MakeCrcFooter(p.headerAndBody)
  }

  /** The common shape of the `make_*_package` builders: the fixed header
      followed by the encoded body, and the footer of both. */
  function MakePackage(t: Byte, vals: seq<Value>): (r: Result<Package, CodecError>)
    requires HeaderOf(t).Some?
    ensures r.Ok? <==> Encode(t, vals).Ok?
    ensures r.Ok? ==> r.value.headerAndBody == HeaderOf(t).value + Encode(t, vals).value
    ensures r.Ok? ==> FooterMatches(r.value)
  {
    match Encode(t, vals)
    case Err(e) => Err(e)
    case Ok(body) =>
      var hb := HeaderOf(t).value + body;
      Ok(Package(hb, MakeCrcFooter(hb)))
  }

  /** The sizes `struct.calcsize` gives for the protocol's layouts; no
      layout needs alignment padding. */
  lemma LayoutSizes()
    ensures CalcSize(HeaderLayout) == 2 && CalcSize(HelloLayout) == 2
    ensures CalcSize(AckLayout) == 1 && CalcSize(UpdateLayout) == 10
    ensures CalcSize(CalibrationConstantsLayout) == 24 && CalcSize(PositionLayout) == 4
    ensures CalcSize(SinusoidalLayout) == 14 && CalcSize(WalkLayout) == 1
    ensures CalcSize(FooterLayout) == 2 && CalcSize(EpochLayout) == 8
    ensures CalcSize(ListHeaderLayout) == 4
  {
    HeaderSize();
    HelloSize();
    AckSize();
    UpdateSize();
    CalibrationConstantsSize();
    PositionSize();
    SinusoidalSize();
    WalkSize();
    FooterSize();
    EpochSize();
    ListHeaderSize();
  }

  lemma HeaderSize()
    ensures CalcSize(HeaderLayout) == 2
  {
    assert Next(0, U8) == 1 && Next(1, Char) == 2;
  }

  lemma HelloSize()
    ensures CalcSize(HelloLayout) == 2
  {
    assert Next(0, U8) == 1 && Next(1, U8) == 2;
  }

  lemma AckSize()
    ensures CalcSize(AckLayout) == 1
  {
    assert Next(0, U8) == 1;
  }

  lemma UpdateSize()
    ensures CalcSize(UpdateLayout) == 10
  {
    assert Next(0, Char) == 1 && Next(1, U8) == 2 && Next(2, U8) == 3;
    assert Next(3, U8) == 4 && Next(4, U8) == 5 && Next(5, U8) == 6;
    assert Next(6, U8) == 7 && Next(7, U8) == 8 && Next(8, U16) == 10;
  }

  lemma CalibrationConstantsSize()
    ensures CalcSize(CalibrationConstantsLayout) == 24
  {
    assert Next(0, U64) == 8 && Next(8, U16) == 10 && Next(10, U16) == 12;
    assert Next(12, U16) == 14 && Next(14, U16) == 16 && Next(16, U16) == 18;
    assert Next(18, U16) == 20 && Next(20, U16) == 22 && Next(22, U16) == 24;
  }

  lemma PositionSize()
    ensures CalcSize(PositionLayout) == 4
  {
    assert Next(0, U8) == 1 && Next(1, U8) == 2 && Next(2, U8) == 3;
    assert Next(3, U8) == 4;
  }

  lemma SinusoidalSize()
    ensures CalcSize(SinusoidalLayout) == 14
  {
    assert Next(0, U16) == 2 && Next(2, U8) == 3 && Next(3, U8) == 4;
    assert Next(4, I16) == 6 && Next(6, U16) == 8 && Next(8, U8) == 9;
    assert Next(9, U8) == 10 && Next(10, I16) == 12 && Next(12, U16) == 14;
  }

  lemma WalkSize()
    ensures CalcSize(WalkLayout) == 1
  {
    assert Next(0, Char) == 1;
  }

  lemma FooterSize()
    ensures CalcSize(FooterLayout) == 2
  {
    assert Next(0, U16) == 2;
  }

  lemma EpochSize()
    ensures CalcSize(EpochLayout) == 8
  {
    assert Next(0, I64) == 8;
  }

  lemma ListHeaderSize()
    ensures CalcSize(ListHeaderLayout) == 4
  {
    assert Next(0, I16) == 2 && Next(2, U16) == 4;
  }

  /** The length byte of every header equals the size of its type's body
      layout, and the second byte is the type letter; the calibration header
      announces an empty body. */
  lemma HeaderLengthIsBodySize(t: Byte)
    requires HeaderOf(t).Some?
    ensures |HeaderOf(t).value| == 2 && HeaderOf(t).value[1] == t
    ensures t == CALIBRATE ==> HeaderOf(t).value[0] == 0
    ensures t != CALIBRATE ==> StructFormat(t).Some? && HeaderOf(t).value[0] == CalcSize(StructFormat(t).value)
  {
    if t == POSITION {
      PositionSize();
    } else if t == SINUSOIDAL {
      SinusoidalSize();
    } else if t == EPOCH {
      EpochSize();
    } else if t == ACK {
      AckSize();
    } else if t == WALK {
      WalkSize();
    }
  }

  /** Every package built for a sendable type other than calibration has a
      header naming its type and body length, decodes back to the values it
      was built from, and carries the matching footer. */
  lemma MakePackageRoundTrip(t: Byte, vals: seq<Value>)
    requires HeaderOf(t).Some? && t != CALIBRATE
    requires StructFormat(t).Some? && Conforms(StructFormat(t).value, vals)
    ensures MakePackage(t, vals).Ok?
    ensures var p := MakePackage(t, vals).value;
      |p.headerAndBody| >= 2 && p.headerAndBody[0] == |p.headerAndBody| - 2
      && p.headerAndBody[1] == t && FooterMatches(p)
      && Decode(t, p.headerAndBody[2..]) == Ok(vals)
  {
    EncodeDecode(t, vals);
    HeaderLengthIsBodySize(t);
    var p := MakePackage(t, vals).value;
    assert p.headerAndBody[2..] == Encode(t, vals).value;
  }

  /** The calibration command is not symmetric: its empty body does not
      decode, because decoding a calibration letter expects the 24-byte
      calibration-constants layout. */
  lemma CalibrationBodyDoesNotDecode()
    ensures Encode(CALIBRATE, []) == Ok([])
    ensures CalcSize(CalibrationConstantsLayout) == 24
    ensures Decode(CALIBRATE, []).Err?
  {
    CalibrationConstantsSize();
  }

  /** An Update body is ten bytes: a status character, seven unsigned bytes
      and one unsigned 16-bit value (no alignment padding is needed). */
  lemma UpdateBodyIsTenBytes(body: seq<Byte>)
    ensures Decode(UPDATE, body).Ok? <==> |body| == 10
    ensures Decode(UPDATE, body).Ok? ==> |Decode(UPDATE, body).value| == 9
    ensures UpdateLayout[0] == Char && UpdateLayout[8] == U16
    ensures forall i | 1 <= i < 8 :: UpdateLayout[i] == U8
  {
    UpdateSize();
  }

  /** Letters outside the table, such as the list letters, do not decode. */
  lemma ListLettersDoNotDecode(body: seq<Byte>)
    ensures Decode(LIST, body) == Err(UnknownType(LIST))
    ensures Decode(LIST_END, body) == Err(UnknownType(LIST_END))
  {
  }

  function MakeCalibratePackage(): (r: Package)
    ensures r.headerAndBody == [0, CALIBRATE] && FooterMatches(r)
  {
    MakePackage(CALIBRATE, []).value
  }

  function Nums(ns: seq<Byte>): (r: seq<Value>)
    ensures |r| == |ns| && forall i | 0 <= i < |ns| :: r[i] == Num(ns[i])
  {
    if |ns| == 0 then [] else [Num(ns[0])] + Nums(ns[1..])
  }

  /** One unsigned byte packs as itself, with no padding before it. */
  lemma PackOneByte(off: nat, n: Byte)
    ensures Fits(U8, Num(n))
    ensures Zeros(Pad(off, U8)) + EncodeField(U8, Num(n)) == [n]
    ensures Next(off, U8) == off + 1
  {
    assert LittleEndian(n, 1) == [n % 256] + LittleEndian(n / 256, 0);
  }

  /** A layout of unsigned bytes packs each value as itself. */
  lemma {:induction false} PackBytes(off: nat, layout: seq<Field>, ns: seq<Byte>)
    requires |layout| == |ns|
    requires forall i | 0 <= i < |layout| :: layout[i] == U8
    ensures Conforms(layout, Nums(ns))
    ensures PackFrom(off, layout, Nums(ns)) == ns
    decreases |layout|
  {
    var vals := Nums(ns);
    assert Conforms(layout, vals) by {
      forall i | 0 <= i < |vals|
        ensures Fits(layout[i], vals[i])
      {
        assert layout[i] == U8 && vals[i] == Num(ns[i]);
      }
    }
    if |layout| > 0 {
      assert layout[0] == U8 && vals[0] == Num(ns[0]);
      assert vals[1..] == Nums(ns[1..]);
      PackBytes(off + 1, layout[1..], ns[1..]);
      PackOneByte(off, ns[0]);
      assert PackFrom(off, layout, vals) == [ns[0]] + ns[1..];
      assert [ns[0]] + ns[1..] == ns;
    }
  }

  /** A position body is the four values themselves, each of which must be
      an unsigned byte. */
  lemma EncodePosition(a: int, b: int, c: int, d: int)
    ensures Encode(POSITION, [Num(a), Num(b), Num(c), Num(d)]).Ok?
            <==> 0 <= a < 256 && 0 <= b < 256 && 0 <= c < 256 && 0 <= d < 256
    ensures Encode(POSITION, [Num(a), Num(b), Num(c), Num(d)]).Ok?
            ==> Encode(POSITION, [Num(a), Num(b), Num(c), Num(d)]).value == [a, b, c, d]
  {
    var vals := [Num(a), Num(b), Num(c), Num(d)];
    if 0 <= a < 256 && 0 <= b < 256 && 0 <= c < 256 && 0 <= d < 256 {
      var bs: seq<Byte> := [a, b, c, d];
      assert Nums(bs) == vals;
      PackBytes(0, PositionLayout, bs);
    } else {
      assert !(Fits(PositionLayout[0], vals[0]) && Fits(PositionLayout[1], vals[1])
               && Fits(PositionLayout[2], vals[2]) && Fits(PositionLayout[3], vals[3]));
    }
  }

  /** `make_position_package`: four unsigned bytes (two targets and two
      velocities). */
  function MakePositionPackage(srv0Pos: int, srv1Pos: int, srv0Vel: int, srv1Vel: int): (r: Result<Package, CodecError>)
    ensures r.Ok? <==> 0 <= srv0Pos < 256 && 0 <= srv1Pos < 256 && 0 <= srv0Vel < 256 && 0 <= srv1Vel < 256
    ensures r.Ok? ==> r.value.headerAndBody == [4, POSITION] + [srv0Pos, srv1Pos, srv0Vel, srv1Vel]
    ensures r.Ok? ==> FooterMatches(r.value)
  {
    EncodePosition(srv0Pos, srv1Pos, srv0Vel, srv1Vel);
    MakePackage(POSITION, [Num(srv0Pos), Num(srv1Pos), Num(srv0Vel), Num(srv1Vel)])
  }

  /** The values of a sinusoid body, in layout order. */
  function SinusoidalValues(startTime: int, a0: int, x0: int, ps0: int, p0: int,
                            a1: int, x1: int, ps1: int, p1: int): (r: seq<Value>)
    ensures |r| == 9 && r[0] == Num(startTime) && r[8] == Num(p1)
  {
    [Num(startTime), Num(a0), Num(x0), Num(ps0), Num(p0), Num(a1), Num(x1), Num(ps1), Num(p1)]
  }

  /** The ranges of a sinusoid body: an unsigned 16-bit start time, then for
      each servo an unsigned byte amplitude and offset, a signed 16-bit phase
      shift and an unsigned 16-bit period. */
  predicate SinusoidalInRange(startTime: int, a0: int, x0: int, ps0: int, p0: int,
                              a1: int, x1: int, ps1: int, p1: int) {
    && 0 <= startTime < 0x1_0000
    && 0 <= a0 < 0x100 && 0 <= x0 < 0x100 && -0x8000 <= ps0 < 0x8000 && 0 <= p0 < 0x1_0000
    && 0 <= a1 < 0x100 && 0 <= x1 < 0x100 && -0x8000 <= ps1 < 0x8000 && 0 <= p1 < 0x1_0000
  }

  /** The sinusoid values conform to the sinusoid layout exactly when they
      are in range. */
  lemma SinusoidalConforms(startTime: int, a0: int, x0: int, ps0: int, p0: int,
                           a1: int, x1: int, ps1: int, p1: int)
    ensures Conforms(SinusoidalLayout, SinusoidalValues(startTime, a0, x0, ps0, p0, a1, x1, ps1, p1))
            <==> SinusoidalInRange(startTime, a0, x0, ps0, p0, a1, x1, ps1, p1)
  {
    var vals := SinusoidalValues(startTime, a0, x0, ps0, p0, a1, x1, ps1, p1);
    var layout := SinusoidalLayout;
    assert Fits(U16, Num(startTime)) <==> 0 <= startTime < 0x1_0000;
    assert Fits(I16, Num(ps0)) <==> -0x8000 <= ps0 < 0x8000;
    assert Fits(I16, Num(ps1)) <==> -0x8000 <= ps1 < 0x8000;
    assert Conforms(layout, vals) <==> (
      Fits(layout[0], vals[0]) && Fits(layout[1], vals[1]) && Fits(layout[2], vals[2])
        && Fits(layout[3], vals[3]) && Fits(layout[4], vals[4]) && Fits(layout[5], vals[5])
        && Fits(layout[6], vals[6]) && Fits(layout[7], vals[7]) && Fits(layout[8], vals[8]));
  }

  /** A sinusoid body packs exactly when every value is in range, and then
      decodes back to the values. */
  lemma EncodeSinusoidal(startTime: int, a0: int, x0: int, ps0: int, p0: int,
                         a1: int, x1: int, ps1: int, p1: int)
    ensures var e := Encode(SINUSOIDAL, SinusoidalValues(startTime, a0, x0, ps0, p0, a1, x1, ps1, p1));
      && (e.Ok? <==> SinusoidalInRange(startTime, a0, x0, ps0, p0, a1, x1, ps1, p1))
      && (e.Ok? ==> Decode(SINUSOIDAL, e.value) == Ok(SinusoidalValues(startTime, a0, x0, ps0, p0, a1, x1, ps1, p1)))
  {
    var vals := SinusoidalValues(startTime, a0, x0, ps0, p0, a1, x1, ps1, p1);
    SinusoidalConforms(startTime, a0, x0, ps0, p0, a1, x1, ps1, p1);
    if Conforms(SinusoidalLayout, vals) {
      EncodeDecode(SINUSOIDAL, vals);
    }
  }

  /** `make_sinusoidal_package`: start time, then for each servo amplitude,
      offset, signed phase shift and period. */
  function MakeSinusoidalPackage(startTime: int, a0: int, x0: int, ps0: int, p0: int,
                                 a1: int, x1: int, ps1: int, p1: int): (r: Result<Package, CodecError>)
    ensures r.Ok? <==> SinusoidalInRange(startTime, a0, x0, ps0, p0, a1, x1, ps1, p1)
    ensures r.Ok? ==> |r.value.headerAndBody| >= 2 && r.value.headerAndBody[..2] == [14, SINUSOIDAL]
    ensures r.Ok? ==> FooterMatches(r.value)
    ensures r.Ok? ==> Decode(SINUSOIDAL, r.value.headerAndBody[2..])
                      == Ok(SinusoidalValues(startTime, a0, x0, ps0, p0, a1, x1, ps1, p1))
  {
    EncodeSinusoidal(startTime, a0, x0, ps0, p0, a1, x1, ps1, p1);
    var r := MakePackage(SINUSOIDAL, SinusoidalValues(startTime, a0, x0, ps0, p0, a1, x1, ps1, p1));
    assert r.Ok? ==> r.value.headerAndBody[2..] == Encode(SINUSOIDAL, SinusoidalValues(startTime, a0, x0, ps0, p0, a1, x1, ps1, p1)).value;
    r
  }

  /** The walk body is the one `c` field: only a one-byte `bytes` value
      packs. */
  lemma EncodeWalk(nrSteps: Value)
    ensures Encode(WALK, [nrSteps]).Ok? <==> nrSteps.Chr?
    ensures Encode(WALK, [nrSteps]).Ok? ==> Encode(WALK, [nrSteps]).value == [nrSteps.c]
  {
    assert Conforms(WalkLayout, [nrSteps]) <==> Fits(Char, nrSteps);
  }

  /** `make_walk_package`: an integer step count raises, because the walk
      layout is a single `c` field. */
  function MakeWalkPackage(nrSteps: Value): (r: Result<Package, CodecError>)
    ensures r.Ok? <==> nrSteps.Chr?
    ensures r.Ok? ==> r.value.headerAndBody == [1, WALK] + [nrSteps.c] && FooterMatches(r.value)
  {
    EncodeWalk(nrSteps);
    MakePackage(WALK, [nrSteps])
  }

  /** An epoch body is one signed 64-bit value, which decodes back to it. */
  lemma EncodeEpoch(serverEpoch: int)
    ensures Encode(EPOCH, [Num(serverEpoch)]).Ok?
            <==> -0x8000_0000_0000_0000 <= serverEpoch < 0x8000_0000_0000_0000
    ensures Encode(EPOCH, [Num(serverEpoch)]).Ok? ==>
              Decode(EPOCH, Encode(EPOCH, [Num(serverEpoch)]).value) == Ok([Num(serverEpoch)])
  {
    assert Conforms(EpochLayout, [Num(serverEpoch)]) <==> Fits(I64, Num(serverEpoch));
    if Fits(I64, Num(serverEpoch)) {
      EncodeDecode(EPOCH, [Num(serverEpoch)]);
    }
  }

  /** `make_epoch_package`: one signed 64-bit value. */
  function MakeEpochPackage(serverEpoch: int): (r: Result<Package, CodecError>)
    ensures r.Ok? <==> -0x8000_0000_0000_0000 <= serverEpoch < 0x8000_0000_0000_0000
    ensures r.Ok? ==> |r.value.headerAndBody| >= 2 && r.value.headerAndBody[..2] == [8, EPOCH]
    ensures r.Ok? ==> Decode(EPOCH, r.value.headerAndBody[2..]) == Ok([Num(serverEpoch)])
    ensures r.Ok? ==> FooterMatches(r.value)
  {
    EncodeEpoch(serverEpoch);
    var r := MakePackage(EPOCH, [Num(serverEpoch)]);
    assert r.Ok? ==> r.value.headerAndBody[2..] == Encode(EPOCH, [Num(serverEpoch)]).value;
    r
  }

  /** An acknowledgement body is the acknowledged byte itself. */
  lemma EncodeAck(ack: int)
    ensures Encode(ACK, [Num(ack)]).Ok? <==> 0 <= ack < 256
    ensures Encode(ACK, [Num(ack)]).Ok? ==> Encode(ACK, [Num(ack)]).value == [ack]
  {
    if 0 <= ack < 256 {
      var bs: seq<Byte> := [ack];
      assert Nums(bs) == [Num(ack)];
      PackBytes(0, AckLayout, bs);
    } else {
      assert !Fits(AckLayout[0], [Num(ack)][0]);
    }
  }

  /** `make_ack_package`: one unsigned byte. */
  function MakeAckPackage(ack: int): (r: Result<Package, CodecError>)
    ensures r.Ok? <==> 0 <= ack < 256
    ensures r.Ok? ==> r.value.headerAndBody == [1, ACK] + [ack] && FooterMatches(r.value)
  {
    EncodeAck(ack);
    MakePackage(ACK, [Num(ack)])
  }

  // ---------------------------------------------------------------------
  // List frames

  /** `make_list_header`: a signed repeat count and an unsigned start time,
      four bytes. */
  function MakeListHeader(nrRepeat: int, startTime: int): (r: Result<seq<Byte>, CodecError>)
    ensures r.Ok? <==> -0x8000 <= nrRepeat < 0x8000 && 0 <= startTime < 0x1_0000
    ensures r.Ok? ==> |r.value| == 4
                      && Unpack(ListHeaderLayout, r.value) == Ok([Num(nrRepeat), Num(startTime)])
  {
    var vals := [Num(nrRepeat), Num(startTime)];
    ListHeaderSize();
    assert Conforms(ListHeaderLayout, vals) <==> Fits(I16, vals[0]) && Fits(U16, vals[1]);
    if Conforms(ListHeaderLayout, vals) then
      UnpackPack(ListHeaderLayout, vals);
      Pack(ListHeaderLayout, vals)
    else Pack(ListHeaderLayout, vals)
  }

  /** `make_list_position`: a duration byte, the position letter and the
      four position bytes; a duration that is not a byte raises first. */
  function MakeListPosition(srv0Pos: int, srv1Pos: int, srv0Vel: int, srv1Vel: int, duration: int): (r: Result<seq<Byte>, CodecError>)
    ensures r.Ok? <==> 0 <= duration < 256
                       && 0 <= srv0Pos < 256 && 0 <= srv1Pos < 256 && 0 <= srv0Vel < 256 && 0 <= srv1Vel < 256
    ensures r.Ok? ==> r.value == [duration, POSITION] + [srv0Pos, srv1Pos, srv0Vel, srv1Vel]
    ensures !(0 <= duration < 256) ==> r == Err(NotAByte(duration))
  {
    if !(0 <= duration < 256) then Err(NotAByte(duration))
    else
      EncodePosition(srv0Pos, srv1Pos, srv0Vel, srv1Vel);
      match Encode(POSITION, [Num(srv0Pos), Num(srv1Pos), Num(srv0Vel), Num(srv1Vel)])
      case Err(e) => Err(e)
      case Ok(body) => Ok([duration as Byte, POSITION] + body)
  }

  /** `make_list_sin`: a duration byte, the sinusoid letter and the
      fourteen-byte sinusoid body. */
  function MakeListSin(startTime: int, a0: int, x0: int, ps0: int, p0: int,
                       a1: int, x1: int, ps1: int, p1: int, duration: int): (r: Result<seq<Byte>, CodecError>)
    ensures r.Ok? <==> 0 <= duration < 256 && SinusoidalInRange(startTime, a0, x0, ps0, p0, a1, x1, ps1, p1)
    ensures r.Ok? ==> |r.value| >= 2 && r.value[..2] == [duration, SINUSOIDAL]
    ensures r.Ok? ==> Decode(SINUSOIDAL, r.value[2..]) == Ok(SinusoidalValues(startTime, a0, x0, ps0, p0, a1, x1, ps1, p1))
    ensures !(0 <= duration < 256) ==> r == Err(NotAByte(duration))
  {
    if !(0 <= duration < 256) then Err(NotAByte(duration))
    else
      EncodeSinusoidal(startTime, a0, x0, ps0, p0, a1, x1, ps1, p1);
      match Encode(SINUSOIDAL, SinusoidalValues(startTime, a0, x0, ps0, p0, a1, x1, ps1, p1))
      case Err(e) => Err(e)
      case Ok(body) =>
        assert ([duration as Byte, SINUSOIDAL] + body)[2..] == body;
        Ok([duration as Byte, SINUSOIDAL] + body)
  }

  /** `make_list`: a list frame is its body length, the list letter and the
      body, with its footer; a body longer than 255 bytes raises. */
  function MakeList(body: seq<Byte>): (r: Result<Package, CodecError>)
    ensures r.Ok? <==> |body| <= 255
    ensures r.Ok? ==> r.value.headerAndBody == [|body|, LIST] + body && FooterMatches(r.value)
  {
    if |body| > 255 then Err(NotAByte(|body|))
    else
      var hb := [|body| as Byte, LIST] + body;
      Ok(Package(hb, MakeCrcFooter(hb)))
  }
}
