/** The chunk layout of a PNG file (sections 3.1, 3.2 and 4.1.1 of RFC 2083): the writer, and a
    reader that checks every length and every CRC. */
module Png {
  import opened Options
  import opened BigEndian
  import opened Crc32

  const MAX_UINT32: nat := 0xFFFF_FFFF
  const SIGNATURE: Bytes := [0x89, 0x50, 0x4e, 0x47, 0x0d, 0x0a, 0x1a, 0x0a]
  const IHDR: Bytes := [0x49, 0x48, 0x44, 0x52]
  const IDAT: Bytes := [0x49, 0x44, 0x41, 0x54]
  const IEND: Bytes := [0x49, 0x45, 0x4e, 0x44]

  datatype Chunk = Chunk(kind: Bytes, data: Bytes)

  // ---- the writer ----

  /** `writeUInt32BE`, which throws on a number that does not fit. */
  function UInt32(n: nat): Option<Bytes> {
    if n <= MAX_UINT32 then Some(BE(n, 4)) else None
  }

  function ToNat(w: Word): (n: nat)
    ensures n <= MAX_UINT32
  {
    w as nat
  }

  function CrcBytes(data: Bytes): Bytes {
    BE(ToNat(Crc(data)), 4)
  }

  /** A chunk on the wire: length, type, data, and the CRC of type and data. */
  function Encode(c: Chunk): Bytes {
    BE(|c.data|, 4) + c.kind + c.data + CrcBytes(c.kind + c.data)
  }

  method WriteChunk(sum: Checksum, kind: Bytes, data: Bytes) returns (wire: Option<Bytes>)
    requires sum.Valid()
    modifies sum
    ensures sum.Valid()
    ensures wire == if |data| <= 0xFFFF_FFFF then Some(Encode(Chunk(kind, data))) else None
  {
    var len := UInt32(|data|);
    if len == None { return None; }
    var body := kind + data;
    var crc := sum.Crc32(body);
    var crcBuf := UInt32(ToNat(crc));
    wire := Some(len.value + body + crcBuf.value);
    assert len.value + body + crcBuf.value == Encode(Chunk(kind, data));
  }

  function Shade(x: nat, y: nat): Byte {
    ((x + y) % 128) as Byte
  }

  /** One row of the picture: its filter byte, then `3 * width` samples. */
  function Row(width: nat, y: nat): Bytes {
    [0] + seq(3 * width, x requires 0 <= x => Shade(x, y))
  }

  function Rows(width: nat, height: nat): Bytes {
    if height == 0 then [] else Rows(width, height - 1) + Row(width, height - 1)
  }

  lemma {:induction false} RowsLength(width: nat, height: nat)
    ensures |Rows(width, height)| == height * (3 * width + 1)
  {
    if height > 0 {
      RowsLength(width, height - 1);
      assert (height - 1) * (3 * width + 1) + (3 * width + 1) == height * (3 * width + 1);
    }
  }

  /** The raw picture, row by row into one buffer. */
  method FillRaw(width: nat, height: nat) returns (raw: array<Byte>)
    ensures fresh(raw) && raw[..] == Rows(width, height)
  {
    var rowBytes := width * 3 + 1;
    raw := new Byte[rowBytes * height];
    var off := 0;
    for y := 0 to height
      invariant off == y * rowBytes && 0 <= off <= raw.Length
      invariant raw[..off] == Rows(width, y)
    {
      RowsLength(width, y);
      assert (y + 1) * rowBytes == off + rowBytes;
      MulMonotone(y + 1, height, rowBytes);
      FillRow(raw, off, width, y);
      off := off + rowBytes;
    }
    assert raw[..off] == raw[..];
  }

  lemma MulMonotone(a: nat, b: nat, k: nat)
    requires a <= b
    ensures a * k <= b * k == k * b
  {
  }

  method FillRow(raw: array<Byte>, off: nat, width: nat, y: nat)
    requires off + 3 * width + 1 <= raw.Length
    modifies raw
    ensures raw[..off + 3 * width + 1] == old(raw[..off]) + Row(width, y)
  {
    hide Shade;
    raw[off] := 0;
    for x := 0 to width * 3
      invariant raw[..off] == old(raw[..off]) && raw[off] == 0
      invariant forall k :: 0 <= k < x ==> raw[off + 1 + k] == Shade(k, y)
    {
      raw[off + 1 + x] := Shade(x, y);
    }
    var end := off + 3 * width + 1;
    assert raw[off..end] == Row(width, y);
    assert raw[..end] == raw[..off] + raw[off..end];
  }

  /** The header: width, height, and five bytes saying 8-bit RGB, deflate, no interlace. */
  function Header(width: nat, height: nat): Bytes {
    BE(width, 4) + BE(height, 4) + [8, 2, 0, 0, 0]
  }

  function Picture(width: nat, height: nat, deflate: Bytes -> Bytes): seq<Chunk> {
    [Chunk(IHDR, Header(width, height)), Chunk(IDAT, deflate(Rows(width, height))), Chunk(IEND, [])]
  }

  function EncodeAll(chunks: seq<Chunk>): Bytes {
    if chunks == [] then [] else Encode(chunks[0]) + EncodeAll(chunks[1..])
  }

  /** The file: the signature, then the chunks. */
  function PngFile(width: nat, height: nat, deflate: Bytes -> Bytes): Bytes {
    SIGNATURE + EncodeAll(Picture(width, height, deflate))
  }

  predicate Writable(width: nat, height: nat, deflate: Bytes -> Bytes) {
    width <= 0xFFFF_FFFF && height <= 0xFFFF_FFFF && |deflate(Rows(width, height))| <= 0xFFFF_FFFF
  }

  /** `makePng`, or the exception of the first number that does not fit its field. */
  method MakePng(sum: Checksum, width: nat, height: nat, deflate: Bytes -> Bytes) returns (png: Option<Bytes>)
    requires sum.Valid()
    modifies sum
    ensures sum.Valid()
    ensures png == if Writable(width, height, deflate) then Some(PngFile(width, height, deflate)) else None
  {
    hide Encode, EncodeAll, Row, Rows, BE;
    var w := UInt32(width);
    if w == None { return None; }
    var h := UInt32(height);
    if h == None { return None; }
    var ihdr := w.value + h.value + [8, 2, 0, 0, 0];
    var raw := FillRaw(width, height);
    var first := WriteChunk(sum, IHDR, ihdr);
    var middle := WriteChunk(sum, IDAT, deflate(raw[..]));
    if middle == None { return None; }
    var last := WriteChunk(sum, IEND, []);
    png := Some(SIGNATURE + first.value + middle.value + last.value);
    EncodeThree(Chunk(IHDR, ihdr), Chunk(IDAT, deflate(raw[..])), Chunk(IEND, []));
    assert SIGNATURE + first.value + middle.value + last.value
        == SIGNATURE + (first.value + (middle.value + last.value));
  }

  lemma EncodeThree(a: Chunk, b: Chunk, c: Chunk)
    ensures EncodeAll([a, b, c]) == Encode(a) + (Encode(b) + Encode(c))
  {
    hide Encode;
    assert [a, b, c][1..] == [b, c] && [b, c][1..] == [c] && [c][1..] == [];
    assert EncodeAll([c]) == Encode(c) + [];
    assert EncodeAll([b, c]) == Encode(b) + Encode(c);
  }

  // ---- the reader ----

  /** One chunk off the front, if it is whole and its CRC is right, and the bytes after it. */
  function ReadChunk(data: Bytes): Option<(Chunk, Bytes)> {
    if |data| < 12 then None else
    var n := FromBE(data[..4]);
    if |data| < 12 + n then None else
    var body := data[4..8 + n];
    if data[8 + n..12 + n] != CrcBytes(body) then None
    else Some((Chunk(body[..4], body[4..]), data[12 + n..]))
  }

  function ReadChunks(data: Bytes): Option<seq<Chunk>>
    decreases |data|
  {
    if data == [] then Some([]) else
    match ReadChunk(data)
    case None => None
    case Some((c, rest)) =>
      match ReadChunks(rest)
      case None => None
      case Some(cs) => Some([c] + cs)
  }

  function ReadPng(data: Bytes): Option<seq<Chunk>> {
    if |data| < 8 || data[..8] != SIGNATURE then None else ReadChunks(data[8..])
  }

  // ---- round trips ----

  predicate WellFormed(c: Chunk) {
    |c.kind| == 4 && |c.data| <= MAX_UINT32
  }

  lemma ChunkRoundTrip(c: Chunk, rest: Bytes)
    requires WellFormed(c)
    ensures ReadChunk(Encode(c) + rest) == Some((c, rest))
  {
    var n, body := |c.data|, c.kind + c.data;
    var data := Encode(c) + rest;
    LengthReads(n);
    assert |CrcBytes(body)| == 4;
    hide BE, FromBE, CrcBytes;
    assert data[..4] == BE(n, 4);
    assert data[4..8 + n] == body;
    assert data[8 + n..12 + n] == CrcBytes(body);
    assert data[12 + n..] == rest;
    assert body[..4] == c.kind && body[4..] == c.data;
  }

  lemma {:induction false} ChunksRoundTrip(chunks: seq<Chunk>)
    requires forall i :: 0 <= i < |chunks| ==> WellFormed(chunks[i])
    ensures ReadChunks(EncodeAll(chunks)) == Some(chunks)
  {
    if chunks != [] {
      ChunkRoundTrip(chunks[0], EncodeAll(chunks[1..]));
      ChunksRoundTrip(chunks[1..]);
      hide ReadChunk;
      assert |Encode(chunks[0])| > 0;
      assert [chunks[0]] + chunks[1..] == chunks;
    }
  }

  /** Whatever the writer accepts, the reader gets back: the three chunks, whole, in order. */
  lemma PngRoundTrip(width: nat, height: nat, deflate: Bytes -> Bytes)
    requires Writable(width, height, deflate)
    ensures ReadPng(PngFile(width, height, deflate)) == Some(Picture(width, height, deflate))
  {
    var p := Picture(width, height, deflate);
    var data := SIGNATURE + EncodeAll(p);
    hide Rows;
    ChunksRoundTrip(p);
    hide EncodeAll, ReadChunks, Picture;
    assert data[..8] == SIGNATURE && data[8..] == EncodeAll(p);
  }

  /** The file begins with the PNG signature and a 13-byte IHDR chunk. Width and height stand
      big-endian at offsets 16 and 20, for every 32-bit value, and five format bytes follow. */
  lemma SizeAtFixedOffsets(width: nat, height: nat, deflate: Bytes -> Bytes)
    requires width <= MAX_UINT32 && height <= MAX_UINT32
    ensures var png := PngFile(width, height, deflate);
            && |png| >= 29 && png[..8] == [0x89, 0x50, 0x4e, 0x47, 0x0d, 0x0a, 0x1a, 0x0a]
            && png[8..16] == [0, 0, 0, 13, 0x49, 0x48, 0x44, 0x52]
            && FromBE(png[16..20]) == width && FromBE(png[20..24]) == height && png[24..29] == [8, 2, 0, 0, 0]
  {
    FileStart(width, height, deflate);
    ThirteenIs();
    LengthReads(width);
    LengthReads(height);
    HeaderParts(width, height);
    hide PngFile, BE, FromBE, Header;
    var png := PngFile(width, height, deflate);
    Inside(png, 0, 16, 0, 8);
    Inside(png, 0, 16, 8, 16);
    Inside(png, 16, 29, 0, 4);
    Inside(png, 16, 29, 4, 8);
    Inside(png, 16, 29, 8, 13);
  }

  /** The file as the header chunk and what follows it. */
  lemma FileStart(width: nat, height: nat, deflate: Bytes -> Bytes)
    ensures var (png, header) := (PngFile(width, height, deflate), Header(width, height));
            && |header| == 13 && |png| >= 29
            && png[..16] == SIGNATURE + BE(13, 4) + IHDR && png[16..29] == header
  {
    var (header, rest) := (Header(width, height), EncodeAll(Picture(width, height, deflate)[1..]));
    HeaderComesFirst(width, height, deflate);
    hide Picture, EncodeAll, Encode, CrcBytes, Rows, BE;
    assert |header| == 13;
    hide Header;
    Regroup(SIGNATURE, BE(13, 4), IHDR, header, CrcBytes(IHDR + header), rest);
    Slices(SIGNATURE + BE(13, 4) + IHDR, header, CrcBytes(IHDR + header), rest);
  }

  lemma ThirteenIs()
    ensures BE(13, 4) == [0, 0, 0, 13]
  {
    FourDigits(0, 0, 0, 13, 0, 0, 13);
    hide BE;
  }

  lemma HeaderParts(width: nat, height: nat)
    ensures var h := Header(width, height);
            |h| == 13 && h[..4] == BE(width, 4) && h[4..8] == BE(height, 4) && h[8..13] == [8, 2, 0, 0, 0]
  {}

  lemma Inside(s: Bytes, a: nat, b: nat, i: nat, j: nat)
    requires a <= b <= |s| && i <= j <= b - a
    ensures s[a..b][i..j] == s[a + i..a + j]
  {
    forall k | 0 <= k < j - i ensures s[a..b][i..j][k] == s[a + i..a + j][k] {}
  }

  // ---- what a decoder makes of the file ----

  /** Samples per pixel of a colour type (section 4.1.1 of RFC 2083). */
  function Samples(colourType: nat): nat {
    match colourType
    case 2 => 3
    case 4 => 2
    case 6 => 4
    case _ => 1
  }

  /** The bytes of a row with its filter byte, all samples of `depth` bits in whole bytes. */
  function RowBytes(width: nat, samples: nat, depth: nat): nat {
    1 + Times(Times(width, samples), depth) / 8
  }

  function Times(a: nat, b: nat): nat {
    a * b
  }

  /** Row `y` of the raw picture: no filter, and the sample at `x` is `(x + y) % 128`. */
  predicate PlainRow(row: Bytes, y: nat) {
    && (row != [] ==> row[0] == 0)
    && forall x :: 1 <= x < |row| ==> Value(row[x]) == (x - 1 + y) % 128
  }

  predicate ShowsRow(raw: Bytes, rowBytes: nat, y: nat) {
    y * rowBytes + rowBytes <= |raw| && PlainRow(raw[y * rowBytes..y * rowBytes + rowBytes], y)
  }

  predicate ShowsPicture(raw: Bytes, rowBytes: nat, height: nat) {
    |raw| == height * rowBytes && forall y :: 0 <= y < height ==> ShowsRow(raw, rowBytes, y)
  }

  /** What a decoder makes of the bytes of a file: the size it reads, a deflated, adaptively filtered,
      not interlaced picture, three chunks, and, once inflated, exactly the rows that the bit depth and
      the colour type it reads call for. */
  predicate Decodes(file: Bytes, inflate: Bytes -> Bytes, width: nat, height: nat) {
    && |file| >= 29 && FromBE(file[16..20]) == width && FromBE(file[20..24]) == height
    && file[26] == 0 && file[27] == 0 && file[28] == 0
    && var (chunks, depth, colourType) := (ReadPng(file), Value(file[24]), Value(file[25]));
       && chunks.Some? && |chunks.value| == 3
       && chunks.value[0] == Chunk([0x49, 0x48, 0x44, 0x52], file[16..29])
       && chunks.value[1].kind == [0x49, 0x44, 0x41, 0x54]
       && chunks.value[2] == Chunk([0x49, 0x45, 0x4e, 0x44], [])
       && ShowsPicture(inflate(chunks.value[1].data), RowBytes(width, Samples(colourType), depth), height)
  }

  /** A decoder that inflates what the writer deflated finds the picture in the file. */
  lemma DecoderSeesPicture(width: nat, height: nat, deflate: Bytes -> Bytes, inflate: Bytes -> Bytes)
    requires Writable(width, height, deflate) && forall raw: Bytes :: inflate(deflate(raw)) == raw
    ensures Decodes(PngFile(width, height, deflate), inflate, width, height)
  {
    var file := PngFile(width, height, deflate);
    SizeAtFixedOffsets(width, height, deflate);
    FileStart(width, height, deflate);
    PngRoundTrip(width, height, deflate);
    RowsShowPicture(width, height);
    EightAndTwo();
    FormatBytes(file);
    ThreeBytesAPixel(width);
    hide PngFile, ReadPng, Rows, ShowsPicture, FromBE, Value, Header, BE, RowBytes;
  }

  lemma ThreeBytesAPixel(width: nat)
    ensures RowBytes(width, 3, 8) == 3 * width + 1
  {}

  lemma FormatBytes(file: Bytes)
    requires |file| >= 29 && file[24..29] == [8, 2, 0, 0, 0]
    ensures file[24] == 8 && file[25] == 2 && file[26] == 0 && file[27] == 0 && file[28] == 0
  {
    var format := file[24..29];
    assert file[24] == format[0] && file[25] == format[1] && file[26] == format[2];
    assert file[27] == format[3] && file[28] == format[4];
  }

  lemma EightAndTwo()
    ensures Value(8) == 8 && Value(2) == 2
  {}

  lemma {:induction false} RowsShowPicture(width: nat, height: nat)
    ensures ShowsPicture(Rows(width, height), 3 * width + 1, height)
  {
    hide Row, ShowsRow;
    RowsLength(width, height);
    var rowBytes := 3 * width + 1;
    if height > 0 {
      RowsShowPicture(width, height - 1);
      RowsLength(width, height - 1);
      var front := Rows(width, height - 1);
      forall y | 0 <= y < height ensures ShowsRow(Rows(width, height), rowBytes, y) {
        if y < height - 1 { RowStays(front, Row(width, height - 1), rowBytes, y); }
        else { LastRow(front, width, y); }
      }
    }
  }

  lemma RowStays(front: Bytes, row: Bytes, rowBytes: nat, y: nat)
    requires ShowsRow(front, rowBytes, y)
    ensures ShowsRow(front + row, rowBytes, y)
  {
    hide PlainRow;
    var at := y * rowBytes;
    assert (front + row)[at..at + rowBytes] == front[at..at + rowBytes];
  }

  lemma LastRow(front: Bytes, width: nat, y: nat)
    requires |front| == y * (3 * width + 1)
    ensures ShowsRow(front + Row(width, y), 3 * width + 1, y)
  {
    var row := Row(width, y);
    forall x | 1 <= x < |row| ensures Value(row[x]) == (x - 1 + y) % 128 { ShadeIs(x - 1, y); }
    hide Shade, Value;
    assert row[0] == 0;
    hide Row;
    assert (front + row)[|front|..|front| + (3 * width + 1)] == row;
  }

  lemma ShadeIs(x: nat, y: nat)
    ensures Value(Shade(x, y)) == (x + y) % 128
  {
    ByteRoundTrip((x + y) % 128);
  }

  /** Every file ends with the same twelve bytes, the empty IEND chunk. */
  lemma EndsWithIend(width: nat, height: nat, deflate: Bytes -> Bytes)
    ensures var file := PngFile(width, height, deflate);
            && |file| >= 12
            && file[|file| - 12..] == [0, 0, 0, 0, 0x49, 0x45, 0x4e, 0x44, 0xae, 0x42, 0x60, 0x82]
  {
    hide Rows, Crc;
    var p := Picture(width, height, deflate);
    EncodeThree(p[0], p[1], p[2]);
    assert p == [p[0], p[1], p[2]];
    IendIs();
    hide Encode, EncodeAll;
    var file := PngFile(width, height, deflate);
    assert file == SIGNATURE + Encode(p[0]) + Encode(p[1]) + Encode(p[2]);
  }

  lemma IendIs()
    ensures Encode(Chunk(IEND, [])) == [0, 0, 0, 0, 0x49, 0x45, 0x4e, 0x44, 0xae, 0x42, 0x60, 0x82]
  {
    IendChecksum();
    FourZeros();
    ChecksumBytes();
    assert IEND + [] == IEND;
    hide Crc, BE, ToNat;
  }

  lemma FourZeros()
    ensures BE(0, 4) == [0, 0, 0, 0]
  {
    FourDigits(0, 0, 0, 0, 0, 0, 0);
    hide BE;
  }

  lemma ChecksumBytes()
    ensures BE(ToNat(0xAE42_6082), 4) == [0xae, 0x42, 0x60, 0x82]
  {
    ChecksumAsNumber();
    FourDigits(0xae, 0x42, 0x60, 0x82, 0xae42, 0xae4260, 0xae426082);
    hide BE;
  }

  lemma ChecksumAsNumber()
    ensures ToNat(0xAE42_6082) == 0xAE42_6082
  {}

  lemma OneDigit(m: nat, n: nat, k: nat, d: nat)
    requires d < 256 && m == n * 256 + d
    ensures BE(m, k + 1) == BE(n, k) + [ToByte(d)]
  {
    assert m / 256 == n && m % 256 == d;
  }

  lemma FourDigits(a: nat, b: nat, c: nat, d: nat, two: nat, three: nat, four: nat)
    requires a < 256 && b < 256 && c < 256 && d < 256
    requires two == a * 256 + b && three == two * 256 + c && four == three * 256 + d
    ensures BE(four, 4) == [ToByte(a), ToByte(b), ToByte(c), ToByte(d)]
  {
    hide BE, ToByte;
    assert BE(0, 0) == [];
    OneDigit(a, 0, 0, a);
    OneDigit(two, a, 1, b);
    OneDigit(three, two, 2, c);
    OneDigit(four, three, 3, d);
  }

  lemma HeaderComesFirst(width: nat, height: nat, deflate: Bytes -> Bytes)
    ensures var (p, header) := (Picture(width, height, deflate), Header(width, height));
            EncodeAll(p) == BE(13, 4) + IHDR + header + CrcBytes(IHDR + header) + EncodeAll(p[1..])
  {
    hide Rows, CrcBytes;
    var (p, header) := (Picture(width, height, deflate), Header(width, height));
    assert p[0] == Chunk(IHDR, header) && |header| == 13;
    hide Picture, Header;
  }

  lemma Regroup(a: Bytes, b: Bytes, c: Bytes, d: Bytes, e: Bytes, f: Bytes)
    ensures a + (b + c + d + e + f) == a + b + c + d + e + f
  {}

  /** A reader never accepts a file in which one byte of a chunk's type or data was changed. */
  lemma CorruptedChunkIsRefused(kind: Bytes, before: Bytes, x: Byte, y: Byte, after: Bytes, rest: Bytes)
    requires WellFormed(Chunk(kind, before + [x] + after)) && x != y
    ensures var good, bad := Chunk(kind, before + [x] + after), Chunk(kind, before + [y] + after);
            ReadChunk(BE(|bad.data|, 4) + kind + bad.data + CrcBytes(kind + good.data) + rest) == None
  {
    var good, bad := before + [x] + after, before + [y] + after;
    OneByteChangeIsCaught(kind + before, x, y, after);
    assert kind + before + [x] + after == kind + good && kind + before + [y] + after == kind + bad;
    CrcBytesDiffer(kind + good, kind + bad);
    WrongCrcIsRefused(kind, bad, CrcBytes(kind + good), rest);
    hide Crc, CrcBytes;
  }

  lemma LengthReads(n: nat)
    requires n <= MAX_UINT32
    ensures FromBE(BE(n, 4)) == n
  {
    Powers();
    BERoundTrip(n, 4);
  }

  lemma WrongCrcIsRefused(kind: Bytes, data: Bytes, crc: Bytes, rest: Bytes)
    requires WellFormed(Chunk(kind, data)) && |crc| == 4 && crc != CrcBytes(kind + data)
    ensures ReadChunk(BE(|data|, 4) + kind + data + crc + rest) == None
  {
    hide BE, FromBE, CrcBytes;
    LengthReads(|data|);
    var n, len := |data|, BE(|data|, 4);
    Slices(len, kind + data, crc, rest);
    assert len + kind + data + crc + rest == len + (kind + data) + crc + rest;
  }

  lemma Slices(a: Bytes, b: Bytes, c: Bytes, d: Bytes)
    ensures var all, i, j := a + b + c + d, |a| + |b|, |a| + |b| + |c|;
            && |all| >= j && all[..|a|] == a && all[|a|..i] == b && all[i..j] == c && all[j..] == d
  {}

  lemma CrcBytesDiffer(a: Bytes, b: Bytes)
    requires Crc(a) != Crc(b)
    ensures CrcBytes(a) != CrcBytes(b)
  {
    hide Crc, BE, FromBE, ToNat;
    var x, y := Crc(a), Crc(b);
    if ToNat(x) == ToNat(y) { WordsEqual(x, y); }
    LengthReads(ToNat(x));
    LengthReads(ToNat(y));
  }

  lemma WordsEqual(a: Word, b: Word)
    requires ToNat(a) == ToNat(b)
    ensures a == b
  {
    WordThere(a);
    WordThere(b);
  }

  lemma WordThere(w: Word)
    ensures (w as nat) as Word == w
  {
  }
}
