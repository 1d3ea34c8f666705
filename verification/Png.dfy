/**
 write_png_rgb of scripts/build_capability_fixtures.py, and a reader after RFC 2083 for files with one
 IDAT chunk and unfiltered rows. Compression and CRC are parameters.
 */
module Png {
  import opened Options
  import opened Fixtures

  type Byte = n: int | 0 <= n < 256

  /** n & 0xFF */
  function LowByte(n: int): Byte {
    n % 256
  }

  const LIMIT_32: nat := 0x1_0000_0000
  const LIMIT_31: nat := 0x8000_0000

  /** struct.pack(">I", n) */
  function BigEndian(n: nat): (b: seq<Byte>)
    requires n < LIMIT_32
    ensures |b| == 4
  {
    [n / 0x100_0000, n / 0x1_0000 % 256, n / 256 % 256, n % 256]
  }

  function FromBigEndian(b: seq<Byte>): nat
    requires |b| == 4
  {
    (b[0] as int * 0x100_0000) + (b[1] as int * 0x1_0000) + (b[2] as int * 256) + b[3] as int
  }

  lemma BigEndianRoundTrip(n: nat)
    requires n < LIMIT_32
    ensures FromBigEndian(BigEndian(n)) == n
  {
    var a, b := n / 256, n / 0x1_0000;
    assert a / 256 == b && b / 256 == n / 0x100_0000;
    assert n == a * 256 + n % 256 && a == b * 256 + a % 256 && b == b / 256 * 256 + b % 256;
  }

  // ---------- scanlines ----------

  type Grid = seq<seq<Color>>

  ghost predicate Rectangular(g: Grid, w: nat, h: nat) {
    |g| == h && forall y :: 0 <= y < h ==> |g[y]| == w
  }

  function RowBytes(row: seq<Color>): (b: seq<Byte>)
    ensures |b| == 3 * |row|
  {
    if row == [] then []
    else
      var c := row[|row| - 1];
      RowBytes(row[..|row| - 1]) + [LowByte(c.r), LowByte(c.g), LowByte(c.b)]
  }

  /** Each row behind a filter byte of 0. */
  function Scanlines(g: Grid): seq<Byte> {
    if g == [] then [] else Scanlines(g[..|g| - 1]) + ([0] + RowBytes(g[|g| - 1]))
  }

  function ReadRow(b: seq<Byte>, w: nat): (row: seq<Color>)
    requires |b| == 3 * w
    ensures |row| == w
  {
    if w == 0 then [] else ReadRow(b[..3 * w - 3], w - 1) + [Color(b[3 * w - 3], b[3 * w - 2], b[3 * w - 1])]
  }

  /** Undoes Scanlines; None when the bytes are not h unfiltered rows of w pixels. */
  function ReadScanlines(b: seq<Byte>, w: nat, h: nat): Option<Grid>
    decreases h
  {
    if h == 0 then (if b == [] then Some([]) else None)
    else
      var start := |b| - 1 - 3 * w;
      if start < 0 || b[start] != 0 then None
      else
        var above := ReadScanlines(b[..start], w, h - 1);
        if above.None? then None else Some(above.value + [ReadRow(b[start + 1..], w)])
  }

  function LowColor(c: Color): Color {
    Color(LowByte(c.r), LowByte(c.g), LowByte(c.b))
  }

  function LowRow(row: seq<Color>): seq<Color> {
    seq(|row|, i requires 0 <= i < |row| => LowColor(row[i]))
  }

  /** What eight bits keep of a grid. */
  function LowGrid(g: Grid): Grid {
    seq(|g|, y requires 0 <= y < |g| => LowRow(g[y]))
  }

  /** A grid of eight-bit colours is kept whole. */
  lemma LowGridIsSame(g: Grid)
    requires forall y, x :: 0 <= y < |g| && 0 <= x < |g[y]| ==>
      0 <= g[y][x].r < 256 && 0 <= g[y][x].g < 256 && 0 <= g[y][x].b < 256
    ensures LowGrid(g) == g
  {
    forall y | 0 <= y < |g|
      ensures LowRow(g[y]) == g[y]
    {
    }
  }

  lemma PixelBehind(b: seq<Byte>, c: Color, w: nat)
    requires |b| == 3 * w
    ensures ReadRow(b + [LowByte(c.r), LowByte(c.g), LowByte(c.b)], w + 1) == ReadRow(b, w) + [LowColor(c)]
  {
    assert (b + [LowByte(c.r), LowByte(c.g), LowByte(c.b)])[..3 * w] == b;
  }

  lemma {:induction false} RowRoundTrip(row: seq<Color>)
    ensures ReadRow(RowBytes(row), |row|) == LowRow(row)
    decreases row
  {
    if row != [] {
      var init, last := row[..|row| - 1], row[|row| - 1];
      RowRoundTrip(init);
      PixelBehind(RowBytes(init), last, |init|);
      assert row == init + [last];
      assert LowRow(row) == LowRow(init) + [LowColor(last)];
    }
  }

  lemma LineUnderneath(above: seq<Byte>, line: seq<Byte>, w: nat, h: nat)
    requires |line| == 3 * w && h > 0
    ensures var g := ReadScanlines(above, w, h - 1);
      ReadScanlines(above + ([0] + line), w, h) == if g.None? then None else Some(g.value + [ReadRow(line, w)])
  {
    var b := above + ([0] + line);
    assert b[..|above|] == above && b[|above|] == 0 && b[|above| + 1..] == line;
  }

  /** The scanlines of g are read back as what eight bits keep of it. */
  ghost predicate ReadsBack(g: Grid, w: nat, h: nat) {
    ReadScanlines(Scanlines(g), w, h) == Some(LowGrid(g))
  }

  lemma {:induction false} ScanlinesRoundTrip(g: Grid, w: nat, h: nat)
    requires Rectangular(g, w, h)
    ensures ReadsBack(g, w, h)
    decreases g
  {
    if g != [] {
      ScanlinesRoundTrip(g[..|g| - 1], w, h - 1);
      ScanlinesSnoc(g, w, h);
    } else {
      assert LowGrid(g) == [];
    }
  }

  lemma {:induction false} ScanlinesSnoc(g: Grid, w: nat, h: nat)
    requires g != [] && Rectangular(g, w, h) && ReadsBack(g[..|g| - 1], w, h - 1)
    ensures ReadsBack(g, w, h)
  {
    var above, last := g[..|g| - 1], g[|g| - 1];
    ScanlinesLast(g);
    RowRoundTrip(last);
    LineUnderneath(Scanlines(above), RowBytes(last), w, h);
    LowGridLast(g);
  }

  lemma {:induction false} ScanlinesLast(g: Grid)
    requires g != []
    ensures Scanlines(g) == Scanlines(g[..|g| - 1]) + ([0] + RowBytes(g[|g| - 1]))
  {
  }

  lemma LowGridLast(g: Grid)
    requires g != []
    ensures LowGrid(g) == LowGrid(g[..|g| - 1]) + [LowRow(g[|g| - 1])]
  {
    assert g == g[..|g| - 1] + [g[|g| - 1]];
  }

  // ---------- chunks ----------

  type Crc = seq<Byte> -> nat

  /** A chunk's CRC, masked to 32 bits. */
  function Crc32(crc: Crc, b: seq<Byte>): nat {
    crc(b) % LIMIT_32
  }

  /** _png_chunk */
  function Chunk(tag: seq<Byte>, data: seq<Byte>, crc: Crc): seq<Byte>
    requires |data| < LIMIT_32
  {
    BigEndian(|data|) + tag + data + BigEndian(Crc32(crc, tag + data))
  }

  datatype Parsed = Parsed(tag: seq<Byte>, data: seq<Byte>)

  /** RFC 2083 section 3.2: length, type, data, CRC, one chunk after the other. */
  function ReadChunks(b: seq<Byte>, crc: Crc): Option<seq<Parsed>>
    decreases |b|
  {
    if b == [] then Some([])
    else if |b| < 12 then None
    else
      var n := FromBigEndian(b[..4]);
      if |b| < 12 + n then None
      else
        var tag, data := b[4..8], b[8..8 + n];
        if FromBigEndian(b[8 + n..12 + n]) != Crc32(crc, tag + data) then None
        else
          var rest := ReadChunks(b[12 + n..], crc);
          if rest.None? then None else Some([Parsed(tag, data)] + rest.value)
  }

  lemma ChunkRoundTrip(tag: seq<Byte>, data: seq<Byte>, crc: Crc, rest: seq<Byte>)
    requires |tag| == 4 && |data| < LIMIT_32
    ensures var more := ReadChunks(rest, crc);
      ReadChunks(Chunk(tag, data, crc) + rest, crc)
        == if more.None? then None else Some([Parsed(tag, data)] + more.value)
  {
    BigEndianRoundTrip(|data|);
    BigEndianRoundTrip(Crc32(crc, tag + data));
    FiveParts(BigEndian(|data|), tag, data, BigEndian(Crc32(crc, tag + data)), rest);
  }

  lemma FiveParts(length: seq<Byte>, tag: seq<Byte>, data: seq<Byte>, check: seq<Byte>, rest: seq<Byte>)
    requires |length| == |tag| == |check| == 4
    ensures var b, n := length + tag + data + check + rest, |data|;
      && |b| >= 12 + n && b[..4] == length && b[4..8] == tag && b[8..8 + n] == data
      && b[8 + n..12 + n] == check && b[12 + n..] == rest
  {
    var b, n := length + tag + data + check + rest, |data|;
    assert b[..4] == length && b[4..8] == tag;
    assert b[8..8 + n] == data;
    assert b[8 + n..12 + n] == check;
    assert b[12 + n..] == rest;
  }

  // ---------- the file ----------

  const SIGNATURE: seq<Byte> := [0x89, 0x50, 0x4e, 0x47, 0x0d, 0x0a, 0x1a, 0x0a]
  const IHDR: seq<Byte> := [0x49, 0x48, 0x44, 0x52]
  const IDAT: seq<Byte> := [0x49, 0x44, 0x41, 0x54]
  const IEND: seq<Byte> := [0x49, 0x45, 0x4e, 0x44]

  /** Bit depth 8, truecolour, and the only compression, filter and interlace methods used. */
  const FORMAT: seq<Byte> := [8, 2, 0, 0, 0]

  type Codec = seq<Byte> -> seq<Byte>

  /** struct.pack rejects anything that does not fit into 32 bits. */
  predicate Packs(w: nat, h: nat, idat: seq<Byte>) {
    w < LIMIT_32 && h < LIMIT_32 && |idat| < LIMIT_32
  }

  function Written(w: nat, h: nat, g: Grid, compress: Codec, crc: Crc): Option<seq<Byte>> {
    var idat := compress(Scanlines(g));
    if !Packs(w, h, idat) then None
    else
      Some(SIGNATURE + (Chunk(IHDR, BigEndian(w) + BigEndian(h) + FORMAT, crc)
                        + (Chunk(IDAT, idat, crc) + (Chunk(IEND, [], crc) + []))))
  }

  ghost function GridOf(p: array2<Color>): Grid
    reads p
  {
    seq(p.Length0, y requires 0 <= y < p.Length0 reads p =>
      seq(p.Length1, x requires 0 <= x < p.Length1 && 0 <= y < p.Length0 reads p => p[y, x]))
  }

  /** The filter byte and the pixels of every row. */
  method RawOf(p: array2<Color>) returns (raw: seq<Byte>)
    ensures raw == Scanlines(GridOf(p))
  {
    raw := [];
    ghost var g := GridOf(p);
    for y := 0 to p.Length0
      invariant raw == Scanlines(g[..y])
    {
      ghost var above := raw;
      raw := raw + [0];
      for x := 0 to p.Length1
        invariant raw == above + ([0] + RowBytes(g[y][..x]))
      {
        assert g[y][..x + 1][..x] == g[y][..x];
        raw := raw + [LowByte(p[y, x].r), LowByte(p[y, x].g), LowByte(p[y, x].b)];
      }
      assert g[y][..p.Length1] == g[y] && g[..y + 1][..y] == g[..y];
    }
    assert g[..p.Length0] == g;
  }

  /** write_png_rgb */
  method WritePngRgb(p: array2<Color>, compress: Codec, crc: Crc) returns (file: Option<seq<Byte>>)
    ensures file == Written(p.Length1, p.Length0, GridOf(p), compress, crc)
  {
    var raw := RawOf(p);
    var idat := compress(raw);
    if p.Length1 >= LIMIT_32 || p.Length0 >= LIMIT_32 || |idat| >= LIMIT_32 {
      return None;
    }
    var ihdr := BigEndian(p.Length1) + BigEndian(p.Length0) + FORMAT;
    file := Some(SIGNATURE + (Chunk(IHDR, ihdr, crc) + (Chunk(IDAT, idat, crc) + (Chunk(IEND, [], crc) + []))));
  }

  datatype Image = Image(width: nat, height: nat, pixels: Grid)

  /** Reads such a file; RFC 2083 section 4.1.1 has no image without rows or columns, nor one of 2^31 or more. */
  function Read(file: seq<Byte>, decompress: seq<Byte> -> Option<seq<Byte>>, crc: Crc): Option<Image> {
    if |file| < 8 || file[..8] != SIGNATURE then None
    else
      match ReadChunks(file[8..], crc)
      case None => None
      case Some(cs) =>
        if |cs| != 3 || cs[0].tag != IHDR || cs[1].tag != IDAT || cs[2] != Parsed(IEND, []) then None
        else if |cs[0].data| != 13 || cs[0].data[8..] != FORMAT then None
        else
          var w, h := FromBigEndian(cs[0].data[..4]), FromBigEndian(cs[0].data[4..8]);
          if !Sized(w, h) then None
          else
            match decompress(cs[1].data)
            case None => None
            case Some(raw) =>
              var g := ReadScanlines(raw, w, h);
              if g.None? then None else Some(Image(w, h, g.value))
  }

  predicate Sized(w: nat, h: nat) {
    0 < w < LIMIT_31 && 0 < h < LIMIT_31
  }

  lemma HeaderRoundTrip(w: nat, h: nat)
    requires w < LIMIT_32 && h < LIMIT_32
    ensures var ihdr := BigEndian(w) + BigEndian(h) + FORMAT;
      |ihdr| == 13 && ihdr[8..] == FORMAT && FromBigEndian(ihdr[..4]) == w && FromBigEndian(ihdr[4..8]) == h
  {
    var ihdr := BigEndian(w) + BigEndian(h) + FORMAT;
    assert ihdr[..4] == BigEndian(w) && ihdr[4..8] == BigEndian(h);
    BigEndianRoundTrip(w);
    BigEndianRoundTrip(h);
  }

  lemma ChunkBefore(p: Parsed, rest: seq<Byte>, more: seq<Parsed>, crc: Crc)
    requires |p.tag| == 4 && |p.data| < LIMIT_32 && ReadChunks(rest, crc) == Some(more)
    ensures ReadChunks(Chunk(p.tag, p.data, crc) + rest, crc) == Some([p] + more)
  {
    ChunkRoundTrip(p.tag, p.data, crc, rest);
  }

  lemma ChunksRoundTrip(a: Parsed, b: Parsed, c: Parsed, crc: Crc)
    requires |a.tag| == |b.tag| == |c.tag| == 4
    requires |a.data| < LIMIT_32 && |b.data| < LIMIT_32 && |c.data| < LIMIT_32
    ensures ReadChunks(Chunk(a.tag, a.data, crc) + (Chunk(b.tag, b.data, crc) + (Chunk(c.tag, c.data, crc) + [])), crc)
      == Some([a] + ([b] + ([c] + [])))
  {
    var third := Chunk(c.tag, c.data, crc) + [];
    ChunkBefore(c, [], [], crc);
    ChunkBefore(b, third, [c] + [], crc);
    ChunkBefore(a, Chunk(b.tag, b.data, crc) + third, [b] + ([c] + []), crc);
  }

  /** What is written can be read exactly when the image has rows and columns and fewer than 2^31 of
      each, and then the pixels come back, given that decompression inverts compression. */
  lemma PngRoundTrip(w: nat, h: nat, g: Grid, compress: Codec, decompress: seq<Byte> -> Option<seq<Byte>>, crc: Crc)
    requires Rectangular(g, w, h) && decompress(compress(Scanlines(g))) == Some(Scanlines(g))
    requires Written(w, h, g, compress, crc).Some?
    ensures Read(Written(w, h, g, compress, crc).value, decompress, crc)
      == if Sized(w, h) then Some(Image(w, h, LowGrid(g))) else None
  {
    var idat := compress(Scanlines(g));
    var ihdr := BigEndian(w) + BigEndian(h) + FORMAT;
    var chunks := Chunk(IHDR, ihdr, crc) + (Chunk(IDAT, idat, crc) + (Chunk(IEND, [], crc) + []));
    ChunksRoundTrip(Parsed(IHDR, ihdr), Parsed(IDAT, idat), Parsed(IEND, []), crc);
    HeaderRoundTrip(w, h);
    ScanlinesRoundTrip(g, w, h);
    FileRead(chunks, Parsed(IHDR, ihdr), Parsed(IDAT, idat), w, h, decompress, crc);
  }

  /** A file of the three chunks is read as the image its data decompresses to. */
  lemma FileRead(chunks: seq<Byte>, header: Parsed, data: Parsed, w: nat, h: nat,
                 decompress: seq<Byte> -> Option<seq<Byte>>, crc: Crc)
    requires header.tag == IHDR && data.tag == IDAT && |header.data| == 13 && header.data[8..] == FORMAT
    requires FromBigEndian(header.data[..4]) == w && FromBigEndian(header.data[4..8]) == h
    requires ReadChunks(chunks, crc) == Some([header] + ([data] + ([Parsed(IEND, [])] + [])))
    requires decompress(data.data).Some? && ReadScanlines(decompress(data.data).value, w, h).Some?
    ensures Read(SIGNATURE + chunks, decompress, crc)
      == if Sized(w, h) then Some(Image(w, h, ReadScanlines(decompress(data.data).value, w, h).value)) else None
  {
    assert (SIGNATURE + chunks)[..8] == SIGNATURE && (SIGNATURE + chunks)[8..] == chunks;
  }
}
