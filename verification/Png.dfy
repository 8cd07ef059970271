/** The PNG file around the canvas, and a reader of such files (sections 5.3 and 9.2 of the W3C PNG specification). */
module Png {
  import opened Schema
  import opened Canvas

  const WORD := 0x1_0000_0000

  /** What zlib computes: the checksum of a text, and a compression with its inverse. */
  datatype Zlib = Zlib(crc32: seq<Byte> -> int, compress: seq<Byte> -> seq<Byte>, decompress: seq<Byte> -> seq<Byte>)

  ghost predicate ZlibOk(z: Zlib) {
    forall data :: z.decompress(z.compress(data)) == data
  }

  // ---- struct.pack(">I", n)

  function Pack(n: nat): (r: seq<Byte>)
    requires n < WORD
    ensures |r| == 4
  {
    [n / 0x100_0000, n / 0x1_0000 % 0x100, n / 0x100 % 0x100, n % 0x100]
  }

  function Unpack(b: seq<Byte>): nat
    requires |b| == 4
  {
    (b[0] as int) * 0x100_0000 + (b[1] as int) * 0x1_0000 + (b[2] as int) * 0x100 + b[3] as int
  }

  lemma PackRoundTrip(n: nat)
    requires n < WORD
    ensures Unpack(Pack(n)) == n
  {
    assert n / 0x1_0000 == n / 0x100 / 0x100 && n / 0x100_0000 == n / 0x1_0000 / 0x100;
  }

  // ---- chunks

  datatype Chunk = Chunk(kind: seq<Byte>, data: seq<Byte>)

  /** struct.pack refuses a length of 2**32 or more. */
  predicate ChunkOk(c: Chunk) {
    |c.kind| == 4 && |c.data| < WORD
  }

  /** crc32(kind + data) & 0xFFFFFFFF. */
  function Checksum(z: Zlib, c: Chunk): (r: nat)
    ensures r < WORD
  {
    z.crc32(c.kind + c.data) % WORD
  }

  function PngChunk(z: Zlib, c: Chunk): (r: seq<Byte>)
    requires ChunkOk(c)
    ensures |r| == 12 + |c.data|
  {
    Pack(|c.data|) + c.kind + c.data + Pack(Checksum(z, c))
  }

  /** Reads chunks until the bytes end; a wrong length or checksum is refused. */
  function ParseChunks(z: Zlib, bytes: seq<Byte>): Option<seq<Chunk>>
    decreases |bytes|
  {
    if bytes == [] then Some([])
    else if |bytes| < 12 then None
    else
      var n := Unpack(bytes[..4]);
      if |bytes| < 12 + n then None
      else
        var c := Chunk(bytes[4..8], bytes[8..8 + n]);
        if Unpack(bytes[8 + n..12 + n]) != Checksum(z, c) then None
        else
          match ParseChunks(z, bytes[12 + n..])
          case None => None
          case Some(rest) => Some([c] + rest)
  }

  function Join(z: Zlib, chunks: seq<Chunk>): seq<Byte>
    requires forall k | 0 <= k < |chunks| :: ChunkOk(chunks[k])
  {
    if chunks == [] then [] else PngChunk(z, chunks[0]) + Join(z, chunks[1..])
  }

  lemma FirstChunk(z: Zlib, c: Chunk, rest: seq<Byte>)
    requires ChunkOk(c)
    ensures var bytes, n := PngChunk(z, c) + rest, |c.data|;
            && bytes[..4] == Pack(n) && bytes[4..8] == c.kind && bytes[8..8 + n] == c.data
            && bytes[8 + n..12 + n] == Pack(Checksum(z, c)) && bytes[12 + n..] == rest
  {
  }

  /** The reader recovers every list of chunks. */
  lemma {:induction false} ChunksRoundTrip(z: Zlib, chunks: seq<Chunk>)
    requires forall k | 0 <= k < |chunks| :: ChunkOk(chunks[k])
    ensures ParseChunks(z, Join(z, chunks)) == Some(chunks)
  {
    if chunks != [] {
      var c, rest := chunks[0], Join(z, chunks[1..]);
      ChunksRoundTrip(z, chunks[1..]);
      FirstChunk(z, c, rest);
      PackRoundTrip(|c.data|);
      PackRoundTrip(Checksum(z, c));
      assert chunks == [c] + chunks[1..];
    }
  }

  // ---- scanlines

  /** The canvas rows, each behind the filter byte 0. */
  function Framed(data: seq<Byte>, rowBytes: nat, rows: nat): (r: seq<Byte>)
    requires |data| >= rows * rowBytes
    ensures |r| == rows * (rowBytes + 1)
    decreases rows
  {
    if rows == 0 then []
    else
      LastRow(rows, rowBytes);
      Framed(data, rowBytes, rows - 1) + [0] + data[(rows - 1) * rowBytes..rows * rowBytes]
  }

  lemma LastRow(rows: nat, rowBytes: nat)
    requires rows > 0
    ensures rows * rowBytes == (rows - 1) * rowBytes + rowBytes && (rows - 1) * rowBytes >= 0
  {
  }

  /** Undoes the framing; only the filter type None is known. */
  function Unframed(raw: seq<Byte>, rowBytes: nat, rows: nat): Option<seq<Byte>>
    decreases rows
  {
    if rows == 0 then if raw == [] then Some([]) else None
    else if |raw| < rowBytes + 1 || raw[|raw| - rowBytes - 1] != 0 then None
    else
      match Unframed(raw[..|raw| - rowBytes - 1], rowBytes, rows - 1)
      case None => None
      case Some(before) => Some(before + raw[|raw| - rowBytes..])
  }

  lemma {:induction false} FramingRoundTrip(data: seq<Byte>, rowBytes: nat, rows: nat)
    requires |data| >= rows * rowBytes
    ensures Unframed(Framed(data, rowBytes, rows), rowBytes, rows) == Some(data[..rows * rowBytes])
  {
    if rows > 0 {
      LastRow(rows, rowBytes);
      FramingRoundTrip(data, rowBytes, rows - 1);
      var before, row := Framed(data, rowBytes, rows - 1), data[(rows - 1) * rowBytes..rows * rowBytes];
      var raw := before + [0] + row;
      assert raw[..|raw| - rowBytes - 1] == before && raw[|raw| - rowBytes..] == row;
      assert data[..(rows - 1) * rowBytes] + row == data[..rows * rowBytes];
    }
  }

  // ---- the file

  const SIGNATURE: seq<Byte> := [0x89, 0x50, 0x4E, 0x47, 0x0D, 0x0A, 0x1A, 0x0A]
  const IHDR: seq<Byte> := [0x49, 0x48, 0x44, 0x52]
  const IDAT: seq<Byte> := [0x49, 0x44, 0x41, 0x54]
  const IEND: seq<Byte> := [0x49, 0x45, 0x4E, 0x44]

  function Header(width: nat, height: nat): (r: seq<Byte>)
    requires width < WORD && height < WORD
    ensures |r| == 13
  {
    Pack(width) + Pack(height) + [8, 2, 0, 0, 0]
  }

  datatype Image = Image(width: nat, height: nat, data: seq<Byte>)

  /** The image in the chunks of a truecolour file with 8 bits per sample, one IDAT chunk and unfiltered rows. */
  function ReadChunks(z: Zlib, chunks: seq<Chunk>): Option<Image> {
    if |chunks| != 3 || chunks[0].kind != IHDR || chunks[1].kind != IDAT || chunks[2] != Chunk(IEND, []) then None
    else if |chunks[0].data| != 13 || chunks[0].data[8..] != [8, 2, 0, 0, 0] then None
    else
      var width, height := Unpack(chunks[0].data[..4]), Unpack(chunks[0].data[4..8]);
      match Unframed(z.decompress(chunks[1].data), width * 3, height)
      case None => None
      case Some(data) => Some(Image(width, height, data))
  }

  function Read(z: Zlib, file: seq<Byte>): Option<Image> {
    if |file| < 8 || file[..8] != SIGNATURE then None
    else
      match ParseChunks(z, file[8..])
      case None => None
      case Some(chunks) => ReadChunks(z, chunks)
  }

  lemma RowsFill(width: nat, height: nat)
    ensures height * (width * 3) == width * height * 3
  {
    assert height * (width * 3) == (height * width) * 3;
  }

  /** The loop over the scanlines. */
  method FrameRows(data: seq<Byte>, rowBytes: nat, rows: nat) returns (raw: seq<Byte>)
    requires |data| >= rows * rowBytes
    ensures raw == Framed(data, rowBytes, rows)
  {
    raw := [];
    for y := 0 to rows
      invariant raw == Framed(data, rowBytes, y)
    {
      RowsBelow(rowBytes, y, rows);
      LastRow(y + 1, rowBytes);
      raw := raw + [0];
      var start := y * rowBytes;
      raw := raw + data[start..start + rowBytes];
    }
  }

  /** The part of render_social_preview after the drawing. */
  method WritePng(z: Zlib, canvas: ByteArray, width: nat, height: nat) returns (png: seq<Byte>)
    requires Sized(canvas.data, width, height) && width < WORD && height < WORD
    requires FitsOneChunk(z, canvas.data, width, height)
    ensures png == SIGNATURE + Join(z, ChunksOf(z, canvas.data, width, height))
  {
    RowsFill(width, height);
    var raw := FrameRows(canvas.data, width * 3, height);
    var compressed := z.compress(raw);
    png := SIGNATURE;
    png := png + PngChunk(z, Chunk(IHDR, Header(width, height)));
    png := png + PngChunk(z, Chunk(IDAT, compressed));
    png := png + PngChunk(z, Chunk(IEND, []));
    ThreeChunks(z, Chunk(IHDR, Header(width, height)), Chunk(IDAT, compressed), Chunk(IEND, []));
  }

  /** The compressed rows fit one chunk; struct.pack raises otherwise. */
  predicate FitsOneChunk(z: Zlib, data: seq<Byte>, width: nat, height: nat)
    requires Sized(data, width, height)
  {
    RowsFill(width, height);
    |z.compress(Framed(data, width * 3, height))| < WORD
  }

  function ChunksOf(z: Zlib, data: seq<Byte>, width: nat, height: nat): (r: seq<Chunk>)
    requires Sized(data, width, height) && width < WORD && height < WORD
    requires FitsOneChunk(z, data, width, height)
    ensures forall k | 0 <= k < |r| :: ChunkOk(r[k])
  {
    RowsFill(width, height);
    [Chunk(IHDR, Header(width, height)), Chunk(IDAT, z.compress(Framed(data, width * 3, height))), Chunk(IEND, [])]
  }

  lemma ThreeChunks(z: Zlib, a: Chunk, b: Chunk, c: Chunk)
    requires ChunkOk(a) && ChunkOk(b) && ChunkOk(c)
    ensures SIGNATURE + PngChunk(z, a) + PngChunk(z, b) + PngChunk(z, c) == SIGNATURE + Join(z, [a, b, c])
  {
    assert [a, b, c][1..] == [b, c] && [b, c][1..] == [c] && [c][1..] == [];
    assert Join(z, [c]) == PngChunk(z, c) + [];
    assert Join(z, [b, c]) == PngChunk(z, b) + Join(z, [c]);
    assert Join(z, [a, b, c]) == PngChunk(z, a) + Join(z, [b, c]);
  }

  lemma ContentRoundTrip(z: Zlib, data: seq<Byte>, width: nat, height: nat)
    requires ZlibOk(z) && Sized(data, width, height) && width < WORD && height < WORD
    requires FitsOneChunk(z, data, width, height)
    ensures ReadChunks(z, ChunksOf(z, data, width, height)) == Some(Image(width, height, data))
  {
    HeaderRoundTrip(width, height);
    RowsFill(width, height);
    FramingRoundTrip(data, width * 3, height);
    assert data[..height * (width * 3)] == data;
  }

  /** Reading the written file gives back the size and every byte of the canvas. */
  lemma FileRoundTrip(z: Zlib, data: seq<Byte>, width: nat, height: nat)
    requires ZlibOk(z) && Sized(data, width, height) && width < WORD && height < WORD
    requires FitsOneChunk(z, data, width, height)
    ensures Read(z, SIGNATURE + Join(z, ChunksOf(z, data, width, height))) == Some(Image(width, height, data))
  {
    var chunks := ChunksOf(z, data, width, height);
    AfterSignature(Join(z, chunks));
    ChunksRoundTrip(z, chunks);
    ContentRoundTrip(z, data, width, height);
  }

  lemma AfterSignature(rest: seq<Byte>)
    ensures (SIGNATURE + rest)[..8] == SIGNATURE && (SIGNATURE + rest)[8..] == rest
  {
  }

  lemma HeaderRoundTrip(width: nat, height: nat)
    requires width < WORD && height < WORD
    ensures var h := Header(width, height);
            Unpack(h[..4]) == width && Unpack(h[4..8]) == height && h[8..] == [8, 2, 0, 0, 0]
  {
    var h := Header(width, height);
    assert h[..4] == Pack(width) && h[4..8] == Pack(height);
    PackRoundTrip(width);
    PackRoundTrip(height);
  }
}
