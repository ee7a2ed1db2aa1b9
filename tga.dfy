/** The sprite-sheet loader of tga.go: an uncompressed 24- or 32-bit TGA
    stream (18-byte header, an image ID to skip, then the pixels row by row
    from the bottom row up) becomes a row-major array of 0xAARRGGBB words. */
module Tga {
  import opened Bytes

  /** The decoded image. The width used to address data is the pitch. */
  class Spriteset {
    var data: array<u32>
    var width: int
    var height: int
    var pitch: int

    constructor (data: array<u32>, width: int, height: int)
      ensures this.data == data && this.width == width && this.height == height
      ensures pitch == width
    {
      this.data := data;
      this.width := width;
      this.height := height;
      this.pitch := width;
    }
  }

  /** Why a stream is refused: it ends inside the header, the image ID or
      the pixels, or its pixel depth is neither 24 nor 32 bits. */
  datatype TgaError = ShortHeader | UnsupportedDepth(bits: int) | ShortId | ShortPixels

  const HeaderSize: nat := 18

  /** Index of pixel (y, x) in a row-major buffer of the given width. */
  function Idx(width: nat, y: int, x: int): int
  {
    y * width + x
  }

  /** The pixel word b | g << 8 | r << 16 | a << 24 for the bytes b, g, r
      (and a, for 32-bit pixels; 0 otherwise). The bytes occupy disjoint
      bits, so the OR is their little-endian value. */
  function Pixel(px: seq<byte>): u32
    requires |px| == 3 || |px| == 4
  {
    ReadU32LE(if |px| == 4 then px else px + [0], 0)
  }

  /** The word's little-endian bytes are the pixel's bytes in stream order:
      blue lowest, then green, red and alpha; a 24-bit pixel has alpha 0. */
  lemma PixelChannels(px: seq<byte>)
    requires |px| == 3 || |px| == 4
    ensures U32LE(Pixel(px)) == if |px| == 4 then px else px + [0]
  {
    var w := if |px| == 4 then px else px + [0];
    U32ReadWrite(w, 0);
    assert w[0..4] == w;
  }

  // ---------------------------------------------------------------------
  // The stream, as a value

  function IdLength(s: seq<byte>): nat
    requires |s| >= HeaderSize
  {
    s[0]
  }

  function Width(s: seq<byte>): nat
    requires |s| >= HeaderSize
  {
    ReadU16LE(s, 12)
  }

  function Height(s: seq<byte>): nat
    requires |s| >= HeaderSize
  {
    ReadU16LE(s, 14)
  }

  function Bits(s: seq<byte>): nat
    requires |s| >= HeaderSize
  {
    s[16]
  }

  /** Where the pixels start: after the header and the image ID. */
  function PixelStart(s: seq<byte>): nat
    requires |s| >= HeaderSize
  {
    HeaderSize + IdLength(s)
  }

  /** The bytes of one row of pixels. */
  function RowBytes(s: seq<byte>): nat
    requires |s| >= HeaderSize
  {
    Width(s) * (Bits(s) / 8)
  }

  /** The bytes a loaded image occupies in the stream: the header, the
      image ID and height rows of width pixels. */
  function ImageSize(s: seq<byte>): int
    requires |s| >= HeaderSize
  {
    PixelStart(s) + Height(s) * RowBytes(s)
  }

  /** The outcome of loading stream s: the error, or None on success. */
  function Check(s: seq<byte>): Option<TgaError>
  {
    if |s| < HeaderSize then Some(ShortHeader)
    else if Bits(s) != 32 && Bits(s) != 24 then Some(UnsupportedDepth(Bits(s)))
    else if |s| < PixelStart(s) then Some(ShortId)
    else if |s| < ImageSize(s) then Some(ShortPixels)
    else None
  }

  /** The pixel stored at byte offset off of the stream (0 past the end). */
  function PixelAt(s: seq<byte>, off: int, bpp: nat): u32
    requires bpp == 3 || bpp == 4
  {
    if 0 <= off && off + bpp <= |s| then Pixel(s[off..off + bpp]) else 0
  }

  /** The byte offset of the k-th pixel of a run of bpp-byte pixels. */
  function Stride(k: int, bpp: nat): (r: int)
    requires bpp == 3 || bpp == 4
    ensures r == k * bpp
  {
    if bpp == 3 then 3 * k else 4 * k
  }

  /** The k-th pixel of the stream. */
  function StreamPixel(s: seq<byte>, start: nat, bpp: nat, k: int): u32
    requires bpp == 3 || bpp == 4
  {
    PixelAt(s, start + k * bpp, bpp)
  }

  /** The image a stream that passes Check loads to, in row-major order:
      the pixel at index i is the one at row i / width and column i % width. */
  function Image(s: seq<byte>): (img: seq<u32>)
    requires |s| >= HeaderSize && (Bits(s) == 24 || Bits(s) == 32)
    ensures |img| == Width(s) * Height(s)
  {
    var w, h, bpp := Width(s), Height(s), Bits(s) / 8;
    seq(w * h, i requires 0 <= i < w * h =>
      StreamPixel(s, PixelStart(s), bpp, Idx(w, h - 1 - i / w, i % w)))
  }

  /** The stream offset of the r-th row read (rows are read bottom-up). */
  function RowStart(s: seq<byte>, r: nat): nat
    requires |s| >= HeaderSize
  {
    if r == 0 then PixelStart(s) else RowStart(s, r - 1) + RowBytes(s)
  }

  /** Row r starts r rows' bytes after the first. */
  lemma {:induction false} RowStartClosed(s: seq<byte>, r: nat)
    requires |s| >= HeaderSize
    ensures RowStart(s, r) == PixelStart(s) + r * RowBytes(s)
  {
    if r > 0 {
      RowStartClosed(s, r - 1);
    }
  }

  /** Later rows start no earlier. */
  lemma {:induction false} RowStartMono(s: seq<byte>, a: nat, b: nat)
    requires |s| >= HeaderSize && a <= b
    ensures RowStart(s, a) <= RowStart(s, b)
    decreases b
  {
    if a < b {
      RowStartMono(s, a, b - 1);
    }
  }

  /** After the last row comes the end of the image. */
  lemma RowStartEnd(s: seq<byte>)
    requires |s| >= HeaderSize
    ensures RowStart(s, Height(s)) == ImageSize(s)
  {
    RowStartClosed(s, Height(s));
  }

  // ---------------------------------------------------------------------
  // Row-major arithmetic

  lemma MulMono(a: int, b: int, c: nat)
    requires a <= b
    ensures a * c <= b * c
  {
    assert (b - a) * c >= 0;
  }

  lemma IdxBound(width: nat, height: nat, y: int, x: int)
    requires 0 <= y < height && 0 <= x < width
    ensures 0 <= Idx(width, y, x) < width * height
  {
    RowFits(width, height, y);
  }

  /** Row y of the buffer lies inside it. */
  lemma RowFits(width: nat, height: nat, y: int)
    requires 0 <= y < height
    ensures 0 <= Idx(width, y, 0) && Idx(width, y, 0) + width <= width * height
  {
    MulMono(y + 1, height, width);
  }

  /** Two pixels with the same index are the same pixel. */
  lemma IdxUnique(width: nat, y1: int, x1: int, y2: int, x2: int)
    requires 0 <= x1 < width && 0 <= x2 < width
    requires Idx(width, y1, x1) == Idx(width, y2, x2)
    ensures y1 == y2 && x1 == x2
  {
    if y1 > y2 {
      assert (y1 - y2) * width == x2 - x1;
      MulMono(1, y1 - y2, width);
    } else if y1 < y2 {
      assert (y2 - y1) * width == x1 - x2;
      MulMono(1, y2 - y1, width);
    }
  }

  /** The stream offset of pixel x of the r-th row read. */
  lemma StreamOffset(r: int, width: nat, x: int, bpp: nat)
    ensures Idx(width, r, x) * bpp == r * (width * bpp) + x * bpp
  {
  }

  /** A slice of the stream read from offset p0 on is a slice of the file. */
  lemma SuffixSlice(c: seq<byte>, p0: nat, a: nat, n: nat)
    requires p0 + a + n <= |c|
    ensures c[p0..][a..a + n] == c[p0 + a..p0 + a + n]
  {
  }

  /** Row and column of an index. */
  lemma DivIdx(width: nat, y: int, x: int)
    requires 0 <= x < width
    ensures Idx(width, y, x) / width == y && Idx(width, y, x) % width == x
  {
    var i := Idx(width, y, x);
    IdxUnique(width, i / width, i % width, y, x);
  }

  /** Every index of a width * height buffer is exactly one pixel (y, x):
      a loader that writes every (y, x) once writes each index once. */
  lemma RowMajor(width: nat, height: nat, i: int)
    requires 0 <= i < width * height
    ensures 0 < width && 0 <= i / width < height && Idx(width, i / width, i % width) == i
    ensures forall y, x :: 0 <= x < width && Idx(width, y, x) == i ==> y == i / width && x == i % width
  {
    if i / width >= height {
      MulMono(height, i / width, width);
    }
    forall y, x | 0 <= x < width && Idx(width, y, x) == i
      ensures y == i / width && x == i % width
    {
      DivIdx(width, y, x);
    }
  }

  /** The image at (y, x) is the stream pixel numbered
      (height - 1 - y) * width + x: rows come bottom-up, each left to right. */
  lemma ImageAt(s: seq<byte>, y: int, x: int)
    requires |s| >= HeaderSize && (Bits(s) == 24 || Bits(s) == 32)
    requires 0 <= y < Height(s) && 0 <= x < Width(s)
    ensures 0 <= Idx(Width(s), y, x) < |Image(s)|
    ensures Image(s)[Idx(Width(s), y, x)]
      == StreamPixel(s, PixelStart(s), Bits(s) / 8, Idx(Width(s), Height(s) - 1 - y, x))
  {
    IdxBound(Width(s), Height(s), y, x);
    DivIdx(Width(s), y, x);
  }

  /** The k-th pixel of the stream lands at index
      (height - 1 - k / width) * width + k % width. */
  lemma StreamOrder(s: seq<byte>, k: int)
    requires |s| >= HeaderSize && (Bits(s) == 24 || Bits(s) == 32)
    requires 0 <= k < Width(s) * Height(s)
    ensures var w, h := Width(s), Height(s);
      var i := Idx(w, h - 1 - k / w, k % w);
      0 <= i < |Image(s)| && Image(s)[i] == StreamPixel(s, PixelStart(s), Bits(s) / 8, k)
  {
    var w, h := Width(s), Height(s);
    RowMajor(w, h, k);
    ImageAt(s, h - 1 - k / w, k % w);
  }

  // ---------------------------------------------------------------------
  // The loader

  /** The inner loop of the loader: the width pixels of one row, read at
      stream offset off and stored from index row on. The row fails as a
      whole if the stream ends inside it. */
  method ReadRow(f: ByteFile, data: array<u32>, row: nat, width: nat, bpp: nat,
                 ghost s: seq<byte>, ghost p0: nat, ghost off: nat) returns (ok: bool)
    requires bpp == 3 || bpp == 4
    requires row + width <= data.Length
    requires p0 <= |f.contents| && f.contents[p0..] == s && f.pos == p0 + off && off <= |s|
    modifies f`pos, data
    ensures ok <==> off + Stride(width, bpp) <= |s|
    ensures ok ==> f.pos == old(f.pos) + Stride(width, bpp)
    ensures ok ==> forall x :: 0 <= x < width ==> data[row + x] == PixelAt(s, off + Stride(x, bpp), bpp)
    ensures forall i :: 0 <= i < data.Length && !(row <= i < row + width) ==> data[i] == old(data[i])
  {
    var x := 0;
    ghost var cur: nat := off;
    while x < width
      invariant 0 <= x <= width
      invariant cur == off + Stride(x, bpp) && f.pos == p0 + cur && cur <= |s|
      invariant forall xx :: 0 <= xx < x ==> data[row + xx] == PixelAt(s, off + Stride(xx, bpp), bpp)
      invariant forall i :: 0 <= i < data.Length && !(row <= i < row + width) ==> data[i] == old(data[i])
    {
      var pixelBuf := f.Read(bpp);
      if pixelBuf.None? {
        assert Stride(x + 1, bpp) <= Stride(width, bpp);
        return false;
      }
      SuffixSlice(f.contents, p0, cur, bpp);
      data[row + x] := Pixel(pixelBuf.value);
      x := x + 1;
      cur := cur + bpp;
    }
    ok := true;
  }

  /** One pass of the loader's outer loop: row y of the image, the
      (height - 1 - y)-th row of the stream, read into data. */
  method LoadRow(f: ByteFile, data: array<u32>, y: int, width: nat, height: nat, bpp: nat,
                 ghost s: seq<byte>, ghost p0: nat) returns (ok: bool)
    requires |s| >= HeaderSize && (Bits(s) == 24 || Bits(s) == 32)
    requires width == Width(s) && height == Height(s) && bpp == Bits(s) / 8
    requires 0 <= y < height && data.Length == width * height
    requires p0 <= |f.contents| && f.contents[p0..] == s
    requires f.pos == p0 + RowStart(s, height - 1 - y) && 0 <= RowStart(s, height - 1 - y) <= |s|
    modifies f`pos, data
    ensures 0 <= y * width && y * width + width <= |Image(s)| == data.Length
    ensures ok <==> RowStart(s, height - y) <= |s|
    ensures ok ==> f.pos == p0 + RowStart(s, height - y)
    ensures ok ==> forall i :: y * width <= i < y * width + width ==> data[i] == Image(s)[i]
    ensures forall i :: 0 <= i < data.Length && !(y * width <= i < y * width + width) ==> data[i] == old(data[i])
  {
    RowFits(width, height, y);
    RowStartClosed(s, height - 1 - y);
    ghost var off: nat := RowStart(s, height - 1 - y);
    ok := ReadRow(f, data, y * width, width, bpp, s, p0, off);
    if ok {
      forall i | y * width <= i < y * width + width
        ensures data[i] == Image(s)[i]
      {
        var x := i - y * width;
        assert data[y * width + x] == PixelAt(s, off + Stride(x, bpp), bpp);
        ImageAt(s, y, x);
        StreamOffset(height - 1 - y, width, x, bpp);
      }
    }
  }

  /** The loader's pixel loops: allocates the width * height words and
      fills rows height - 1 down to 0 from the stream, failing at the first
      row the stream ends inside. */
  method LoadPixels(f: ByteFile, width: nat, height: nat, bpp: nat, ghost s: seq<byte>, ghost p0: nat)
    returns (data: array<u32>, ok: bool)
    requires |s| >= HeaderSize && (Bits(s) == 24 || Bits(s) == 32)
    requires width == Width(s) && height == Height(s) && bpp == Bits(s) / 8
    requires p0 <= |f.contents| && f.contents[p0..] == s
    requires f.pos == p0 + PixelStart(s) && PixelStart(s) <= |s|
    modifies f`pos
    ensures fresh(data)
    ensures ok <==> ImageSize(s) <= |s|
    ensures ok ==> data[..] == Image(s) && f.pos == p0 + ImageSize(s)
  {
    data := new u32[width * height](_ => 0);
    ghost var img := Image(s);

    var y: int := height - 1;
    ghost var lo: nat := width * height;
    while y >= 0
      invariant -1 <= y < height
      invariant f.contents == old(f.contents)
      invariant f.pos == p0 + RowStart(s, height - 1 - y) && RowStart(s, height - 1 - y) <= |s|
      invariant lo == (y + 1) * width <= |img| == data.Length
      invariant data[lo..] == img[lo..]
    {
      ok := LoadRow(f, data, y, width, height, bpp, s, p0);
      if !ok {
        RowStartMono(s, height - y, height);
        RowStartEnd(s);
        return;
      }
      assert lo == y * width + width;
      lo := y * width;
      y := y - 1;
    }
    RowStartEnd(s);
    assert lo == 0;
    assert data[..] == img;
    ok := true;
  }

  /** LoadTGAFromIoReader: reads the stream starting at f's offset. On
      success the image is Image(s) and exactly its bytes have been
      consumed; otherwise the error is the one Check gives. */
  method LoadTGAFromIoReader(f: ByteFile) returns (sprites: Spriteset?, err: Option<TgaError>)
    requires f.pos <= |f.contents|
    modifies f`pos
    ensures err == Check(old(f.contents[f.pos..]))
    ensures sprites == null <==> err.Some?
    ensures sprites != null ==>
      var s := old(f.contents[f.pos..]);
      && |s| >= HeaderSize && (Bits(s) == 24 || Bits(s) == 32)
      && fresh(sprites) && fresh(sprites.data)
      && sprites.width == Width(s) && sprites.height == Height(s) && sprites.pitch == Width(s)
      && sprites.data[..] == Image(s)
      && f.pos == old(f.pos) + ImageSize(s)
  {
    ghost var p0 := f.pos;
    ghost var s := f.contents[p0..];
    var header := f.Read(18);
    if header.None? {
      return null, Some(ShortHeader);
    }
    var hd := header.value;
    assert hd == s[..18];
    var idLength: nat := hd[0];
    var width: nat := ReadU16LE(hd, 12);
    var height: nat := ReadU16LE(hd, 14);
    var bits: nat := hd[16];
    assert idLength == IdLength(s) && width == Width(s) && height == Height(s) && bits == Bits(s);
    if bits != 32 && bits != 24 {
      return null, Some(UnsupportedDepth(bits));
    }

    if idLength > 0 {
      var skipped := f.Read(idLength);
      if skipped.None? {
        return null, Some(ShortId);
      }
    }

    var data, ok := LoadPixels(f, width, height, bits / 8, s, p0);
    if !ok {
      return null, Some(ShortPixels);
    }
    sprites := new Spriteset(data, width, height);
    err := None;
  }
}
