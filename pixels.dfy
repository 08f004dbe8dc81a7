/**
 * The RGBA pixel-packing loop shared by engine/texture.go LoadImage and
 * graphics/texture.go LoadImage: every pixel of a decoded image, in
 * row-major order, becomes four bytes R, G, B, A, each the high byte of the
 * 16-bit channel value that Go's `color.Color.RGBA()` returns.
 */
module Pixels {

  newtype byte = x: int | 0 <= x < 256

  /** The four channel values `RGBA()` returns for one pixel (uint32 each). */
  datatype Color16 = Color16(r: nat, g: nat, b: nat, a: nat)

  /**
   * A decoded image as the loop sees it: `Bounds().Max` and the colour at
   * each coordinate (image decoders give (0, 0) as `Bounds().Min`).
   */
  datatype DecodedImage = DecodedImage(maxX: nat, maxY: nat, at: (int, int) -> Color16)

  /** Go's `byte(v / 256)`: the quotient, truncated to 8 bits. */
  function HighByte(v: nat): byte
  {
    ((v / 256) % 256) as byte
  }

  /** Channel k (0 = R, 1 = G, 2 = B, 3 = A) of a colour. */
  function Channel(c: Color16, k: nat): nat
    requires k < 4
  {
    match k
    case 0 => c.r
    case 1 => c.g
    case 2 => c.b
    case 3 => c.a
  }

  /** Where channel k of pixel (x, y) lands in a row-major RGBA buffer of width w. */
  function Offset(w: nat, x: nat, y: nat, k: nat): nat
  {
    4 * (y * w + x) + k
  }

  /** The byte the loop writes for channel k of pixel (x, y). */
  function PixelByte(img: DecodedImage, x: nat, y: nat, k: nat): byte
    requires k < 4
  {
    HighByte(Channel(img.at(x, y), k))
  }

  /** A buffer holding exactly the packed image: length 4·w·h, every slot as the loop writes it. */
  ghost predicate IsPacked(img: DecodedImage, pixels: seq<byte>)
  {
    |pixels| == 4 * img.maxX * img.maxY &&
    forall x: nat, y: nat, k: nat :: x < img.maxX && y < img.maxY && k < 4 ==>
      Offset(img.maxX, x, y, k) < |pixels| &&
      pixels[Offset(img.maxX, x, y, k)] == PixelByte(img, x, y, k)
  }

  /** The byte at position i of the buffer, read back from the cursor: pixel i / 4, channel i % 4. */
  function ByteAt(img: DecodedImage, i: nat): byte
    requires img.maxX > 0
  {
    PixelByte(img, (i / 4) % img.maxX, (i / 4) / img.maxX, i % 4)
  }

  /** The cursor position of channel k of pixel (x, y) is decoded back to (x, y, k). */
  lemma OffsetDecodes(w: nat, x: nat, y: nat, k: nat)
    requires x < w && k < 4
    ensures (Offset(w, x, y, k) / 4) % w == x
    ensures (Offset(w, x, y, k) / 4) / w == y
    ensures Offset(w, x, y, k) % 4 == k
  {
    var p := y * w + x;
    assert Offset(w, x, y, k) == 4 * p + k;
    assert (4 * p + k) / 4 == p;
    assert (4 * p + k) % 4 == k;
    assert p / w == y && p % w == x by {
      LemmaDivModUnique(p, w, y, x);
    }
  }

  lemma LemmaDivModUnique(p: int, w: int, q: int, r: int)
    requires w > 0 && 0 <= r < w && p == q * w + r
    ensures p / w == q && p % w == r
  {
    var q', r' := p / w, p % w;
    assert p == q' * w + r';
    assert (q - q') * w == r' - r;
    if q > q' {
      MulMono(1, q - q', w);
      assert false;
    } else if q < q' {
      MulMono(1, q' - q, w);
      assert false;
    }
  }

  /** One pixel's four slots fit in the buffer. */
  lemma CursorRoom(w: nat, h: nat, x: nat, y: nat)
    requires x < w && y < h
    ensures 4 * (y * w + x) + 4 <= w * h * 4
  {
    assert y * w + x + 1 <= y * w + w == (y + 1) * w;
    MulMono(y + 1, h, w);
  }

  lemma MulMono(a: nat, b: nat, w: nat)
    requires a <= b
    ensures a * w <= b * w
  {}

  /** A buffer that holds ByteAt at every position up to 4·w·h is the packed image. */
  lemma PackedFromCursor(img: DecodedImage, pixels: seq<byte>)
    requires |pixels| == img.maxX * img.maxY * 4
    requires img.maxX > 0 ==> forall i :: 0 <= i < |pixels| ==> pixels[i] == ByteAt(img, i)
    ensures IsPacked(img, pixels)
  {
    var w, h := img.maxX, img.maxY;
    forall x: nat, y: nat, k: nat | x < w && y < h && k < 4
      ensures Offset(w, x, y, k) < |pixels| && pixels[Offset(w, x, y, k)] == PixelByte(img, x, y, k)
    {
      CursorRoom(w, h, x, y);
      OffsetDecodes(w, x, y, k);
    }
  }

  /** The four writes of one loop iteration: R, G, B, A of pixel (x, y) at the cursor. */
  method WritePixel(img: DecodedImage, buf: array<byte>, bIndex: nat, x: nat, y: nat)
    requires x < img.maxX
    requires bIndex == 4 * (y * img.maxX + x) && bIndex + 4 <= buf.Length
    requires forall i :: 0 <= i < bIndex ==> buf[i] == ByteAt(img, i)
    modifies buf
    ensures forall i :: 0 <= i < bIndex + 4 ==> buf[i] == ByteAt(img, i)
  {
    var w := img.maxX;
    OffsetDecodes(w, x, y, 0);
    OffsetDecodes(w, x, y, 1);
    OffsetDecodes(w, x, y, 2);
    OffsetDecodes(w, x, y, 3);
    var c := img.at(x, y);
    var i := bIndex;
    buf[i] := HighByte(c.r);
    i := i + 1;
    buf[i] := HighByte(c.g);
    i := i + 1;
    buf[i] := HighByte(c.b);
    i := i + 1;
    buf[i] := HighByte(c.a);
    assert Offset(w, x, y, 0) == bIndex && Offset(w, x, y, 3) == bIndex + 3;
  }

  /**
   * The nested y/x loop of LoadImage: a cursor `bIndex` walks the buffer four
   * bytes per pixel. Every write is in bounds, the cursor ends at 4·w·h,
   * and the result is the packed image.
   */
  method PackPixels(img: DecodedImage) returns (pixels: seq<byte>)
    ensures IsPacked(img, pixels)
  {
    var w, h := img.maxX, img.maxY;
    var buf := new byte[w * h * 4];
    var bIndex := 0;
    var y := 0;
    while y < h
      invariant 0 <= y <= h
      invariant bIndex == 4 * (y * w) && bIndex <= buf.Length
      invariant w > 0 ==> forall i :: 0 <= i < bIndex ==> buf[i] == ByteAt(img, i)
    {
      var x := 0;
      while x < w
        invariant 0 <= x <= w
        invariant bIndex == 4 * (y * w + x) && bIndex <= buf.Length
        invariant w > 0 ==> forall i :: 0 <= i < bIndex ==> buf[i] == ByteAt(img, i)
      {
        CursorRoom(w, h, x, y);
        WritePixel(img, buf, bIndex, x, y);
        bIndex := bIndex + 4;
        x := x + 1;
      }
      assert 4 * (y * w + w) == 4 * ((y + 1) * w);
      y := y + 1;
    }
    pixels := buf[..];
    PackedFromCursor(img, pixels);
  }
}
