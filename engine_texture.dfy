/**
 * engine/texture.go: GPU images (texture id and pixel size) and textures,
 * which are UV sub-rectangles of a shared image. The GL upload is an
 * effect outside the model: the texture id it creates is a parameter, and
 * the uploaded pixel buffer is returned.
 */
module EngineTexture {
  import opened GoInt
  import opened Transforms
  import opened Pixels

  /** A texture on the GPU: id and pixel size (float32 in the source). */
  datatype Image = Image(id: nat, width: real, height: real)

  const ZeroImage := Image(0, 0.0, 0.0)

  /** An image plus the UV rectangle {u min, u max, v min, v max} it covers. */
  datatype Texture = Texture(image: Image, texCoords: Vec4)

  /** What opening and decoding an image file yields. */
  datatype ImageFile = OpenError | DecodeError | Decoded(img: DecodedImage)

  /**
   * LoadImage: on an open or decode error the zero Image and an error; otherwise
   * an Image of size Bounds().Max with the given texture id, whose uploaded
   * buffer is the image packed row-major as RGBA bytes.
   */
  method LoadImage(file: ImageFile, texId: nat) returns (image: Image, pixels: seq<byte>, err: bool)
    ensures err <==> !file.Decoded?
    ensures err ==> image == ZeroImage && pixels == []
    ensures !err ==> image == Image(texId, file.img.maxX as real, file.img.maxY as real)
    ensures !err ==> IsPacked(file.img, pixels)
  {
    if !file.Decoded? {
      return ZeroImage, [], true;
    }
    pixels := PackPixels(file.img);
    image := Image(texId, file.img.maxX as real, file.img.maxY as real);
    err := false;
  }

  /** NewTexture: the whole image (UVs 0, 1, 0, 1); a load error panics. */
  method NewTexture(file: ImageFile, texId: nat) returns (r: Outcome<Texture>)
    ensures r.Panic? <==> !file.Decoded?
    ensures r.Panic? ==> r.fault == LoadFailed
    ensures r.Ok? ==> r.value.image == Image(texId, file.img.maxX as real, file.img.maxY as real)
    ensures r.Ok? ==> r.value.texCoords == Vec4(0.0, 1.0, 0.0, 1.0)
  {
    var img, _, err := LoadImage(file, texId);
    if err {
      return Panic(LoadFailed);
    }
    r := Ok(Texture(img, Vec4(0.0, 1.0, 0.0, 1.0)));
  }

  /**
   * NewTextureFromAtlas: the texture covering the pixel rectangle at
   * (xOffset, yOffset) of size width × height inside the image.
   * Division by a zero image size gives infinities in float32; it is excluded here.
   */
  function NewTextureFromAtlas(image: Image, xOffset: real, yOffset: real, width: real, height: real): (t: Texture)
    requires image.width != 0.0 && image.height != 0.0
    ensures t.image == image
  {
    var umin := xOffset / image.width;
    var umax := (xOffset + width) / image.width;
    var vmin := yOffset / image.height;
    var vmax := (yOffset + height) / image.height;
    Texture(image, Vec4(umin, umax, vmin, vmax))
  }

  /** Scaled back to pixels, the UVs give the rectangle's offset and size. */
  lemma AtlasUVsInPixels(image: Image, xOffset: real, yOffset: real, width: real, height: real)
    requires image.width != 0.0 && image.height != 0.0
    ensures var uv := NewTextureFromAtlas(image, xOffset, yOffset, width, height).texCoords;
      uv.x * image.width == xOffset && (uv.y - uv.x) * image.width == width &&
      uv.z * image.height == yOffset && (uv.w - uv.z) * image.height == height
  {
    var uv := NewTextureFromAtlas(image, xOffset, yOffset, width, height).texCoords;
    assert (uv.y - uv.x) * image.width == uv.y * image.width - uv.x * image.width;
    assert (uv.w - uv.z) * image.height == uv.w * image.height - uv.z * image.height;
  }

  /** A rectangle of non-negative size inside the image maps to UVs with 0 ≤ min ≤ max ≤ 1. */
  lemma AtlasUVsInUnitSquare(image: Image, x: real, y: real, w: real, h: real)
    requires image.width > 0.0 && image.height > 0.0
    requires 0.0 <= x && 0.0 <= w && x + w <= image.width
    requires 0.0 <= y && 0.0 <= h && y + h <= image.height
    ensures var uv := NewTextureFromAtlas(image, x, y, w, h).texCoords;
      0.0 <= uv.x <= uv.y <= 1.0 && 0.0 <= uv.z <= uv.w <= 1.0
  {
    var uv := NewTextureFromAtlas(image, x, y, w, h).texCoords;
    DivMono(x, x + w, image.width);
    DivMono(x + w, image.width, image.width);
    DivMono(y, y + h, image.height);
    DivMono(y + h, image.height, image.height);
    DivMono(0.0, x, image.width);
    DivMono(0.0, y, image.height);
  }

  lemma DivMono(a: real, b: real, d: real)
    requires d > 0.0 && a <= b
    ensures a / d <= b / d
  {
    assert b / d - a / d == (b - a) / d;
  }
}
