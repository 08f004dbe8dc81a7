/**
 * graphics/texture.go: the older loader, whose Texture is just the GPU id.
 * It packs pixels with the same row-major RGBA loop as engine/texture.go.
 */
module GraphicsTexture {
  import opened Pixels
  import EngineTexture

  /**
   * LoadImage: texture id 0 and an error on an open or decode error; otherwise
   * the given GPU id, after uploading the image packed as 4·w·h RGBA bytes.
   */
  method LoadImage(file: EngineTexture.ImageFile, texId: nat) returns (texture: nat, pixels: seq<byte>, err: bool)
    ensures err <==> !file.Decoded?
    ensures err ==> texture == 0 && pixels == []
    ensures !err ==> texture == texId && IsPacked(file.img, pixels)
  {
    if !file.Decoded? {
      return 0, [], true;
    }
    pixels := PackPixels(file.img);
    texture, err := texId, false;
  }
}
