/** Stand-ins for the engine objects the driver reads pixels from. Their behaviour
    belongs to the engine, not to the driver, so the colour conversions are given as
    function values rather than defined here. */
module Engine {
  import opened Gpu
  import opened Raster

  type Byte = bv8

  /** An engine colour (SColor) as its 32-bit A8R8G8B8 value. */
  type Color = bv32

  /** The engine's colour conversions.
      toOpenGLColor: SColor::toOpenGLColor, the byte reordering into an RGBA pixel.
      setData: SColor::setData, reading one pixel's bytes in the given engine colour format. */
  datatype ColorModel = ColorModel(toOpenGLColor: Color -> Word, setData: (seq<Byte>, nat) -> Color)

  /** An engine texture (ITexture): its size, row pitch, colour format, the bytes
      lock() exposes, and the OpenGL name the engine created it under. */
  class Texture {
    const width: nat
    const height: nat
    const pitch: nat
    const colorFormat: nat
    /** getBitsPerPixelFromFormat(colorFormat) / 8 */
    const bytesPerPixel: nat
    const textureName: nat
    const locked: seq<Byte>

    /** The locked memory holds every pixel at its pitch/bytes-per-pixel address. */
    ghost predicate Valid()
    {
      LockedSize(width, height, pitch, bytesPerPixel) <= |locked|
    }

    constructor (width: nat, height: nat, pitch: nat, colorFormat: nat, bytesPerPixel: nat,
                 textureName: nat, locked: seq<Byte>)
      requires LockedSize(width, height, pitch, bytesPerPixel) <= |locked|
      ensures Valid()
      ensures this.width == width && this.height == height && this.pitch == pitch
      ensures this.colorFormat == colorFormat && this.bytesPerPixel == bytesPerPixel
      ensures this.textureName == textureName && this.locked == locked
    {
      this.width, this.height, this.pitch := width, height, pitch;
      this.colorFormat, this.bytesPerPixel := colorFormat, bytesPerPixel;
      this.textureName, this.locked := textureName, locked;
    }

    /** The bytes of pixel (x, y) in the locked memory. */
    function TexelBytes(x: nat, y: nat): (b: seq<Byte>)
      requires Valid() && x < width && y < height
      ensures |b| == bytesPerPixel
    {
      TexelInside(x, y, width, height, pitch, bytesPerPixel);
      var offset := TexelOffset(x, y, pitch, bytesPerPixel);
      locked[offset..offset + bytesPerPixel]
    }
  }

  /** An engine image (IImage) as its colours in row-major order. */
  class Image {
    const width: nat
    const height: nat
    const pixels: seq<Color>

    ghost predicate Valid()
    {
      |pixels| == width * height
    }

    constructor (width: nat, height: nat, pixels: seq<Color>)
      requires |pixels| == width * height
      ensures Valid()
      ensures this.width == width && this.height == height && this.pixels == pixels
    {
      this.width, this.height, this.pixels := width, height, pixels;
    }

    /** IImage::getPixel(x, y). */
    function GetPixel(x: nat, y: nat): Color
      requires Valid() && x < width && y < height
    {
      pixels[Flat(x, y, width, height)]
    }
  }
}
