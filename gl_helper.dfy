/** The driver's OpenGL helper functions: pixel conversion into RGBA buffers,
    texture creation with the binding saved and restored, the colour-format
    dispatch for raw data, and the release of a wrapper's GPU memory. */
module OpenGLHelper {
  import opened Raster
  import opened Gpu
  import opened Engine
  import opened Textures

  /** The colour formats a caller can hand to the driver with raw pixel data;
      Unknown stands for any other enumerator value. */
  datatype ColorFormat = A8R8G8B8 | R8G8B8A8 | A8 | Unknown(code: int)

  /** The OpenGL format raw data of the given colour format is uploaded as. Unknown
      formats fall back to ALPHA (after an error log and a failed debug assertion). */
  function UploadFormat(format: ColorFormat): (r: GlFormat)
    ensures r == Rgba <==> format == A8R8G8B8 || format == R8G8B8A8
  {
    match format
    case A8R8G8B8 => Rgba
    case R8G8B8A8 => Rgba
    case A8 => Alpha
    case Unknown(_) => Alpha
  }

  /** Only A8R8G8B8 data is converted into a temporary RGBA copy before upload, and
      that copy is always uploaded as RGBA. */
  predicate NeedsConversion(format: ColorFormat)
    ensures NeedsConversion(format) ==> UploadFormat(format) == Rgba
  {
    format.A8R8G8B8?
  }

  /** The RGBA image copyARGBImageToRGBA produces: pixel (x, y) is the engine's
      conversion of the source word at the same index. */
  function RgbaFromArgb(colors: ColorModel, src: seq<Word>, width: nat, height: nat): (r: seq<Word>)
    requires width * height <= |src|
    ensures |r| == width * height
    ensures forall x, y :: 0 <= x < width && 0 <= y < height ==>
              r[Flat(x, y, width, height)] == colors.toOpenGLColor(src[Flat(x, y, width, height)])
  {
    seq(width * height, i requires 0 <= i < width * height => colors.toOpenGLColor(src[i]))
  }

  /** The RGBA image copyTextureIDFromIrrlichtImage uploads, pixel by pixel in
      row-major order (see ImageTexelAt). */
  function ImageTexels(colors: ColorModel, image: Image): (r: seq<Word>)
    requires image.Valid()
    ensures |r| == image.width * image.height
  {
    var w, h := image.width, image.height;
    var pixels := image.pixels;
    seq(w * h, i requires 0 <= i < w * h =>
      FlatCovers(i, w, h);
      colors.toOpenGLColor(pixels[Flat(i % w, i / w, w, h)]))
  }

  /** Pixel (x, y) of the uploaded image is the conversion of getPixel(x, y). */
  lemma ImageTexelAt(colors: ColorModel, image: Image, x: nat, y: nat)
    requires image.Valid() && x < image.width && y < image.height
    ensures ImageTexels(colors, image)[Flat(x, y, image.width, image.height)]
              == colors.toOpenGLColor(image.GetPixel(x, y))
  {
    FlatDecodes(x, y, image.width, image.height);
  }

  /** The RGBA image copyTextureIDFromIrrlichtTexture uploads, pixel by pixel in
      row-major order (see TextureTexelAt). */
  function TextureTexels(colors: ColorModel, texture: Texture): (r: seq<Word>)
    requires texture.Valid()
    ensures |r| == texture.width * texture.height
  {
    var w, h := texture.width, texture.height;
    var locked, pitch, bytes, format := texture.locked, texture.pitch, texture.bytesPerPixel, texture.colorFormat;
    seq(w * h, i requires 0 <= i < w * h =>
      FlatCovers(i, w, h);
      TexelInside(i % w, i / w, w, h, pitch, bytes);
      var offset := TexelOffset(i % w, i / w, pitch, bytes);
      colors.toOpenGLColor(colors.setData(locked[offset..offset + bytes], format)))
  }

  /** Pixel (x, y) of the uploaded image is the conversion of the bytes at
      y * pitch + x * bytesPerPixel of the locked memory. */
  lemma TextureTexelAt(colors: ColorModel, texture: Texture, x: nat, y: nat)
    requires texture.Valid() && x < texture.width && y < texture.height
    ensures TextureTexels(colors, texture)[Flat(x, y, texture.width, texture.height)]
              == colors.toOpenGLColor(colors.setData(texture.TexelBytes(x, y), texture.colorFormat))
  {
    FlatDecodes(x, y, texture.width, texture.height);
  }

  /** copyARGBImageToRGBA: converts every pixel of a width x height ARGB image into
      the destination at the same index and leaves the rest of the destination alone. */
  method CopyARGBImageToRGBA(colors: ColorModel, source: array<Word>, destination: array<Word>,
                             width: nat, height: nat)
    requires source != destination
    requires width * height <= source.Length && width * height <= destination.Length
    modifies destination
    ensures destination[..width * height] == RgbaFromArgb(colors, source[..], width, height)
    ensures destination[width * height..] == old(destination[width * height..])
  {
    for x := 0 to width
      invariant forall x', y' :: 0 <= x' < x && 0 <= y' < height ==>
                  destination[Flat(x', y', width, height)]
                    == colors.toOpenGLColor(source[Flat(x', y', width, height)])
      invariant forall i :: width * height <= i < destination.Length ==> destination[i] == old(destination[i])
    {
      for y := 0 to height
        invariant forall x', y' :: 0 <= x' < x && 0 <= y' < height ==>
                    destination[Flat(x', y', width, height)]
                      == colors.toOpenGLColor(source[Flat(x', y', width, height)])
        invariant forall y' :: 0 <= y' < y ==>
                    destination[Flat(x, y', width, height)]
                      == colors.toOpenGLColor(source[Flat(x, y', width, height)])
        invariant forall i :: width * height <= i < destination.Length ==> destination[i] == old(destination[i])
      {
        FlatDistinct(x, y, width, height);
        var i := Flat(x, y, width, height);
        destination[i] := colors.toOpenGLColor(source[i]);
      }
    }
    var expected := RgbaFromArgb(colors, source[..], width, height);
    forall i | 0 <= i < width * height
      ensures destination[i] == expected[i]
    {
      FlatCovers(i, width, height);
    }
  }

  /** createTextureInMemory: generates a fresh texture name, uploads the pixels into
      it, and rebinds the texture that was bound before. */
  method CreateTextureInMemory(gpu: Device, format: GlFormat, pixels: seq<Word>, width: nat, height: nat)
    returns (name: nat)
    requires gpu.Valid()
    modifies gpu
    ensures gpu.Valid()
    ensures Created(old(gpu.State()), gpu.State(), name, Upload(format, width, height, pixels))
  {
    var oldTexture := gpu.bound;
    name := gpu.GenTexture();
    gpu.BindTexture(name);
    gpu.TexImage2D(Upload(format, width, height, pixels));
    gpu.BindTexture(oldTexture);
  }

  /** The pixel data createTextureIDFromRawData hands to OpenGL: the converted copy
      for A8R8G8B8, otherwise the Width * Height pixels at the start of the caller's
      buffer, which is what glTexImage2D reads. */
  function RawDataUpload(colors: ColorModel, format: ColorFormat, pixels: seq<Word>, width: nat, height: nat)
    : (u: Upload)
    requires width * height <= |pixels|
    ensures u.width == width && u.height == height && |u.data| == width * height
    ensures u.format == Rgba <==> format == A8R8G8B8 || format == R8G8B8A8
    ensures format == A8R8G8B8 ==>
              forall x, y :: 0 <= x < width && 0 <= y < height ==>
                u.data[Flat(x, y, width, height)] == colors.toOpenGLColor(pixels[Flat(x, y, width, height)])
    ensures format != A8R8G8B8 ==> u.data == pixels[..width * height]
  {
    Upload(UploadFormat(format), width, height,
           if NeedsConversion(format) then RgbaFromArgb(colors, pixels, width, height) else pixels[..width * height])
  }

  /** createTextureIDFromRawData: dispatches on the colour format, converting
      A8R8G8B8 data into a temporary RGBA buffer, and creates the texture. The
      caller's buffer is only read. */
  method CreateTextureIDFromRawData(gpu: Device, colors: ColorModel, format: ColorFormat,
                                    pixels: array<Word>, width: nat, height: nat)
    returns (name: nat)
    requires gpu.Valid()
    requires width * height <= pixels.Length
    modifies gpu
    ensures gpu.Valid()
    ensures Created(old(gpu.State()), gpu.State(), name,
                    RawDataUpload(colors, format, pixels[..], width, height))
  {
    var data := pixels[..width * height];
    if NeedsConversion(format) {
      var copy := new Word[width * height];
      CopyARGBImageToRGBA(colors, pixels, copy, width, height);
      assert copy[..] == copy[..width * height];
      data := copy[..];
    }
    name := CreateTextureInMemory(gpu, UploadFormat(format), data, width, height);
  }

  /** The pixel loop of copyTextureIDFromIrrlichtImage: column by column, converts
      getPixel(X, Y) and stores the RGBA pixel at X + Y * Width. */
  method ConvertImage(colors: ColorModel, image: Image, imageData: array<Word>)
    requires image.Valid() && imageData.Length == image.width * image.height
    modifies imageData
    ensures imageData[..] == ImageTexels(colors, image)
  {
    var width, height := image.width, image.height;
    ghost var expected := ImageTexels(colors, image);
    for x := 0 to width
      invariant forall x', y' :: 0 <= x' < x && 0 <= y' < height ==>
                  imageData[Flat(x', y', width, height)] == expected[Flat(x', y', width, height)]
    {
      for y := 0 to height
        invariant forall x', y' :: 0 <= x' < x && 0 <= y' < height ==>
                    imageData[Flat(x', y', width, height)] == expected[Flat(x', y', width, height)]
        invariant forall y' :: 0 <= y' < y ==>
                    imageData[Flat(x, y', width, height)] == expected[Flat(x, y', width, height)]
      {
        FlatDistinct(x, y, width, height);
        ImageTexelAt(colors, image, x, y);
        imageData[Flat(x, y, width, height)] := colors.toOpenGLColor(image.GetPixel(x, y));
      }
    }
    forall i | 0 <= i < width * height
      ensures imageData[i] == expected[i]
    {
      FlatCovers(i, width, height);
    }
  }

  /** copyTextureIDFromIrrlichtImage: converts every pixel of the image into a
      temporary RGBA buffer and creates a texture from it. */
  method CopyTextureIDFromIrrlichtImage(gpu: Device, colors: ColorModel, image: Image) returns (name: nat)
    requires gpu.Valid() && image.Valid()
    modifies gpu
    ensures gpu.Valid()
    ensures Created(old(gpu.State()), gpu.State(), name,
                    Upload(Rgba, image.width, image.height, ImageTexels(colors, image)))
  {
    var imageData := new Word[image.width * image.height];
    ConvertImage(colors, image, imageData);
    name := CreateTextureInMemory(gpu, Rgba, imageData[..], image.width, image.height);
  }

  /** The pixel loop of copyTextureIDFromIrrlichtTexture: column by column, reads the
      bytes of pixel (X, Y) at Y * pitch + X * bytesPerPixel of the locked memory,
      decodes them in the texture's colour format and stores the RGBA pixel at X + Y * Width. */
  method ConvertLockedTexture(colors: ColorModel, texture: Texture, imageData: array<Word>)
    requires texture.Valid() && imageData.Length == texture.width * texture.height
    modifies imageData
    ensures imageData[..] == TextureTexels(colors, texture)
  {
    var width, height, format := texture.width, texture.height, texture.colorFormat;
    ghost var expected := TextureTexels(colors, texture);
    for x := 0 to width
      invariant forall x', y' :: 0 <= x' < x && 0 <= y' < height ==>
                  imageData[Flat(x', y', width, height)] == expected[Flat(x', y', width, height)]
    {
      for y := 0 to height
        invariant forall x', y' :: 0 <= x' < x && 0 <= y' < height ==>
                    imageData[Flat(x', y', width, height)] == expected[Flat(x', y', width, height)]
        invariant forall y' :: 0 <= y' < y ==>
                    imageData[Flat(x, y', width, height)] == expected[Flat(x, y', width, height)]
      {
        FlatDistinct(x, y, width, height);
        TextureTexelAt(colors, texture, x, y);
        var color := colors.setData(texture.TexelBytes(x, y), format);
        imageData[Flat(x, y, width, height)] := colors.toOpenGLColor(color);
      }
    }
    forall i | 0 <= i < width * height
      ensures imageData[i] == expected[i]
    {
      FlatCovers(i, width, height);
    }
  }

  /** copyTextureIDFromIrrlichtTexture: converts the locked engine texture into a
      temporary RGBA buffer and creates a texture from it. */
  method CopyTextureIDFromIrrlichtTexture(gpu: Device, colors: ColorModel, texture: Texture) returns (name: nat)
    requires gpu.Valid() && texture.Valid()
    modifies gpu
    ensures gpu.Valid()
    ensures Created(old(gpu.State()), gpu.State(), name,
                    Upload(Rgba, texture.width, texture.height, TextureTexels(colors, texture)))
  {
    var imageData := new Word[texture.width * texture.height];
    ConvertLockedTexture(colors, texture, imageData);
    name := CreateTextureInMemory(gpu, Rgba, imageData[..], texture.width, texture.height);
  }

  /** copyTextureIDFromGUIFont: the GUI font atlas (alpha only) becomes an A8 texture. */
  method CopyTextureIDFromGUIFont(gpu: Device, colors: ColorModel, atlas: array<Word>, width: nat, height: nat)
    returns (name: nat)
    requires gpu.Valid() && width * height <= atlas.Length
    modifies gpu
    ensures gpu.Valid()
    ensures Created(old(gpu.State()), gpu.State(), name, Upload(Alpha, width, height, atlas[..width * height]))
  {
    name := CreateTextureIDFromRawData(gpu, colors, A8, atlas, width, height);
  }

  /** deleteTextureFromMemory: releases the wrapper's GPU name only when the wrapper
      owns it, and always marks the wrapper invalid. */
  method DeleteTextureFromMemory(gpu: Device, texture: GuiTexture)
    requires gpu.Valid()
    modifies gpu, texture`isValid
    ensures gpu.Valid() && !texture.isValid
    ensures Deleted(old(gpu.State()), gpu.State(), OwnedNames(texture.isUsingOwnMemory, texture.gpuTextureId))
  {
    if texture.isUsingOwnMemory {
      gpu.DeleteTexture(texture.gpuTextureId);
    }
    texture.isValid := false;
  }
}
