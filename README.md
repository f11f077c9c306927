# IrrIMGUI native OpenGL driver — a Dafny model

This project models the native OpenGL GUI renderer of IrrIMGUI,
`COpenGLIMGUIDriver`. The renderer lets the ImGui library draw inside an Irrlicht
engine window. The model covers its three pieces of logic:

- **The texture-wrapper lifecycle** (`driver.dfy`, `textures.dfy`). A `CGUITexture`
  wrapper describes where its pixels come from: raw data, an engine texture, an
  engine image or the GUI font. It also records whether the driver owns its OpenGL
  texture name and which name that is.
  - `createTexture` and `createFontTexture` build wrappers and count them.
  - `updateTexture` re-creates a wrapper's texture unless the wrapper already
    borrows exactly the requested engine texture.
  - `updateFontTexture` always re-creates the font texture.
  - `deleteTexture` releases a wrapper.
  - The class `Driver.OpenGLDriver` keeps an invariant that holds across every
    operation. The instance counter equals the number of live wrappers. Every live
    wrapper is valid. A wrapper owns its name unless it shares an engine texture
    through the fast texture handle. Outside the null driver, every owned name is
    alive and no two wrappers own the same name. Under the null driver every wrapper
    holds the same sentinel handle 1, which names no texture of the driver's own.
- **The draw-list walk** (`draw_list.dfy`). `drawCommandList` keeps a running offset
  into the index buffer. Each command that is not a user callback draws its
  `ElemCount` indices from that offset. Every command advances the offset, callbacks
  included, so the index ranges tile the covered prefix of the index buffer.
- **Pixel conversion and texture creation** (`gl_helper.dfy`, `raster.dfy`).
  - `copyARGBImageToRGBA`, the image copy and the locked-texture copy fill a buffer
    at row-major index `X + Y * Width`. The texture copy reads its source bytes at
    `Y * Pitch + X * Bytes`.
  - `createTextureIDFromRawData` chooses the OpenGL format and converts only
    A8R8G8B8 data.
  - `createTextureInMemory` creates a texture and restores the previous binding.
  - `deleteTextureFromMemory` frees a name only when the wrapper owns it.

The OpenGL context is modelled abstractly by `Gpu.Device`. It holds the live texture
names, the name bound to `GL_TEXTURE_2D` and the last upload into each name. Its
observable state is `Gpu.TextureState`. The effects of the driver's operations are
stated through the predicates `Created`, `Deleted` and `Replaced` over that state.

The engine's colour conversions (`SColor::toOpenGLColor`, `SColor::setData`) belong
to Irrlicht. They are parameters of the model (`Engine.ColorModel`). The engine's
null video driver (`EDT_NULL`) is a constant flag of the driver. Under it, every
wrapper holds the sentinel handle 1, and the texture create, update and delete paths
(lines 203-459) skip their OpenGL calls, as if no OpenGL context existed. The one
exception among them is `updateFontTexture` as written, which releases the handle
without that test (see "## Findings"). The draw path has no null-driver test at all:
`drawGUIList` and `drawCommandList` issue their OpenGL calls under the null driver
too, binding the sentinel handle 1 for a wrapper's commands. The build flag
`_IRRIMGUI_FAST_OPENGL_TEXTURE_HANDLE_` is also a constant flag of the driver.

## Model

| member | source | states |
|---|---|---|
| Raster.Flat | source/COpenGLIMGUIDriver.cpp:466-467 | the row-major index `X + Y * Width` of a pixel inside a `Width` by `Height` buffer is below `Width * Height` |
| Raster.FlatDecodes | source/COpenGLIMGUIDriver.cpp:545 | the row-major index determines the pixel: dividing by `Width` gives `Y`, the remainder gives `X` |
| Raster.FlatCovers | source/COpenGLIMGUIDriver.cpp:463-470 | every index below `Width * Height` is the row-major index of some pixel in range, so the nested X/Y loops reach every index |
| Raster.FlatInjective | source/COpenGLIMGUIDriver.cpp:466-467 | two pixels in range with the same row-major index are the same pixel |
| Raster.FlatDistinct | source/COpenGLIMGUIDriver.cpp:463-470 | two different pixels never share a row-major index, so a write for one pixel never overwrites another |
| Raster.TexelOffset | source/COpenGLIMGUIDriver.cpp:575 | the byte address of pixel (X, Y) in the locked memory is `Y * Pitch + X * Bytes` |
| Raster.TexelInside | source/COpenGLIMGUIDriver.cpp:565-575 | the bytes of pixel (X, Y) at `Y * Pitch + X * Bytes` lie inside the locked memory of a texture |
| Gpu.Device.GenTexture | source/COpenGLIMGUIDriver.cpp:481-482 | `glGenTextures` yields a non-zero name that was not alive and makes it alive, changing nothing else |
| Gpu.Device.BindTexture | source/COpenGLIMGUIDriver.cpp:483 | `glBindTexture` sets the binding |
| Gpu.Device.TexImage2D | source/COpenGLIMGUIDriver.cpp:487 | `glTexImage2D` stores the upload in the bound texture |
| Gpu.Device.DeleteTexture | source/COpenGLIMGUIDriver.cpp:645-646 | `glDeleteTextures` frees the name and its upload, unbinds it if bound, and ignores name 0 |
| Gpu.DeleteThenCreate | source/COpenGLIMGUIDriver.cpp:313-328 | releasing the old names and then creating one texture is the replacement the update operations promise |
| Engine.Texture.TexelBytes | source/COpenGLIMGUIDriver.cpp:575 | the bytes `setData` reads for one pixel are `Bytes` long |
| Textures.OwnedNames | source/COpenGLIMGUIDriver.cpp:643-647 | the names `deleteTextureFromMemory` frees are the wrapper's own name when it owns one, and none when it borrows |
| Textures.GuiTexture.Describe | source/COpenGLIMGUIDriver.cpp:318-321 | after the field assignments the wrapper records the given ownership, source kind and source, and is valid; its GPU name is untouched |
| Textures.GuiTexture.constructor | source/COpenGLIMGUIDriver.cpp:205 | a new wrapper is not yet valid and owns nothing |
| OpenGLHelper.RgbaFromArgb | source/COpenGLIMGUIDriver.cpp:462-473 | the converted image holds, at every pixel's row-major index, the conversion of the source word at that index |
| OpenGLHelper.CopyARGBImageToRGBA | source/COpenGLIMGUIDriver.cpp:462-473 | the nested loops fill the first `Width * Height` destination words with the converted image and leave every later word unchanged |
| OpenGLHelper.ImageTexels | source/COpenGLIMGUIDriver.cpp:536-548 | the uploaded image of an engine image has one word per pixel |
| OpenGLHelper.ImageTexelAt | source/COpenGLIMGUIDriver.cpp:542-547 | pixel (X, Y) of that upload is the conversion of `getPixel(X, Y)` |
| OpenGLHelper.ConvertImage | source/COpenGLIMGUIDriver.cpp:540-548 | the image loop leaves exactly the converted image in the buffer |
| OpenGLHelper.CopyTextureIDFromIrrlichtImage | source/COpenGLIMGUIDriver.cpp:536-557 | a new texture is created holding the converted image as RGBA |
| OpenGLHelper.TextureTexels | source/COpenGLIMGUIDriver.cpp:559-579 | the uploaded image of a locked engine texture has one word per pixel |
| OpenGLHelper.TextureTexelAt | source/COpenGLIMGUIDriver.cpp:572-578 | pixel (X, Y) of that upload is the conversion of the colour read from the locked bytes at `Y * Pitch + X * Bytes` |
| OpenGLHelper.ConvertLockedTexture | source/COpenGLIMGUIDriver.cpp:563-579 | the texture loop leaves exactly the converted image in the buffer |
| OpenGLHelper.CopyTextureIDFromIrrlichtTexture | source/COpenGLIMGUIDriver.cpp:559-590 | a new texture is created holding the converted locked pixels as RGBA |
| OpenGLHelper.CreateTextureInMemory | source/COpenGLIMGUIDriver.cpp:475-495 | a fresh name is created holding the upload, and the previously bound texture is bound again |
| OpenGLHelper.UploadFormat | source/COpenGLIMGUIDriver.cpp:501-523 | raw data is uploaded as RGBA exactly when its format is A8R8G8B8 or R8G8B8A8; A8 and every unknown format fall back to ALPHA |
| OpenGLHelper.NeedsConversion | source/COpenGLIMGUIDriver.cpp:503-508 | the converted temporary copy that replaces A8R8G8B8 data is always uploaded as RGBA |
| OpenGLHelper.RawDataUpload | source/COpenGLIMGUIDriver.cpp:501-523 | the format dispatch: A8R8G8B8 and R8G8B8A8 are uploaded as RGBA and every other format as ALPHA; only A8R8G8B8 data is replaced by its converted copy, and other formats upload the first `Width * Height` pixels of the caller's buffer as given; the upload always has `Width * Height` pixels |
| OpenGLHelper.CreateTextureIDFromRawData | source/COpenGLIMGUIDriver.cpp:497-534 | a new texture is created holding the dispatched upload of exactly `Width * Height` pixels; the caller's buffer must hold that many and is only read |
| OpenGLHelper.CopyTextureIDFromGUIFont | source/COpenGLIMGUIDriver.cpp:627-640 | the `Width * Height` pixels of the font atlas become a new ALPHA texture |
| OpenGLHelper.DeleteTextureFromMemory | source/COpenGLIMGUIDriver.cpp:642-650 | the wrapper's name is freed only if the wrapper owns it, and the wrapper is always marked invalid |
| DrawList.ElemSum | source/COpenGLIMGUIDriver.cpp:137-156 | the final value of the running `FirstIndexElement`, the indices all commands cover together; no single command's `ElemCount` exceeds it |
| DrawList.ElemSumStep | source/COpenGLIMGUIDriver.cpp:156 | covering one more command advances the offset by its `ElemCount` |
| DrawList.ElemSumMonotonic | source/COpenGLIMGUIDriver.cpp:143-157 | the running offset never decreases along the command buffer |
| DrawList.IndexOffset | source/COpenGLIMGUIDriver.cpp:137 | a command's first index is the total `ElemCount` of the earlier commands, and its range ends within the indices the list covers |
| DrawList.IndexRangesDisjoint | source/COpenGLIMGUIDriver.cpp:143-157 | the index ranges of two commands never overlap and follow command order |
| DrawList.CoveredIndicesTile | source/COpenGLIMGUIDriver.cpp:143-157 | the commands' ranges, concatenated, are exactly the covered prefix of the index buffer, with no gap and no overlap |
| DrawList.DrawCommandList | source/COpenGLIMGUIDriver.cpp:129-160 | each callback command runs its callback; every other command draws its `ElemCount` indices from the sum of all earlier `ElemCount`s, callbacks included, with its wrapper's texture |
| Driver.KeepsSource | source/COpenGLIMGUIDriver.cpp:303-311 | the three-way recreate test of the update operations (also lines 338-346 and 386-394): the update is skipped exactly when the wrapper already has the requested source kind and object and does not own its name, so a skipped wrapper has no name to release |
| Driver.Rebuilt | source/COpenGLIMGUIDriver.cpp:353-375 | a (re)built wrapper is valid and has the requested source; it owns its name except for an engine texture under the fast handle |
| Driver.RepeatedUpdateSkipped | source/COpenGLIMGUIDriver.cpp:338-346 | repeating an update with the source just installed is skipped exactly for an engine texture under the fast handle |
| Driver.OnlyBorrowedTextureSkipped | source/COpenGLIMGUIDriver.cpp:303-311 | in a valid driver an update can be skipped only for an engine texture under the fast handle, so raw-data (303-311) and image (386-394) updates always re-create the texture |
| Driver.OpenGLDriver.constructor | source/COpenGLIMGUIDriver.cpp:100-105 | a new driver has no wrappers and satisfies the invariant |
| Driver.OpenGLDriver.CreateTextureFromRawData | source/COpenGLIMGUIDriver.cpp:203-219 | the counter grows by one; the fresh wrapper owns a new texture holding the dispatched upload, or holds handle 1 under the null driver without touching OpenGL; the invariant is kept |
| Driver.OpenGLDriver.CreateTextureFromTexture | source/COpenGLIMGUIDriver.cpp:221-249 | the counter grows by one; under the fast handle the fresh wrapper borrows the engine's texture name and OpenGL is untouched; otherwise it owns a new texture holding the converted locked pixels; the invariant is kept |
| Driver.OpenGLDriver.CreateTextureFromImage | source/COpenGLIMGUIDriver.cpp:251-267 | the counter grows by one; the fresh wrapper owns a new texture holding the converted image; the invariant is kept |
| Driver.OpenGLDriver.CreateFontTexture | source/COpenGLIMGUIDriver.cpp:269-296 | the counter grows by one; the fresh wrapper owns a new ALPHA texture of the atlas and becomes the font's texture handle; the invariant is kept |
| Driver.OpenGLDriver.UpdateTextureFromRawData | source/COpenGLIMGUIDriver.cpp:298-331 | if the wrapper already borrows this buffer, nothing changes; otherwise it is rebuilt for the buffer, and the name it owned is replaced by a new texture holding the dispatched upload; the invariant is kept |
| Driver.OpenGLDriver.UpdateTextureFromTexture | source/COpenGLIMGUIDriver.cpp:333-379 | if the wrapper already borrows this texture, nothing changes; otherwise the name it owned is released, and it borrows the engine's name (fast handle) or owns a new copy; the invariant is kept |
| Driver.OpenGLDriver.UpdateTextureFromImage | source/COpenGLIMGUIDriver.cpp:381-414 | if the wrapper already borrows this image, nothing changes; otherwise the name it owned is replaced by a new texture holding the converted image; the invariant is kept |
| Driver.OpenGLDriver.UpdateFontTextureAsWritten | source/COpenGLIMGUIDriver.cpp:416-445 | the wrapper is rebuilt as the font texture; under the null driver the owned "name" 1 is deleted from OpenGL |
| Driver.OpenGLDriver.UpdateFontTexture | source/COpenGLIMGUIDriver.cpp:416-445 | the wrapper is rebuilt as the font texture, with the release guarded by the null-driver test as in every other texture path; under the null driver OpenGL is untouched |
| Driver.OpenGLDriver.DeleteTexture | source/COpenGLIMGUIDriver.cpp:447-459 | the counter drops by one, the wrapper is forgotten, and only a name it owned is freed (none under the null driver); the invariant is kept |
| Driver.AddKeepsValid | source/COpenGLIMGUIDriver.cpp:204-216 | adding a fresh wrapper whose owned name was not alive keeps the counter equal to the number of wrappers and owned names distinct |
| Driver.ReplaceKeepsValid | source/COpenGLIMGUIDriver.cpp:313-328 | re-describing a wrapper after releasing its owned name keeps owned names alive and distinct |
| Driver.NullDriverFontUpdateAsWritten | source/COpenGLIMGUIDriver.cpp:419-421 | under the null driver, with a current OpenGL context in which texture name 1 is alive, creating and then updating the font texture deletes that texture 1 |
| Driver.NullDriverFontUpdate | source/COpenGLIMGUIDriver.cpp:428-439 | the same sequence, with the same current context, under the guarded update keeps that texture 1 alive |

## Findings

| source | as written | input that shows it | evidently intended | confidence | as-written member | corrected member |
|---|---|---|---|---|---|---|
| source/COpenGLIMGUIDriver.cpp:421 | `updateFontTexture` calls `deleteTextureFromMemory` without the `EDT_NULL` test that guards every other release (lines 314, 349, 397, 452). Under the null driver the wrapper owns its memory and holds the sentinel handle 1, so `glDeleteTextures` is issued for name 1 | null video driver, `createFontTexture()` then `updateFontTexture(font)`. Every other texture path (create, update, delete) skips OpenGL under the null driver as if no context existed, so with no context current the defect is an OpenGL call made without a context. The deletion of a live texture shown by the as-written member also needs a context to be current under the null driver, one in which texture name 1 is alive | no OpenGL call under the null driver, as in `createFontTexture` and the other update paths | medium, not executed | Driver.NullDriverFontUpdateAsWritten | Driver.NullDriverFontUpdate |

## Left out

- Real OpenGL calls are not modelled beyond the texture names, the binding and the uploads. This covers texture parameters, client-state toggles, `glScissor`, `glDrawElements`'s vertex pointers, and `COpenGLState`'s attribute and matrix stack with its texture restore (lines 666-700). `getGlEnum` and `restoreGLBit` are left out too.
- `drawGUIList` (lines 162-200) is not modelled beyond the per-list walk: GL state setup, `ScaleClipRects`, and the loop over command lists.
- Floating-point arithmetic is left out: the scissor rectangle (line 152) and the orthographic projection (line 184).
- The ImGui font atlas fetch (`GetTexDataAsAlpha8`) and `ClearTexData` are left out. The atlas is a parameter of the font operations; under the null driver the fetched data is not modelled.
- Engine behaviour is passed in as parameters: `SColor::setData` (except in the ARGB copy, see below), `SColor::toOpenGLColor`, `IImage::getPixel` and `ITexture::lock`/`unlock`. Engine images and textures are immutable objects in the model, so a changed picture is a different object.
- `getTextureIDFromIrrlichtTexture` (lines 592-625) reads the engine's OpenGL name through a copy of a class layout that is not part of this model. The model uses the name as the field `textureName` of an engine texture.
- `setupFunctionPointer`, the window handle, the constructor's log line and all `LOG_*` output are left out.
- `FASSERT(false)` for an unknown colour format (line 521) is not modelled as a failure. The model follows the release-build fallback to ALPHA.
- The lock failure `FASSERT(pTextureData)` (line 570) is left out. An engine texture's locked memory always covers its pixels (`Engine.Texture.Valid`).
- Raw pixel data and the font atlas must hold at least `Width * Height` pixels. The source reads exactly that many, and reading past the end of a shorter buffer is undefined behaviour, which the model does not describe.
- Null source pointers are not modelled: raw data is a non-null array, and engine textures and images are non-null objects.
- `dynamic_cast` of a foreign `IGUITexture` is not modelled. The update and delete operations require a wrapper created by this driver and still alive, which also covers `FASSERT(mIsValid)`.
- Driver.OpenGLDriver.CreateTextureFromRawData: does not model 32-bit overflow of `Width * Height` or pointer-sized handles, because sizes are unbounded naturals.
- OpenGLHelper.CopyARGBImageToRGBA: does not model 32-bit overflow of `X + Y * Width` (line 466), because indices are unbounded naturals.
- OpenGLHelper.ConvertImage: does not model `int` overflow of `Width * Height` and `X + Y * Width` (lines 540 and 545), because sizes are unbounded naturals.
- OpenGLHelper.ConvertLockedTexture: does not model overflow of `Width * Height` (line 563) or of the byte address `Y * Pitch + X * Bytes` (line 575), because sizes are unbounded naturals.
- OpenGLHelper.CopyARGBImageToRGBA: takes `SColor::setData` in the A8R8G8B8 format (line 466) as the identity on the source word, because an A8R8G8B8 `SColor` stores exactly that word. The conversion applies `toOpenGLColor` directly to the source word; only the locked-texture copy goes through `setData`.
- DrawList.DrawCommandList: does not model the `int` overflow of `FirstIndexElement` or the 16-bit index type, because offsets are unbounded naturals.
- OpenGLHelper.CopyARGBImageToRGBA: requires distinct source and destination buffers, which is the only way the driver calls it.
- Freeing the temporary conversion buffers (`delete[]`, lines 527-529, 552, 585) and the wrapper object itself (line 456) is left out; Dafny has no explicit deallocation.
- User callbacks are opaque. The walk records which command's callback runs, not what it does.
- A8 font and raw data are carried as 32-bit words, like the other formats. The model does not distinguish byte buffers from word buffers.
- `CGUITexture`'s declaration and defaults, and includes/IrrIMGUI/CIMGUIHandle.h (declarations only), are not part of this model. The wrapper's fields follow their use in the driver.
