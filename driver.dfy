/** The native OpenGL GUI driver (COpenGLIMGUIDriver): the lifecycle of the texture
    wrappers it hands out. It creates a wrapper for raw pixel data, an engine
    texture, an engine image or the GUI font; it updates a wrapper in place,
    re-creating its GPU texture unless the wrapper already borrows exactly the
    requested engine texture; and it deletes wrappers, releasing only the GPU names
    they own. Under the engine's null video driver every wrapper carries the
    sentinel handle 1 and these texture operations make no GPU call, except
    updateFontTexture as written, which releases the handle unconditionally. (The
    draw path, outside this module, has no null-driver test.) */
module Driver {
  import opened Gpu
  import opened Engine
  import opened Textures
  import opened OpenGLHelper

  /** The update operations skip the work exactly when the wrapper already borrows
      the requested source: same kind, same source object, and a GPU name the
      wrapper does not own. A skipped wrapper has no GPU name to release. */
  predicate KeepsSource(s: WrapperState, sourceType: SourceType, source: object?)
    ensures KeepsSource(s, sourceType, source) ==>
              forall gpuTextureId :: OwnedNames(s.isUsingOwnMemory, gpuTextureId) == {}
  {
    s.sourceType == sourceType && s.source == source && !s.isUsingOwnMemory
  }

  /** The description a creating or re-creating operation gives a wrapper: valid,
      with the requested source, and owning its GPU name unless it is an engine
      texture shared through the fast texture handle. */
  function Rebuilt(sourceType: SourceType, source: object?, fastTextureHandle: bool): (s: WrapperState)
    ensures s.isValid && s.sourceType == sourceType && s.source == source
    ensures s.isUsingOwnMemory <==> !(sourceType == Texture && fastTextureHandle)
  {
    WrapperState(!(sourceType == Texture && fastTextureHandle), sourceType, source, true)
  }

  /** Repeating an update with the source it just installed is skipped exactly for an
      engine texture under the fast texture handle; every other kind of source is
      uploaded again. */
  lemma RepeatedUpdateSkipped(sourceType: SourceType, source: object?, fastTextureHandle: bool)
    ensures KeepsSource(Rebuilt(sourceType, source, fastTextureHandle), sourceType, source)
            <==> sourceType == Texture && fastTextureHandle
  {
  }

  /** In a valid driver only an update with an engine texture under the fast texture
      handle can be skipped: raw-data, image and font wrappers always own their
      name, so their updates always re-create the texture. */
  lemma OnlyBorrowedTextureSkipped(d: OpenGLDriver, w: GuiTexture, sourceType: SourceType, source: object?)
    requires d.Valid() && w in d.wrappers
    ensures KeepsSource(w.State(), sourceType, source) ==> sourceType == Texture && d.fastTextureHandle
  {
  }

  class OpenGLDriver {
    /** The OpenGL context of the engine's video driver. */
    const gpu: Device
    /** The engine's colour conversions. */
    const colors: ColorModel
    /** The engine runs its null video driver (EDT_NULL): the texture operations
        skip their OpenGL calls as if no context existed. gpu stands for whatever
        context happens to be current. */
    const isNullDriver: bool
    /** The build flag _IRRIMGUI_FAST_OPENGL_TEXTURE_HANDLE_: engine textures are
        shared by name instead of copied. */
    const fastTextureHandle: bool
    /** mTextureInstances: how many wrappers are alive. */
    var textureInstances: int
    /** The wrapper the GUI font atlas handle (Fonts->TexID) points to. */
    var fontTexture: GuiTexture?
    /** The wrappers created by this driver and not yet deleted. */
    ghost var wrappers: set<GuiTexture>

    /** What every live wrapper satisfies on its own: it is valid, it owns its GPU
        name unless it shares an engine texture through the fast handle, the font
        wrapper has no source object, and under the null driver it holds handle 1. */
    ghost predicate Describes(w: GuiTexture)
      reads w
    {
      && w.isValid
      && (w.isUsingOwnMemory <==> !(w.sourceType == Texture && fastTextureHandle))
      && (w.sourceType == GuiFont ==> w.source == null)
      && (isNullDriver ==> w.gpuTextureId == NullDriverHandle)
    }

    /** The driver's bookkeeping invariant: the instance counter counts the live
        wrappers, each of which is well described; with an OpenGL context every
        owned name is alive and no two wrappers own the same name. */
    ghost predicate Valid()
      reads this, gpu, wrappers
    {
      && gpu.Valid()
      && textureInstances == |wrappers|
      && (forall w :: w in wrappers ==> Describes(w))
      && (!isNullDriver ==> forall w :: w in wrappers && w.isUsingOwnMemory ==> w.gpuTextureId in gpu.live)
      && (!isNullDriver ==>
            forall w, v :: w in wrappers && v in wrappers && w != v && w.isUsingOwnMemory && v.isUsingOwnMemory
                           ==> w.gpuTextureId != v.gpuTextureId)
    }

    /** A driver with no wrappers yet. */
    constructor (gpu: Device, colors: ColorModel, isNullDriver: bool, fastTextureHandle: bool)
      requires gpu.Valid()
      ensures Valid()
      ensures this.gpu == gpu && this.colors == colors
      ensures this.isNullDriver == isNullDriver && this.fastTextureHandle == fastTextureHandle
      ensures wrappers == {} && fontTexture == null
    {
      this.gpu := gpu;
      this.colors := colors;
      this.isNullDriver := isNullDriver;
      this.fastTextureHandle := fastTextureHandle;
      textureInstances := 0;
      fontTexture := null;
      wrappers := {};
    }

    /** createTexture for raw pixel data: a new owning wrapper whose GPU texture holds
        the pixels, converted to RGBA when they are A8R8G8B8. */
    method CreateTextureFromRawData(format: ColorFormat, pixels: array<Word>, width: nat, height: nat)
      returns (w: GuiTexture)
      requires Valid()
      requires width * height <= pixels.Length
      modifies this, gpu
      ensures Valid() && fresh(w)
      ensures wrappers == old(wrappers) + {w} && textureInstances == old(textureInstances) + 1
      ensures fontTexture == old(fontTexture)
      ensures w.State() == Rebuilt(RawData, pixels, fastTextureHandle)
      ensures isNullDriver ==> w.gpuTextureId == NullDriverHandle && unchanged(gpu)
      ensures !isNullDriver ==>
                Created(old(gpu.State()), gpu.State(), w.gpuTextureId,
                        RawDataUpload(colors, format, pixels[..], width, height))
    {
      textureInstances := textureInstances + 1;
      w := new GuiTexture();
      w.Describe(true, RawData, pixels);
      if !isNullDriver {
        w.gpuTextureId := CreateTextureIDFromRawData(gpu, colors, format, pixels, width, height);
      } else {
        w.gpuTextureId := NullDriverHandle;
      }
      wrappers := wrappers + {w};
      AddKeepsValid(this, w);
    }

    /** createTexture for an engine texture: with the fast handle the wrapper borrows
        the engine's own OpenGL name; otherwise it owns a copy of the locked pixels. */
    method CreateTextureFromTexture(texture: Texture) returns (w: GuiTexture)
      requires Valid() && texture.Valid()
      modifies this, gpu
      ensures Valid() && fresh(w)
      ensures wrappers == old(wrappers) + {w} && textureInstances == old(textureInstances) + 1
      ensures fontTexture == old(fontTexture)
      ensures w.State() == Rebuilt(Texture, texture, fastTextureHandle)
      ensures isNullDriver ==> w.gpuTextureId == NullDriverHandle && unchanged(gpu)
      ensures !isNullDriver && fastTextureHandle ==> w.gpuTextureId == texture.textureName && unchanged(gpu)
      ensures !isNullDriver && !fastTextureHandle ==>
                Created(old(gpu.State()), gpu.State(), w.gpuTextureId,
                        Upload(Rgba, texture.width, texture.height, TextureTexels(colors, texture)))
    {
      textureInstances := textureInstances + 1;
      w := new GuiTexture();
      w.Describe(!fastTextureHandle, Texture, texture);
      if !isNullDriver {
        if fastTextureHandle {
          w.gpuTextureId := texture.textureName;
        } else {
          w.gpuTextureId := CopyTextureIDFromIrrlichtTexture(gpu, colors, texture);
        }
      } else {
        w.gpuTextureId := NullDriverHandle;
      }
      wrappers := wrappers + {w};
      AddKeepsValid(this, w);
    }

    /** createTexture for an engine image: a new owning wrapper whose GPU texture
        holds the image's pixels as RGBA. */
    method CreateTextureFromImage(image: Image) returns (w: GuiTexture)
      requires Valid() && image.Valid()
      modifies this, gpu
      ensures Valid() && fresh(w)
      ensures wrappers == old(wrappers) + {w} && textureInstances == old(textureInstances) + 1
      ensures fontTexture == old(fontTexture)
      ensures w.State() == Rebuilt(Image, image, fastTextureHandle)
      ensures isNullDriver ==> w.gpuTextureId == NullDriverHandle && unchanged(gpu)
      ensures !isNullDriver ==>
                Created(old(gpu.State()), gpu.State(), w.gpuTextureId,
                        Upload(Rgba, image.width, image.height, ImageTexels(colors, image)))
    {
      textureInstances := textureInstances + 1;
      w := new GuiTexture();
      w.Describe(true, Image, image);
      if !isNullDriver {
        w.gpuTextureId := CopyTextureIDFromIrrlichtImage(gpu, colors, image);
      } else {
        w.gpuTextureId := NullDriverHandle;
      }
      wrappers := wrappers + {w};
      AddKeepsValid(this, w);
    }

    /** createFontTexture: a new owning wrapper for the GUI font atlas (given here as
        its alpha pixels), which becomes the font's texture handle. */
    method CreateFontTexture(atlas: array<Word>, width: nat, height: nat) returns (w: GuiTexture)
      requires Valid()
      requires width * height <= atlas.Length
      modifies this, gpu
      ensures Valid() && fresh(w)
      ensures wrappers == old(wrappers) + {w} && textureInstances == old(textureInstances) + 1
      ensures fontTexture == w
      ensures w.State() == Rebuilt(GuiFont, null, fastTextureHandle)
      ensures isNullDriver ==> w.gpuTextureId == NullDriverHandle && unchanged(gpu)
      ensures !isNullDriver ==>
                Created(old(gpu.State()), gpu.State(), w.gpuTextureId, Upload(Alpha, width, height, atlas[..width * height]))
    {
      textureInstances := textureInstances + 1;
      w := new GuiTexture();
      w.Describe(true, GuiFont, null);
      if !isNullDriver {
        w.gpuTextureId := CopyTextureIDFromGUIFont(gpu, colors, atlas, width, height);
      } else {
        w.gpuTextureId := NullDriverHandle;
      }
      wrappers := wrappers + {w};
      AddKeepsValid(this, w);
      fontTexture := w;
    }

    /** updateTexture for raw pixel data. Raw-data wrappers always own their name, so
        in a valid driver the texture is always re-created: the old name is released
        and a new one holds the new pixels. */
    method UpdateTextureFromRawData(w: GuiTexture, format: ColorFormat, pixels: array<Word>,
                                    width: nat, height: nat)
      requires Valid() && w in wrappers
      requires width * height <= pixels.Length
      modifies w, gpu
      ensures Valid() && wrappers == old(wrappers)
      ensures KeepsSource(old(w.State()), RawData, pixels) ==> unchanged(w) && unchanged(gpu)
      ensures !KeepsSource(old(w.State()), RawData, pixels) ==>
                w.State() == Rebuilt(RawData, pixels, fastTextureHandle)
      ensures !KeepsSource(old(w.State()), RawData, pixels) && isNullDriver ==>
                w.gpuTextureId == NullDriverHandle && unchanged(gpu)
      ensures !KeepsSource(old(w.State()), RawData, pixels) && !isNullDriver ==>
                Replaced(old(gpu.State()), gpu.State(), OwnedNames(old(w.isUsingOwnMemory), old(w.gpuTextureId)),
                         w.gpuTextureId, RawDataUpload(colors, format, pixels[..], width, height))
    {
      var isRecreateNecessary := false;
      if w.sourceType != RawData {
        isRecreateNecessary := true;
      } else if pixels != w.source {
        isRecreateNecessary := true;
      } else if w.isUsingOwnMemory {
        isRecreateNecessary := true;
      }

      if isRecreateNecessary {
        if !isNullDriver {
          DeleteTextureFromMemory(gpu, w);
        }
        ghost var released := gpu.State();
        w.Describe(true, RawData, pixels);
        if !isNullDriver {
          w.gpuTextureId := CreateTextureIDFromRawData(gpu, colors, format, pixels, width, height);
          DeleteThenCreate(old(gpu.State()), released, gpu.State(),
                           OwnedNames(old(w.isUsingOwnMemory), old(w.gpuTextureId)), w.gpuTextureId,
                           RawDataUpload(colors, format, pixels[..], width, height));
        } else {
          w.gpuTextureId := NullDriverHandle;
        }
        ReplaceKeepsValid(this, w);
      }
    }

    /** updateTexture for an engine texture. Nothing happens when the wrapper already
        borrows this texture through the fast handle; otherwise the old name is
        released (if owned) and the wrapper borrows or copies the new texture. */
    method UpdateTextureFromTexture(w: GuiTexture, texture: Texture)
      requires Valid() && w in wrappers && texture.Valid()
      modifies w, gpu
      ensures Valid() && wrappers == old(wrappers)
      ensures KeepsSource(old(w.State()), Texture, texture) ==> unchanged(w) && unchanged(gpu)
      ensures !KeepsSource(old(w.State()), Texture, texture) ==>
                w.State() == Rebuilt(Texture, texture, fastTextureHandle)
      ensures !KeepsSource(old(w.State()), Texture, texture) && isNullDriver ==>
                w.gpuTextureId == NullDriverHandle && unchanged(gpu)
      ensures !KeepsSource(old(w.State()), Texture, texture) && !isNullDriver && fastTextureHandle ==>
                w.gpuTextureId == texture.textureName &&
                Deleted(old(gpu.State()), gpu.State(), OwnedNames(old(w.isUsingOwnMemory), old(w.gpuTextureId)))
      ensures !KeepsSource(old(w.State()), Texture, texture) && !isNullDriver && !fastTextureHandle ==>
                Replaced(old(gpu.State()), gpu.State(), OwnedNames(old(w.isUsingOwnMemory), old(w.gpuTextureId)),
                         w.gpuTextureId, Upload(Rgba, texture.width, texture.height, TextureTexels(colors, texture)))
    {
      var isRecreateNecessary := false;
      if w.sourceType != Texture {
        isRecreateNecessary := true;
      } else if texture != w.source {
        isRecreateNecessary := true;
      } else if w.isUsingOwnMemory {
        isRecreateNecessary := true;
      }

      if isRecreateNecessary {
        if !isNullDriver {
          DeleteTextureFromMemory(gpu, w);
        }
        ghost var released := gpu.State();
        w.Describe(!fastTextureHandle, Texture, texture);
        if !isNullDriver {
          if fastTextureHandle {
            w.gpuTextureId := texture.textureName;
          } else {
            w.gpuTextureId := CopyTextureIDFromIrrlichtTexture(gpu, colors, texture);
            DeleteThenCreate(old(gpu.State()), released, gpu.State(),
                             OwnedNames(old(w.isUsingOwnMemory), old(w.gpuTextureId)), w.gpuTextureId,
                             Upload(Rgba, texture.width, texture.height, TextureTexels(colors, texture)));
          }
        } else {
          w.gpuTextureId := NullDriverHandle;
        }
        ReplaceKeepsValid(this, w);
      }
    }

    /** updateTexture for an engine image. Image wrappers always own their name, so
        in a valid driver the texture is always re-created from the image. */
    method UpdateTextureFromImage(w: GuiTexture, image: Image)
      requires Valid() && w in wrappers && image.Valid()
      modifies w, gpu
      ensures Valid() && wrappers == old(wrappers)
      ensures KeepsSource(old(w.State()), Image, image) ==> unchanged(w) && unchanged(gpu)
      ensures !KeepsSource(old(w.State()), Image, image) ==>
                w.State() == Rebuilt(Image, image, fastTextureHandle)
      ensures !KeepsSource(old(w.State()), Image, image) && isNullDriver ==>
                w.gpuTextureId == NullDriverHandle && unchanged(gpu)
      ensures !KeepsSource(old(w.State()), Image, image) && !isNullDriver ==>
                Replaced(old(gpu.State()), gpu.State(), OwnedNames(old(w.isUsingOwnMemory), old(w.gpuTextureId)),
                         w.gpuTextureId, Upload(Rgba, image.width, image.height, ImageTexels(colors, image)))
    {
      var isRecreateNecessary := false;
      if w.sourceType != Image {
        isRecreateNecessary := true;
      } else if image != w.source {
        isRecreateNecessary := true;
      } else if w.isUsingOwnMemory {
        isRecreateNecessary := true;
      }

      if isRecreateNecessary {
        if !isNullDriver {
          DeleteTextureFromMemory(gpu, w);
        }
        ghost var released := gpu.State();
        w.Describe(true, Image, image);
        if !isNullDriver {
          w.gpuTextureId := CopyTextureIDFromIrrlichtImage(gpu, colors, image);
          DeleteThenCreate(old(gpu.State()), released, gpu.State(),
                           OwnedNames(old(w.isUsingOwnMemory), old(w.gpuTextureId)), w.gpuTextureId,
                           Upload(Rgba, image.width, image.height, ImageTexels(colors, image)));
        } else {
          w.gpuTextureId := NullDriverHandle;
        }
        ReplaceKeepsValid(this, w);
      }
    }

    /** updateFontTexture as written: the old name is released unconditionally, even
        under the null driver, where the wrapper holds the sentinel handle 1 rather
        than a name of its own. */
    method UpdateFontTextureAsWritten(w: GuiTexture, atlas: array<Word>, width: nat, height: nat)
      requires Valid() && w in wrappers
      requires width * height <= atlas.Length
      modifies this`fontTexture, w, gpu
      ensures Valid() && wrappers == old(wrappers) && fontTexture == w
      ensures w.State() == Rebuilt(GuiFont, null, fastTextureHandle)
      ensures isNullDriver ==>
                w.gpuTextureId == NullDriverHandle &&
                Deleted(old(gpu.State()), gpu.State(), OwnedNames(old(w.isUsingOwnMemory), NullDriverHandle))
      ensures !isNullDriver ==>
                Replaced(old(gpu.State()), gpu.State(), OwnedNames(old(w.isUsingOwnMemory), old(w.gpuTextureId)),
                         w.gpuTextureId, Upload(Alpha, width, height, atlas[..width * height]))
    {
      DeleteTextureFromMemory(gpu, w);
      ghost var released := gpu.State();
      w.Describe(true, GuiFont, null);
      if !isNullDriver {
        w.gpuTextureId := CopyTextureIDFromGUIFont(gpu, colors, atlas, width, height);
        DeleteThenCreate(old(gpu.State()), released, gpu.State(),
                         OwnedNames(old(w.isUsingOwnMemory), old(w.gpuTextureId)), w.gpuTextureId,
                         Upload(Alpha, width, height, atlas[..width * height]));
      } else {
        w.gpuTextureId := NullDriverHandle;
      }
      ReplaceKeepsValid(this, w);
      fontTexture := w;
    }

    /** updateFontTexture with the release guarded like every other path: under the
        null driver the OpenGL state is untouched. */
    method UpdateFontTexture(w: GuiTexture, atlas: array<Word>, width: nat, height: nat)
      requires Valid() && w in wrappers
      requires width * height <= atlas.Length
      modifies this`fontTexture, w, gpu
      ensures Valid() && wrappers == old(wrappers) && fontTexture == w
      ensures w.State() == Rebuilt(GuiFont, null, fastTextureHandle)
      ensures isNullDriver ==> w.gpuTextureId == NullDriverHandle && unchanged(gpu)
      ensures !isNullDriver ==>
                Replaced(old(gpu.State()), gpu.State(), OwnedNames(old(w.isUsingOwnMemory), old(w.gpuTextureId)),
                         w.gpuTextureId, Upload(Alpha, width, height, atlas[..width * height]))
    {
      if !isNullDriver {
        DeleteTextureFromMemory(gpu, w);
      }
      ghost var released := gpu.State();
      w.Describe(true, GuiFont, null);
      if !isNullDriver {
        w.gpuTextureId := CopyTextureIDFromGUIFont(gpu, colors, atlas, width, height);
        DeleteThenCreate(old(gpu.State()), released, gpu.State(),
                         OwnedNames(old(w.isUsingOwnMemory), old(w.gpuTextureId)), w.gpuTextureId,
                         Upload(Alpha, width, height, atlas[..width * height]));
      } else {
        w.gpuTextureId := NullDriverHandle;
      }
      ReplaceKeepsValid(this, w);
      fontTexture := w;
    }

    /** deleteTexture: releases the wrapper's name if it owns one (never under the
        null driver), forgets the wrapper and decrements the instance counter. */
    method DeleteTexture(w: GuiTexture)
      requires Valid() && w in wrappers
      modifies this, gpu, w`isValid
      ensures Valid()
      ensures wrappers == old(wrappers) - {w} && textureInstances == old(textureInstances) - 1
      ensures fontTexture == old(fontTexture)
      ensures isNullDriver ==> unchanged(gpu)
      ensures !isNullDriver ==>
                !w.isValid && Deleted(old(gpu.State()), gpu.State(), OwnedNames(w.isUsingOwnMemory, w.gpuTextureId))
    {
      if !isNullDriver {
        DeleteTextureFromMemory(gpu, w);
      }
      wrappers := wrappers - {w};
      textureInstances := textureInstances - 1;
    }
  }

  /** Adding a fresh, well-described wrapper keeps the driver valid, provided its
      name (when it owns one) was not alive before and is alive now. */
  twostate lemma AddKeepsValid(d: OpenGLDriver, new w: GuiTexture)
    requires old(d.Valid()) && fresh(w)
    requires d.gpu.Valid() && old(d.gpu.live) <= d.gpu.live
    requires d.wrappers == old(d.wrappers) + {w} && d.textureInstances == old(d.textureInstances) + 1
    requires forall v :: v in old(d.wrappers) ==> v.State() == old(v.State()) && v.gpuTextureId == old(v.gpuTextureId)
    requires d.Describes(w)
    requires !d.isNullDriver && w.isUsingOwnMemory ==>
               w.gpuTextureId in d.gpu.live && w.gpuTextureId !in old(d.gpu.live)
    ensures d.Valid()
  {
    assert w !in old(d.wrappers);
  }

  /** Re-describing a live wrapper keeps the driver valid, provided its new name
      (when it owns one) was not alive once its old owned name was released, and
      no other name was lost. */
  twostate lemma ReplaceKeepsValid(d: OpenGLDriver, new w: GuiTexture)
    requires old(d.Valid()) && w in old(d.wrappers)
    requires d.gpu.Valid()
    requires d.wrappers == old(d.wrappers) && d.textureInstances == old(d.textureInstances)
    requires forall v :: v in old(d.wrappers) && v != w ==>
               v.State() == old(v.State()) && v.gpuTextureId == old(v.gpuTextureId)
    requires d.Describes(w)
    requires !d.isNullDriver ==>
               old(d.gpu.live) - OwnedNames(old(w.isUsingOwnMemory), old(w.gpuTextureId)) <= d.gpu.live
    requires !d.isNullDriver && w.isUsingOwnMemory ==>
               && w.gpuTextureId in d.gpu.live
               && w.gpuTextureId !in old(d.gpu.live) - OwnedNames(old(w.isUsingOwnMemory), old(w.gpuTextureId))
    ensures d.Valid()
  {
  }

  /** Under the null video driver, with a current OpenGL context in which texture
      name 1 is alive, creating the font texture and updating it as written deletes
      that texture 1. */
  method NullDriverFontUpdateAsWritten() returns (textureOneDeleted: bool)
    ensures textureOneDeleted
  {
    var gpu := new Device({1}, 2);
    var driver := new OpenGLDriver(gpu, ColorModel(c => c, (b, f) => 0), true, false);
    var atlas := new Word[0];
    var font := driver.CreateFontTexture(atlas, 0, 0);
    driver.UpdateFontTextureAsWritten(font, atlas, 0, 0);
    textureOneDeleted := 1 !in gpu.live;
  }

  /** The same sequence, in the same kind of context, with the guarded update leaves
      texture 1 alive. */
  method NullDriverFontUpdate() returns (textureOneKept: bool)
    ensures textureOneKept
  {
    var gpu := new Device({1}, 2);
    var driver := new OpenGLDriver(gpu, ColorModel(c => c, (b, f) => 0), true, false);
    var atlas := new Word[0];
    var font := driver.CreateFontTexture(atlas, 0, 0);
    driver.UpdateFontTexture(font, atlas, 0, 0);
    textureOneKept := 1 in gpu.live;
  }
}
