/** The driver's texture wrapper (CGUITexture): what a GUI texture handle points to. */
module Textures {

  /** Where the wrapper's pixels came from (mSourceType). */
  datatype SourceType = RawData | Texture | Image | GuiFont

  /** The handle the driver stores instead of a GPU name when the engine runs its
      null video driver ((ImTextureID)0x1). */
  const NullDriverHandle: nat := 1

  /** A wrapper's description of its source, without its GPU name. */
  datatype WrapperState = WrapperState(isUsingOwnMemory: bool, sourceType: SourceType, source: object?, isValid: bool)

  /** The GPU names deleteTextureFromMemory gives to glDeleteTextures for a wrapper:
      its own name when it owns one, nothing when it borrows the engine's (name 0,
      which OpenGL ignores, is left out). */
  function OwnedNames(isUsingOwnMemory: bool, gpuTextureId: nat): (r: set<nat>)
    ensures r <= {gpuTextureId}
    ensures gpuTextureId in r <==> isUsingOwnMemory && gpuTextureId != 0
  {
    if isUsingOwnMemory && gpuTextureId != 0 then {gpuTextureId} else {}
  }

  class GuiTexture {
    /** The GPU name was created by the driver and must be deleted by it. */
    var isUsingOwnMemory: bool
    var sourceType: SourceType
    /** The source pointer (the mSource union): the raw pixel buffer, the engine
        texture or the engine image; null for the GUI font. */
    var source: object?
    var isValid: bool
    /** The OpenGL texture name (mGPUTextureID). */
    var gpuTextureId: nat

    function State(): WrapperState
      reads this
    {
      WrapperState(isUsingOwnMemory, sourceType, source, isValid)
    }

    /** Records where the wrapper's pixels come from and marks it valid. */
    method Describe(isUsingOwnMemory: bool, sourceType: SourceType, source: object?)
      modifies this
      ensures State() == WrapperState(isUsingOwnMemory, sourceType, source, true)
      ensures gpuTextureId == old(gpuTextureId)
    {
      this.isUsingOwnMemory := isUsingOwnMemory;
      this.sourceType := sourceType;
      this.source := source;
      this.isValid := true;
    }

    /** A wrapper that does not yet describe any texture; the creating driver
        operation fills in every field. */
    constructor ()
      ensures !isValid && !isUsingOwnMemory && source == null && gpuTextureId == 0
    {
      isUsingOwnMemory := false;
      sourceType := GuiFont;
      source := null;
      isValid := false;
      gpuTextureId := 0;
    }
  }
}
