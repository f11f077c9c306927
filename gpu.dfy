/** An abstract model of the OpenGL texture state the driver touches: which texture
    names are alive, which one is bound to GL_TEXTURE_2D, and what was uploaded into
    each texture. Only the effects the driver relies on are modelled. */
module Gpu {

  /** A 32-bit pixel word (unsigned int in the driver). */
  type Word = bv32

  /** The pixel formats the driver passes to glTexImage2D. */
  datatype GlFormat = Rgba | Alpha

  /** What one glTexImage2D call stored in a texture. */
  datatype Upload = Upload(format: GlFormat, width: nat, height: nat, data: seq<Word>)

  class Device {
    /** Names returned by glGenTextures and not yet deleted (the engine's own
        textures included). */
    var live: set<nat>
    /** The texture currently bound to GL_TEXTURE_2D; 0 is the default texture. */
    var bound: nat
    /** The last upload into each texture name. */
    var images: map<nat, Upload>
    /** Every name at or above next is unused; lets glGenTextures pick a fresh one. */
    var next: nat

    /** The observable texture state. */
    function State(): TextureState
      reads this
    {
      TextureState(live, bound, images)
    }

    ghost predicate Valid()
      reads this
    {
      0 !in live && forall n :: n in live ==> n < next
    }

    /** A context in which the engine already created the textures engineTextures. */
    constructor (engineTextures: set<nat>, firstFree: nat)
      requires 0 !in engineTextures
      requires forall n :: n in engineTextures ==> n < firstFree
      ensures Valid()
      ensures live == engineTextures && bound == 0 && images == map[]
    {
      live := engineTextures;
      bound := 0;
      images := map[];
      next := firstFree;
    }

    /** glGenTextures(1, &name): a non-zero name that is not in use. */
    method GenTexture() returns (name: nat)
      requires Valid()
      modifies this
      ensures Valid()
      ensures name != 0 && name !in old(live)
      ensures live == old(live) + {name}
      ensures bound == old(bound) && images == old(images)
    {
      name := if next == 0 then 1 else next;
      live := live + {name};
      next := name + 1;
    }

    /** glBindTexture(GL_TEXTURE_2D, name). */
    method BindTexture(name: nat)
      modifies this`bound
      ensures bound == name
    {
      bound := name;
    }

    /** glTexImage2D on the bound texture. */
    method TexImage2D(upload: Upload)
      modifies this`images
      ensures images == old(images)[bound := upload]
    {
      images := images[bound := upload];
    }

    /** glDeleteTextures(1, &name): frees the name; a bound texture falls back to the
        default texture; deleting name 0 changes nothing. */
    method DeleteTexture(name: nat)
      requires Valid()
      modifies this
      ensures Valid() && next == old(next)
      ensures name == 0 ==> live == old(live) && images == old(images) && bound == old(bound)
      ensures name != 0 ==> live == old(live) - {name} && images == old(images) - {name}
      ensures name != 0 ==> bound == if old(bound) == name then 0 else old(bound)
    {
      if name != 0 {
        live := live - {name};
        images := images - {name};
        if bound == name {
          bound := 0;
        }
      }
    }
  }

  /** The observable texture state of a context: live names, the binding, and the
      uploads. */
  datatype TextureState = TextureState(live: set<nat>, bound: nat, images: map<nat, Upload>)

  /** The effect of glDeleteTextures on the given names: they are no longer alive,
      their uploads are gone, and a bound one falls back to the default texture. */
  predicate Deleted(before: TextureState, after: TextureState, names: set<nat>)
  {
    && after.live == before.live - names
    && after.bound == (if before.bound in names then 0 else before.bound)
    && after.images == before.images - names
  }

  /** The effect of creating one texture: a non-zero name that was not alive
      becomes alive holding the upload; the binding is left as it was. */
  predicate Created(before: TextureState, after: TextureState, name: nat, upload: Upload)
  {
    && name != 0 && name !in before.live
    && after.live == before.live + {name}
    && after.bound == before.bound
    && after.images == before.images[name := upload]
  }

  /** The effect of deleting the given names and then creating one texture. */
  predicate Replaced(before: TextureState, after: TextureState, names: set<nat>, name: nat, upload: Upload)
  {
    && name != 0 && name !in before.live - names
    && after.live == (before.live - names) + {name}
    && after.bound == (if before.bound in names then 0 else before.bound)
    && after.images == (before.images - names)[name := upload]
  }

  /** Deleting and then creating is a replacement; the new name may reuse one
      that was just deleted, but never one that is still alive. */
  lemma DeleteThenCreate(s0: TextureState, s1: TextureState, s2: TextureState,
                         names: set<nat>, name: nat, upload: Upload)
    requires Deleted(s0, s1, names) && Created(s1, s2, name, upload)
    ensures Replaced(s0, s2, names, name, upload)
  {
  }
}
