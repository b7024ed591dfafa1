/**
 * lib/common/src/Texture.cc: choosing an image loader by file extension, fixing the
 * extension of a save path, and the backend-independent state of a texture (memory
 * access, type, usage) and of the GUI texture registry. The header declaring the
 * texture enumerations is not part of this model; the enumerators are those the file
 * uses. Backend calls are parameters holding their results.
 */
module Textures {
  import opened VenomError
  import opened Strings

  /** The text after the last '.', or the whole path when it has none. */
  function ExtensionOf(path: string): string {
    match LastIndexOf(path, '.')
    case Some(i) => path[i + 1..]
    case None => path
  }

  /** The extension holds no '.' and ends the path. */
  lemma ExtensionIsLastSegment(path: string)
    ensures '.' !in ExtensionOf(path)
    ensures IsSuffix(ExtensionOf(path), path)
  {
    LastIndexOfCorrect(path, '.');
    var e := ExtensionOf(path);
    if LastIndexOf(path, '.').Some? {
      var i := LastIndexOf(path, '.').value;
      forall k | 0 <= k < |e| ensures e[k] != '.' {
        assert e[k] == path[i + 1 + k];
      }
    } else {
      forall k | 0 <= k < |e| ensures e[k] != '.' {
        assert e[k] == path[k];
      }
    }
  }

  /** Appending ".ext" to any stem makes `ext` the extension, whatever dots the stem holds. */
  lemma ExtensionOfAppended(stem: string, ext: string)
    requires '.' !in ext
    ensures ExtensionOf(stem + "." + ext) == ext
  {
    var path := stem + "." + ext;
    LastIndexOfCorrect(path, '.');
    assert path[|stem|] == '.';
    assert path[|stem| + 1..] == ext;
  }

  datatype TextureLoader = StbiLoader | ExrLoader

  const StbiExtensions: set<string> := {"png", "jpg", "jpeg", "bmp", "tga", "gif", "psd"}
  const ExrExtensions: set<string> := {"exr", "hdr"}

  /** `CreateTextureLoader`: case-sensitive extensions; any other gives null. */
  function CreateTextureLoader(path: string): (r: Option<TextureLoader>)
    ensures r == Some(StbiLoader) <==> ExtensionOf(path) in StbiExtensions
    ensures r == Some(ExrLoader) <==> ExtensionOf(path) in ExrExtensions
    ensures r.None? <==> ExtensionOf(path) !in StbiExtensions + ExrExtensions
  {
    var extension := ExtensionOf(path);
    if extension in StbiExtensions then Some(StbiLoader)
    else if extension in ExrExtensions then Some(ExrLoader)
    else None
  }

  /** A file named `stem.ext` gets the loader of `ext`, so the comparison is exact: "PNG" has none. */
  lemma LoaderFollowsExtension(stem: string, ext: string)
    requires '.' !in ext
    ensures CreateTextureLoader(stem + "." + ext) == if ext in StbiExtensions then Some(StbiLoader)
      else if ext in ExrExtensions then Some(ExrLoader) else None
    ensures CreateTextureLoader(stem + ".PNG").None?
  {
    ExtensionOfAppended(stem, ext);
    ExtensionOfAppended(stem, "PNG");
  }

  /**
   * The save-path fix of `SaveImageToExr` and `SaveImageToPng`: a path containing `ext`
   * anywhere is kept; otherwise it is cut before its last '.', if any, and `ext` appended.
   */
  function FixSavePath(path: string, ext: string): (r: string)
    ensures Contains(path, ext) ==> r == path
    ensures !Contains(path, ext) ==> IsSuffix(ext, r) && |r| <= |path| + |ext|
  {
    if Contains(path, ext) then path
    else
      var stem := match LastIndexOf(path, '.') case Some(i) => path[..i] case None => path;
      stem + ext
  }

  /** The fixed path always contains the extension, so fixing it again changes nothing. */
  lemma FixSavePathIdempotent(path: string, ext: string)
    ensures Contains(FixSavePath(path, ext), ext)
    ensures FixSavePath(FixSavePath(path, ext), ext) == FixSavePath(path, ext)
  {
    var r := FixSavePath(path, ext);
    if !Contains(path, ext) {
      assert OccursAt(ext, r, |r| - |ext|);
      ContainsAt(r, ext, |r| - |ext|);
    }
  }

  /**
   * The cut keeps only the text before the last '.', even when that '.' belongs to a
   * directory: "out.v2/image" is saved as "out" followed by the extension.
   */
  lemma FixSavePathCutsDirectoryDot(dir: string, rest: string, ext: string)
    requires '.' !in rest
    requires !Contains(dir + "." + rest, ext)
    ensures FixSavePath(dir + "." + rest, ext) == dir + ext
  {
    var path := dir + "." + rest;
    assert path == dir + ['.'] + rest;
    LastIndexOfBefore(dir, '.', rest);
    assert path[..|dir|] == dir;
  }

  datatype MemoryAccess = NoAccess | ReadOnly | ReadWrite
  datatype TextureType = Texture2D | OtherTextureType
  datatype TextureUsage = NoUsage | Sampled | DepthStencil | Storage | Attachment

  class TextureImpl {
    var memoryAccess: MemoryAccess
    var textureType: TextureType
    var textureUsage: TextureUsage

    constructor ()
      ensures memoryAccess == NoAccess && textureType == Texture2D && textureUsage == NoUsage
    {
      memoryAccess := NoAccess;
      textureType := Texture2D;
      textureUsage := NoUsage;
    }

    /** `SetMemoryAccess`: the current access skips the backend; a backend failure keeps the old access. */
    method SetMemoryAccess(access: MemoryAccess, backend: Error) returns (err: Error)
      modifies this`memoryAccess
      ensures access == old(memoryAccess) ==> err == Success && memoryAccess == old(memoryAccess)
      ensures access != old(memoryAccess) && backend != Success ==> err == Failure && memoryAccess == old(memoryAccess)
      ensures access != old(memoryAccess) && backend == Success ==> err == Success && memoryAccess == access
    {
      if access == memoryAccess {
        return Success;
      }
      err := backend;
      if err != Success {
        return Failure;
      }
      memoryAccess := access;
    }

    /** `InitDepthBuffer`: on success a 2D depth-stencil texture; on failure nothing changes. */
    method InitDepthBuffer(backend: Error) returns (err: Error)
      modifies this`textureType, this`textureUsage
      ensures backend != Success ==> err == Failure && textureType == old(textureType) && textureUsage == old(textureUsage)
      ensures backend == Success ==> err == Success && textureType == Texture2D && textureUsage == DepthStencil
    {
      if backend != Success {
        return Failure;
      }
      textureType := Texture2D;
      textureUsage := DepthStencil;
      return Success;
    }

    /** `CreateReadWriteTexture`: on success a 2D storage texture with read-write access. */
    method CreateReadWriteTexture(backend: Error) returns (err: Error)
      modifies this`textureType, this`textureUsage, this`memoryAccess
      ensures backend != Success ==> (err == Failure && textureType == old(textureType)
        && textureUsage == old(textureUsage) && memoryAccess == old(memoryAccess))
      ensures backend == Success ==> err == Success && textureType == Texture2D && textureUsage == Storage && memoryAccess == ReadWrite
    {
      if backend != Success {
        return Failure;
      }
      textureType := Texture2D;
      textureUsage := Storage;
      memoryAccess := ReadWrite;
      return Success;
    }

    /** `CreateAttachment`: on success a 2D attachment texture. */
    method CreateAttachment(backend: Error) returns (err: Error)
      modifies this`textureType, this`textureUsage
      ensures backend != Success ==> err == Failure && textureType == old(textureType) && textureUsage == old(textureUsage)
      ensures backend == Success ==> err == Success && textureType == Texture2D && textureUsage == Attachment
    {
      if backend != Success {
        return Failure;
      }
      textureType := Texture2D;
      textureUsage := Attachment;
      return Success;
    }
  }

  /** A texture's `__guiTexture` pointer; `None` is null, `Some(id)` the GUI texture loaded for it. */
  class GuiTextureSlot {
    var guiTexture: Option<nat>

    constructor ()
      ensures guiTexture.None?
    {
      guiTexture := None;
    }
  }

  /** The static list `s_guiTextures` of slots holding a GUI texture. */
  class GuiTextureRegistry {
    var slots: seq<GuiTextureSlot>

    constructor ()
      ensures slots == []
    {
      slots := [];
    }

    /**
     * `GetGUITextureID`: a slot without a GUI texture gets `newId` and is registered; a slot
     * that has one keeps it. Either way the slot's id is returned.
     */
    method GetGUITextureID(slot: GuiTextureSlot, newId: nat) returns (id: nat)
      modifies this, slot
      ensures old(slot.guiTexture).Some? ==> slot.guiTexture == old(slot.guiTexture) && slots == old(slots)
      ensures old(slot.guiTexture).None? ==> slot.guiTexture == Some(newId) && slots == old(slots) + [slot]
      ensures slot.guiTexture == Some(id)
    {
      if slot.guiTexture.None? {
        slot.guiTexture := Some(newId);
        slots := slots + [slot];
      }
      id := slot.guiTexture.value;
    }

    /**
     * `UnloadAllGuiTextures`: every registered slot that still holds a GUI texture has it
     * unloaded and reset, and the list is emptied.
     */
    method UnloadAllGuiTextures() returns (unloaded: seq<nat>)
      modifies this, set s | s in slots
      ensures slots == []
      ensures forall s | s in old(slots) :: s.guiTexture.None?
      ensures forall s | s in old(slots) && old(s.guiTexture).Some? :: old(s.guiTexture).value in unloaded
      ensures forall id | id in unloaded :: exists s | s in old(slots) :: old(s.guiTexture) == Some(id)
    {
      unloaded := [];
      var i := 0;
      while i < |slots|
        invariant 0 <= i <= |slots| && slots == old(slots)
        invariant forall k | 0 <= k < i :: slots[k].guiTexture.None?
        invariant forall k | 0 <= k < i && old(slots[k].guiTexture).Some? :: old(slots[k].guiTexture).value in unloaded
        invariant forall id | id in unloaded :: exists s | s in slots :: old(s.guiTexture) == Some(id)
        invariant forall s | s in slots && s !in slots[..i] :: s.guiTexture == old(s.guiTexture)
      {
        var slot := slots[i];
        if slot.guiTexture.Some? {
          unloaded := unloaded + [slot.guiTexture.value];
          slot.guiTexture := None;
        }
        assert slots[..i + 1] == slots[..i] + [slot];
        i := i + 1;
      }
      ghost var visited := slots;
      forall s | s in visited ensures s.guiTexture.None? {
        var k :| 0 <= k < |visited| && visited[k] == s;
      }
      slots := [];
    }
  }
}
