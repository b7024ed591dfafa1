/**
 * lib/common/src/DLL.cc: loading a shared library by path and the name-keyed cache of
 * loaded libraries. The loader call (`LoadLibrary`/`dlopen`) is a parameter holding its
 * result; the global cache pointer is passed explicitly. Whether `venom_assert` is
 * compiled in is the parameter `assertsEnabled`, because one assertion holds an erase.
 */
module Dlls {
  import opened VenomError

  datatype Platform = Windows | Apple | Linux

  /** The file extension appended to a library's path. */
  function Extension(p: Platform): string {
    match p
    case Windows => ".dll"
    case Apple => ".dylib"
    case Linux => ".so"
  }

  /** The size of the `realPath` buffer, terminator included. */
  const PathBufferSize := 256

  /** The loaded library's native handle; `None` is the null handle. */
  type NativeHandle = nat

  class DLL {
    var handle: Option<NativeHandle>
    var path: string

    constructor ()
      ensures handle.None? && path == []
    {
      handle := None;
      path := [];
    }

    /**
     * `LoadDLL`: refuses a library that is already loaded; otherwise opens the path with
     * the platform extension appended, which must fit the 256-byte buffer with its
     * terminator. On success the library records its path and is stored in the cache.
     */
    method LoadDLL(p: string, platform: Platform, loaded: Option<NativeHandle>, cache: DLL_Cache)
      returns (err: Error, realPath: string)
      requires |p| + |Extension(platform)| < PathBufferSize
      modifies this`handle, this`path, cache
      ensures old(handle).Some? ==> err == Failure && handle == old(handle) && path == old(path) && cache.dlls == old(cache.dlls)
      ensures old(handle).None? ==> realPath == p + Extension(platform) && handle == loaded
      ensures old(handle).None? && loaded.None? ==> err == Failure && path == old(path) && cache.dlls == old(cache.dlls)
      ensures old(handle).None? && loaded.Some? ==> err == Success && path == p && cache.dlls == old(cache.dlls)[p := this]
    {
      if handle.Some? {
        return Failure, [];
      }
      realPath := p + Extension(platform);
      handle := loaded;
      if handle.None? {
        return Failure, realPath;
      }
      path := p;
      cache.StoreInCache(path, this);
      return Success, realPath;
    }

    /**
     * `UnloadDLL`: removes the library's path from the cache. The cache held the only shared
     * pointer to the DLL, so in C++ the erase also destroys it and its destructor closes the
     * handle; that destruction is not modelled.
     */
    method UnloadDLL(cache: DLL_Cache, assertsEnabled: bool)
      requires handle.Some?
      requires assertsEnabled ==> path in cache.dlls
      modifies cache
      ensures cache.dlls == if assertsEnabled then old(cache.dlls) - {path} else old(cache.dlls)
    {
      cache.UnloadFromCache(path, assertsEnabled);
    }
  }

  class DLL_Cache {
    var dlls: map<string, DLL>

    constructor ()
      ensures dlls == map[]
    {
      dlls := map[];
    }

    /** `StoreInCache`: the name now maps to `dll`, replacing any earlier entry. */
    method StoreInCache(name: string, dll: DLL)
      modifies this
      ensures dlls == old(dlls)[name := dll]
    {
      dlls := dlls[name := dll];
    }

    /**
     * `UnloadFromCache`: the erase is the asserted expression itself, so it happens only
     * when assertions are compiled in, and then the name must have been cached.
     */
    method UnloadFromCache(name: string, assertsEnabled: bool)
      requires assertsEnabled ==> name in dlls
      modifies this
      ensures dlls == if assertsEnabled then old(dlls) - {name} else old(dlls)
    {
      if assertsEnabled {
        dlls := dlls - {name};
      }
    }

    /** `GetFromCache`: the cached library, or null. */
    function GetFromCache(name: string): (r: Option<DLL>)
      reads this
      ensures r.Some? <==> name in dlls
      ensures r.Some? ==> r.value == dlls[name]
    {
      if name in dlls then Some(dlls[name]) else None
    }
  }

  /** Getting a name right after storing it gives the stored library; other names are unaffected. */
  lemma StoreThenGet(dlls: map<string, DLL>, name: string, other: string, dll: DLL)
    requires other != name
    ensures var stored := dlls[name := dll];
      && name in stored && stored[name] == dll
      && (other in stored <==> other in dlls)
      && (other in dlls ==> stored[other] == dlls[other])
  {
  }
}
