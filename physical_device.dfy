/**
 * lib/metal/src/PhysicalDevice.cc: the device-local memory total of a physical device and
 * the search for a format the device supports. The device's memory properties are a
 * parameter, and `vkGetPhysicalDeviceFormatProperties` is a function parameter `query`.
 * Constant values are those of Vulkan's `vulkan_core.h`.
 */
module PhysicalDevices {
  /** `VkDeviceSize` arithmetic wraps at 2^64. */
  const Uint64Limit := 0x1_0000_0000_0000_0000

  const MEMORY_HEAP_DEVICE_LOCAL_BIT: bv32 := 1

  /** `VkMemoryHeap`. */
  datatype MemoryHeap = MemoryHeap(size: nat, flags: bv32)

  predicate IsDeviceLocal(h: MemoryHeap) {
    h.flags & MEMORY_HEAP_DEVICE_LOCAL_BIT != 0
  }

  /** The exact sum of the sizes of the device-local heaps. */
  function DeviceLocalTotal(heaps: seq<MemoryHeap>): nat {
    if heaps == [] then 0
    else
      var last := heaps[|heaps| - 1];
      DeviceLocalTotal(heaps[..|heaps| - 1]) + if IsDeviceLocal(last) then last.size else 0
  }

  /**
   * `GetDeviceLocalVRAMAmount`: the sizes of the heaps flagged device-local are added into
   * a `uint64_t`, so the result is the exact total modulo 2^64.
   */
  method GetDeviceLocalVRAMAmount(heaps: seq<MemoryHeap>) returns (totalVram: nat)
    ensures totalVram == DeviceLocalTotal(heaps) % Uint64Limit
    ensures totalVram < Uint64Limit
  {
    totalVram := 0;
    var i := 0;
    while i < |heaps|
      invariant 0 <= i <= |heaps|
      invariant totalVram == DeviceLocalTotal(heaps[..i]) % Uint64Limit
    {
      if heaps[i].flags & MEMORY_HEAP_DEVICE_LOCAL_BIT != 0 {
        totalVram := (totalVram + heaps[i].size) % Uint64Limit;
      }
      assert heaps[..i + 1][..i] == heaps[..i];
      i := i + 1;
    }
    assert heaps[..i] == heaps;
  }

  /** Heaps that are not device-local add nothing; a device-local heap adds its whole size. */
  lemma {:induction false} DeviceLocalTotalAppend(heaps: seq<MemoryHeap>, more: seq<MemoryHeap>)
    ensures DeviceLocalTotal(heaps + more) == DeviceLocalTotal(heaps) + DeviceLocalTotal(more)
    decreases |more|
  {
    if more == [] {
      assert heaps + more == heaps;
    } else {
      var last := more[|more| - 1];
      var init := more[..|more| - 1];
      assert (heaps + more)[..|heaps + more| - 1] == heaps + init;
      DeviceLocalTotalAppend(heaps, init);
    }
  }

  /** The total counts every device-local heap once and no other heap. */
  lemma {:induction false} DeviceLocalTotalBounds(heaps: seq<MemoryHeap>, k: nat)
    requires k < |heaps|
    ensures IsDeviceLocal(heaps[k]) ==> heaps[k].size <= DeviceLocalTotal(heaps)
    ensures (forall j | 0 <= j < |heaps| :: !IsDeviceLocal(heaps[j])) ==> DeviceLocalTotal(heaps) == 0
  {
    assert heaps == heaps[..k] + [heaps[k]] + heaps[k + 1..];
    DeviceLocalTotalAppend(heaps[..k] + [heaps[k]], heaps[k + 1..]);
    DeviceLocalTotalAppend(heaps[..k], [heaps[k]]);
    assert [heaps[k]][..0] == [];
    if forall j | 0 <= j < |heaps| :: !IsDeviceLocal(heaps[j]) {
      NoDeviceLocalHeap(heaps);
    }
  }

  lemma {:induction false} NoDeviceLocalHeap(heaps: seq<MemoryHeap>)
    requires forall j | 0 <= j < |heaps| :: !IsDeviceLocal(heaps[j])
    ensures DeviceLocalTotal(heaps) == 0
  {
    if heaps != [] {
      NoDeviceLocalHeap(heaps[..|heaps| - 1]);
    }
  }

  /** `VkFormat`; 0 is `VK_FORMAT_UNDEFINED`. */
  type Format = nat

  const FORMAT_UNDEFINED: Format := 0
  const FORMAT_D32_SFLOAT: Format := 126
  const FORMAT_D24_UNORM_S8_UINT: Format := 129
  const FORMAT_D32_SFLOAT_S8_UINT: Format := 130

  const FORMAT_FEATURE_DEPTH_STENCIL_ATTACHMENT_BIT: bv32 := 0x200

  datatype ImageTiling = TilingOptimal | TilingLinear

  /** `VkFormatProperties`: the feature bits for each tiling. */
  datatype FormatProperties = FormatProperties(linearTilingFeatures: bv32, optimalTilingFeatures: bv32)

  /** The features a format offers with the given tiling. */
  function TilingFeatures(p: FormatProperties, tiling: ImageTiling): bv32 {
    if tiling == TilingLinear then p.linearTilingFeatures else p.optimalTilingFeatures
  }

  /** A format qualifies when its tiling features share at least one bit with the request. */
  predicate Qualifies(query: Format -> FormatProperties, format: Format, tiling: ImageTiling, features: bv32) {
    TilingFeatures(query(format), tiling) & features != 0
  }

  /** The first candidate that qualifies, or `VK_FORMAT_UNDEFINED` when none does. */
  function FirstSupported(candidates: seq<Format>, tiling: ImageTiling, features: bv32, query: Format -> FormatProperties): Format {
    if candidates == [] then FORMAT_UNDEFINED
    else if Qualifies(query, candidates[0], tiling, features) then candidates[0]
    else FirstSupported(candidates[1..], tiling, features, query)
  }

  /** `FirstSupported` keeps the earliest qualifying candidate, and is undefined only when none qualifies. */
  lemma {:induction false} FirstSupportedIsFirst(candidates: seq<Format>, tiling: ImageTiling, features: bv32, query: Format -> FormatProperties, i: nat)
    ensures (forall k | 0 <= k < |candidates| :: !Qualifies(query, candidates[k], tiling, features))
      ==> FirstSupported(candidates, tiling, features, query) == FORMAT_UNDEFINED
    ensures (i < |candidates| && Qualifies(query, candidates[i], tiling, features)
      && forall k | 0 <= k < i :: !Qualifies(query, candidates[k], tiling, features))
      ==> FirstSupported(candidates, tiling, features, query) == candidates[i]
  {
    if candidates != [] {
      FirstSupportedIsFirst(candidates[1..], tiling, features, query, if i == 0 then 0 else i - 1);
      if 0 < i < |candidates| && Qualifies(query, candidates[i], tiling, features) {
        assert candidates[1..][i - 1] == candidates[i];
        assert forall k | 0 <= k < i - 1 :: candidates[1..][k] == candidates[k + 1];
      }
      assert forall k | 0 <= k < |candidates| - 1 :: candidates[1..][k] == candidates[k + 1];
    }
  }

  /**
   * `FindSupportedFormat`: the candidates are tried in order against the features of the
   * requested tiling; the first sharing a bit with `features` is returned.
   */
  method FindSupportedFormat(candidates: seq<Format>, tiling: ImageTiling, features: bv32, query: Format -> FormatProperties)
    returns (format: Format)
    ensures format == FirstSupported(candidates, tiling, features, query)
  {
    var i := 0;
    assert candidates[0..] == candidates;
    while i < |candidates|
      invariant 0 <= i <= |candidates|
      invariant FirstSupported(candidates[i..], tiling, features, query) == FirstSupported(candidates, tiling, features, query)
    {
      var tilingFeatures := TilingFeatures(query(candidates[i]), tiling);
      assert candidates[i..][0] == candidates[i];
      if tilingFeatures & features != 0 {
        return candidates[i];
      }
      assert candidates[i..][1..] == candidates[i + 1..];
      i := i + 1;
    }
    assert candidates[i..] == [];
    return FORMAT_UNDEFINED;
  }

  /**
   * `FindDepthFormat`: the depth formats in order of preference, 32-bit float first, then
   * 32-bit float with stencil, then 24-bit with stencil, for optimal tiling.
   */
  method FindDepthFormat(query: Format -> FormatProperties) returns (format: Format)
    ensures Qualifies(query, FORMAT_D32_SFLOAT, TilingOptimal, FORMAT_FEATURE_DEPTH_STENCIL_ATTACHMENT_BIT)
      ==> format == FORMAT_D32_SFLOAT
    ensures !Qualifies(query, FORMAT_D32_SFLOAT, TilingOptimal, FORMAT_FEATURE_DEPTH_STENCIL_ATTACHMENT_BIT)
      && Qualifies(query, FORMAT_D32_SFLOAT_S8_UINT, TilingOptimal, FORMAT_FEATURE_DEPTH_STENCIL_ATTACHMENT_BIT)
      ==> format == FORMAT_D32_SFLOAT_S8_UINT
    ensures !Qualifies(query, FORMAT_D32_SFLOAT, TilingOptimal, FORMAT_FEATURE_DEPTH_STENCIL_ATTACHMENT_BIT)
      && !Qualifies(query, FORMAT_D32_SFLOAT_S8_UINT, TilingOptimal, FORMAT_FEATURE_DEPTH_STENCIL_ATTACHMENT_BIT)
      ==> format == (if Qualifies(query, FORMAT_D24_UNORM_S8_UINT, TilingOptimal, FORMAT_FEATURE_DEPTH_STENCIL_ATTACHMENT_BIT)
        then FORMAT_D24_UNORM_S8_UINT else FORMAT_UNDEFINED)
  {
    var candidates := [FORMAT_D32_SFLOAT, FORMAT_D32_SFLOAT_S8_UINT, FORMAT_D24_UNORM_S8_UINT];
    format := FindSupportedFormat(candidates, TilingOptimal, FORMAT_FEATURE_DEPTH_STENCIL_ATTACHMENT_BIT, query);
    assert candidates[1..] == [FORMAT_D32_SFLOAT_S8_UINT, FORMAT_D24_UNORM_S8_UINT];
    assert candidates[1..][1..] == [FORMAT_D24_UNORM_S8_UINT];
    assert candidates[1..][1..][1..] == [];
    assert FirstSupported(candidates[1..][1..], TilingOptimal, FORMAT_FEATURE_DEPTH_STENCIL_ATTACHMENT_BIT, query)
      == if Qualifies(query, FORMAT_D24_UNORM_S8_UINT, TilingOptimal, FORMAT_FEATURE_DEPTH_STENCIL_ATTACHMENT_BIT)
        then FORMAT_D24_UNORM_S8_UINT else FORMAT_UNDEFINED;
  }
}
