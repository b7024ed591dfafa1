/**
 * lib/vulkan/src/SwapChain.cc: choosing the surface format, present mode, extent and
 * image count of the Vulkan swap chain, and tearing it down. Every Vulkan query and
 * creation call is a parameter holding its result. Enumerator values are those of
 * Vulkan's `vulkan_core.h`.
 */
module SwapChains {
  import opened VenomError

  /** A Vulkan handle; 0 is `VK_NULL_HANDLE`. */
  type Handle = nat
  const NullHandle: Handle := 0

  const Uint32Limit := 0x1_0000_0000
  const UINT32_MAX := 0xFFFF_FFFF

  const FORMAT_UNDEFINED := 0
  const FORMAT_B8G8R8A8_SRGB := 50
  const COLOR_SPACE_SRGB_NONLINEAR := 0

  const PRESENT_MODE_IMMEDIATE := 0
  const PRESENT_MODE_MAILBOX := 1
  const PRESENT_MODE_FIFO := 2
  const PRESENT_MODE_MAX_ENUM := 0x7FFF_FFFF

  const COMPOSITE_ALPHA_OPAQUE_BIT: bv32 := 1

  datatype SurfaceFormat = SurfaceFormat(format: int, colorSpace: int)

  /** The format the swap chain prefers. */
  const Preferred := SurfaceFormat(FORMAT_B8G8R8A8_SRGB, COLOR_SPACE_SRGB_NONLINEAR)

  datatype Extent = Extent(width: nat, height: nat)

  datatype Capabilities = Capabilities(
    minImageCount: nat,
    maxImageCount: nat,
    currentExtent: Extent,
    minImageExtent: Extent,
    maxImageExtent: Extent,
    supportedCompositeAlpha: bv32)

  /** An `int` converted to `uint32_t`. */
  function ToUint32(x: int): (r: nat)
    ensures r < Uint32Limit
    ensures 0 <= x < Uint32Limit ==> r == x
  {
    x % Uint32Limit
  }

  /** `std::clamp(v, lo, hi)` as the standard library computes it. */
  function Clamp(v: int, lo: int, hi: int): int {
    if v < lo then lo else if hi < v then hi else v
  }

  /** With ordered bounds the result lies between them, and a value already inside is kept. */
  lemma ClampBounds(v: int, lo: int, hi: int)
    requires lo <= hi
    ensures lo <= Clamp(v, lo, hi) <= hi
    ensures lo <= v <= hi <==> Clamp(v, lo, hi) == v
    ensures v < lo ==> Clamp(v, lo, hi) == lo
    ensures hi < v ==> Clamp(v, lo, hi) == hi
  {
  }

  /**
   * The extent: the surface's current extent, unless its width is `UINT32_MAX`, which lets
   * the swap chain pick; then the framebuffer size, converted to `uint32_t`, clamped to the
   * surface's limits.
   */
  function ChooseExtent(caps: Capabilities, framebufferWidth: int, framebufferHeight: int): (r: Extent)
    ensures caps.currentExtent.width != UINT32_MAX ==> r == caps.currentExtent
    ensures caps.currentExtent.width == UINT32_MAX ==>
      r.width == Clamp(ToUint32(framebufferWidth), caps.minImageExtent.width, caps.maxImageExtent.width)
      && r.height == Clamp(ToUint32(framebufferHeight), caps.minImageExtent.height, caps.maxImageExtent.height)
  {
    if caps.currentExtent.width != UINT32_MAX then caps.currentExtent
    else Extent(Clamp(ToUint32(framebufferWidth), caps.minImageExtent.width, caps.maxImageExtent.width),
                Clamp(ToUint32(framebufferHeight), caps.minImageExtent.height, caps.maxImageExtent.height))
  }

  /** A chosen variable extent lies within the surface's limits, and is the framebuffer size when that fits. */
  lemma ChosenExtentWithinLimits(caps: Capabilities, w: int, h: int)
    requires caps.currentExtent.width == UINT32_MAX
    requires caps.minImageExtent.width <= caps.maxImageExtent.width
    requires caps.minImageExtent.height <= caps.maxImageExtent.height
    ensures var e := ChooseExtent(caps, w, h);
      && caps.minImageExtent.width <= e.width <= caps.maxImageExtent.width
      && caps.minImageExtent.height <= e.height <= caps.maxImageExtent.height
    ensures caps.minImageExtent.width <= w <= caps.maxImageExtent.width
      && caps.minImageExtent.height <= h <= caps.maxImageExtent.height
      && caps.maxImageExtent.width < Uint32Limit && caps.maxImageExtent.height < Uint32Limit
      ==> ChooseExtent(caps, w, h) == Extent(w, h)
  {
    var e := ChooseExtent(caps, w, h);
    ClampBounds(ToUint32(w), caps.minImageExtent.width, caps.maxImageExtent.width);
    ClampBounds(ToUint32(h), caps.minImageExtent.height, caps.maxImageExtent.height);
  }

  /** The image count: one more than the minimum, clamped to the surface's limits, in `uint32_t`. */
  function ImageCount(caps: Capabilities): nat {
    Clamp(ToUint32(caps.minImageCount + 1), caps.minImageCount, caps.maxImageCount)
  }

  /**
   * With a minimum no larger than the maximum, the count is one above the minimum when the
   * maximum allows it, and the minimum otherwise.
   */
  lemma ImageCountOneAboveMinimum(caps: Capabilities)
    requires 0 < caps.maxImageCount < Uint32Limit
    requires caps.minImageCount <= caps.maxImageCount
    ensures caps.minImageCount <= ImageCount(caps) <= caps.maxImageCount
    ensures ImageCount(caps) == if caps.minImageCount < caps.maxImageCount then caps.minImageCount + 1 else caps.minImageCount
  {
    if caps.minImageCount < caps.maxImageCount {
      assert ToUint32(caps.minImageCount + 1) == caps.minImageCount + 1;
    }
  }

  datatype Sharing =
    | Exclusive
      /** Concurrent use by the families listed; `None` is a read past the end of the source vector. */
    | Concurrent(families: seq<Option<nat>>)

  /**
   * The sharing mode as written: concurrent when the first graphics and present families
   * differ, listing two entries read from the graphics family vector.
   */
  function SharingAsWritten(graphics: seq<nat>, present: seq<nat>): (r: Sharing)
    requires |graphics| > 0 && |present| > 0
    ensures r.Exclusive? <==> graphics[0] == present[0]
    ensures r.Concurrent? ==> |r.families| == 2
  {
    if graphics[0] != present[0] then
      Concurrent(seq(2, k requires 0 <= k < 2 => if k < |graphics| then Some(graphics[k]) else None))
    else Exclusive
  }

  /** The swap chain's images are shared by a graphics family and a present family that differ. */
  function SharingFor(graphics: seq<nat>, present: seq<nat>): (r: Sharing)
    requires |graphics| > 0 && |present| > 0
    ensures r.Exclusive? <==> graphics[0] == present[0]
  {
    if graphics[0] != present[0] then Concurrent([Some(graphics[0]), Some(present[0])])
    else Exclusive
  }

  /** With concurrent sharing, the list holds exactly the two families that use the images. */
  lemma SharingListsBothFamilies(graphics: seq<nat>, present: seq<nat>)
    requires |graphics| > 0 && |present| > 0
    ensures var s := SharingFor(graphics, present);
      s.Concurrent? ==> s.families == [Some(graphics[0]), Some(present[0])] && graphics[0] != present[0]
  {
  }

  /**
   * As written, a device whose only graphics family is 0 and whose present family is 1
   * gets a list reading past the end of the graphics vector; with graphics families 0 and 2
   * the present family is not listed at all.
   */
  lemma SharingAsWrittenMissesPresentFamily()
    ensures SharingAsWritten([0], [1]).families[1] == None
    ensures Some(1) !in SharingAsWritten([0, 2], [1]).families
  {
    assert SharingAsWritten([0, 2], [1]).families == [Some(0), Some(2)];
  }

  /**
   * The composite-alpha check as written: `==` binds tighter than `&`, so the mask is
   * and-ed with `OPAQUE == 0`, which is 0.
   */
  predicate OpaqueUnsupportedAsWritten(supported: bv32) {
    supported & (if COMPOSITE_ALPHA_OPAQUE_BIT == 0 then 1 else 0) != 0
  }

  /** The check as written never reports a missing opaque bit. */
  lemma OpaqueCheckNeverFails(supported: bv32)
    ensures !OpaqueUnsupportedAsWritten(supported)
  {
  }

  /** The intended check: the opaque bit is missing from the supported set. */
  predicate OpaqueUnsupported(supported: bv32) {
    supported & COMPOSITE_ALPHA_OPAQUE_BIT == 0
  }

  /** The corrected check fails exactly on masks without the opaque bit, e.g. 2 (pre-multiplied only). */
  lemma OpaqueCheckDetectsMissingBit(supported: bv32)
    ensures OpaqueUnsupported(supported) <==> supported & 1 != 1
    ensures OpaqueUnsupported(2) && !OpaqueUnsupported(3)
  {
  }

  /** The non-null handles of `s`, in order: those the clean-up destroys. */
  function NonNull(s: seq<Handle>): (r: seq<Handle>)
    ensures forall h | h in r :: h in s && h != NullHandle
    ensures forall h | h in s && h != NullHandle :: h in r
  {
    if s == [] then []
    else NonNull(s[..|s| - 1]) + (if s[|s| - 1] != NullHandle then [s[|s| - 1]] else [])
  }

  /** What creating the swap chain is asked for. */
  datatype CreateInfo = CreateInfo(
    minImageCount: nat,
    surfaceFormat: SurfaceFormat,
    extent: Extent,
    sharing: Sharing,
    presentMode: int)

  class SwapChain {
    var capabilities: Capabilities
    var surfaceFormats: seq<SurfaceFormat>
    var presentModes: seq<int>
    var activeSurfaceFormat: SurfaceFormat
    var activePresentMode: int
    var extent: Extent
    var swapChain: Handle
    var imageHandles: seq<Handle>
    var imageViews: seq<Handle>
    var framebuffers: seq<Handle>

    constructor ()
      ensures activeSurfaceFormat == SurfaceFormat(FORMAT_UNDEFINED, COLOR_SPACE_SRGB_NONLINEAR)
      ensures activePresentMode == PRESENT_MODE_MAX_ENUM
      ensures extent == Extent(0, 0) && swapChain == NullHandle
      ensures surfaceFormats == [] && presentModes == []
      ensures imageHandles == [] && imageViews == [] && framebuffers == []
    {
      capabilities := Capabilities(0, 0, Extent(0, 0), Extent(0, 0), Extent(0, 0), 0);
      surfaceFormats := [];
      presentModes := [];
      activeSurfaceFormat := SurfaceFormat(FORMAT_UNDEFINED, COLOR_SPACE_SRGB_NONLINEAR);
      activePresentMode := PRESENT_MODE_MAX_ENUM;
      extent := Extent(0, 0);
      swapChain := NullHandle;
      imageHandles := [];
      imageViews := [];
      framebuffers := [];
    }

    /**
     * `CleanSwapChain`: destroys every non-null framebuffer, then every non-null image view,
     * then the swap chain, and leaves nothing behind, so a second call destroys nothing.
     */
    method CleanSwapChain() returns (destroyed: seq<Handle>)
      modifies this`framebuffers, this`imageViews, this`swapChain
      ensures destroyed == NonNull(old(framebuffers)) + NonNull(old(imageViews))
        + (if old(swapChain) != NullHandle then [old(swapChain)] else [])
      ensures framebuffers == [] && imageViews == [] && swapChain == NullHandle
    {
      destroyed := [];
      var i := 0;
      while i < |framebuffers|
        invariant 0 <= i <= |framebuffers|
        invariant destroyed == NonNull(framebuffers[..i])
      {
        assert framebuffers[..i + 1][..i] == framebuffers[..i];
        if framebuffers[i] != NullHandle {
          destroyed := destroyed + [framebuffers[i]];
        }
        i := i + 1;
      }
      assert framebuffers[..i] == framebuffers;
      framebuffers := [];
      var fromFramebuffers := destroyed;
      destroyed := [];
      i := 0;
      while i < |imageViews|
        invariant 0 <= i <= |imageViews|
        invariant destroyed == NonNull(imageViews[..i])
      {
        assert imageViews[..i + 1][..i] == imageViews[..i];
        if imageViews[i] != NullHandle {
          destroyed := destroyed + [imageViews[i]];
        }
        i := i + 1;
      }
      assert imageViews[..i] == imageViews;
      imageViews := [];
      destroyed := fromFramebuffers + destroyed;
      if swapChain != NullHandle {
        destroyed := destroyed + [swapChain];
        swapChain := NullHandle;
      }
    }

    /**
     * `InitSwapChainSettings`: a failed capability query stops with `InitializationFailed`.
     * Otherwise an empty format or present-mode answer keeps the previous list; the preferred
     * format is taken when offered, MAILBOX is taken over FIFO, and either choice otherwise
     * keeps its previous value.
     */
    method InitSwapChainSettings(caps: Option<Capabilities>, queriedFormats: seq<SurfaceFormat>, queriedModes: seq<int>,
                                 framebufferWidth: int, framebufferHeight: int) returns (err: Error)
      modifies this`capabilities, this`surfaceFormats, this`presentModes, this`activeSurfaceFormat, this`activePresentMode, this`extent
      ensures caps.None? ==> (err == InitializationFailed && capabilities == old(capabilities)
        && surfaceFormats == old(surfaceFormats) && presentModes == old(presentModes)
        && activeSurfaceFormat == old(activeSurfaceFormat) && activePresentMode == old(activePresentMode) && extent == old(extent))
      ensures caps.Some? ==> err == Success && capabilities == caps.value
      ensures caps.Some? ==> surfaceFormats == (if queriedFormats != [] then queriedFormats else old(surfaceFormats))
      ensures caps.Some? ==> presentModes == (if queriedModes != [] then queriedModes else old(presentModes))
      ensures caps.Some? ==> activeSurfaceFormat == (if Preferred in surfaceFormats then Preferred else old(activeSurfaceFormat))
      ensures caps.Some? ==> (activePresentMode ==
        if PRESENT_MODE_MAILBOX in presentModes then PRESENT_MODE_MAILBOX
        else if PRESENT_MODE_FIFO in presentModes then PRESENT_MODE_FIFO
        else old(activePresentMode))
      ensures caps.Some? ==> extent == ChooseExtent(caps.value, framebufferWidth, framebufferHeight)
    {
      if caps.None? {
        return InitializationFailed;
      }
      capabilities := caps.value;
      if queriedFormats != [] {
        surfaceFormats := queriedFormats;
      }
      if queriedModes != [] {
        presentModes := queriedModes;
      }
      ChooseSurfaceFormat();
      ChoosePresentMode();
      if capabilities.currentExtent.width != UINT32_MAX {
        extent := capabilities.currentExtent;
      } else {
        extent := Extent(Clamp(ToUint32(framebufferWidth), capabilities.minImageExtent.width, capabilities.maxImageExtent.width),
                         Clamp(ToUint32(framebufferHeight), capabilities.minImageExtent.height, capabilities.maxImageExtent.height));
      }
      return Success;
    }

    /** The format loop: the first entry equal to the preferred format, if any. */
    method ChooseSurfaceFormat()
      modifies this`activeSurfaceFormat
      ensures activeSurfaceFormat == if Preferred in surfaceFormats then Preferred else old(activeSurfaceFormat)
    {
      var i := 0;
      while i < |surfaceFormats|
        invariant 0 <= i <= |surfaceFormats|
        invariant Preferred !in surfaceFormats[..i]
        invariant activeSurfaceFormat == old(activeSurfaceFormat)
      {
        if surfaceFormats[i] == Preferred {
          activeSurfaceFormat := surfaceFormats[i];
          return;
        }
        assert surfaceFormats[..i + 1] == surfaceFormats[..i] + [surfaceFormats[i]];
        i := i + 1;
      }
      assert surfaceFormats[..i] == surfaceFormats;
    }

    /** The present-mode loop: FIFO is remembered and the search goes on; MAILBOX ends it. */
    method ChoosePresentMode()
      modifies this`activePresentMode
      ensures activePresentMode ==
        (if PRESENT_MODE_MAILBOX in presentModes then PRESENT_MODE_MAILBOX
         else if PRESENT_MODE_FIFO in presentModes then PRESENT_MODE_FIFO
         else old(activePresentMode))
    {
      var i := 0;
      while i < |presentModes|
        invariant 0 <= i <= |presentModes|
        invariant PRESENT_MODE_MAILBOX !in presentModes[..i]
        invariant activePresentMode == if PRESENT_MODE_FIFO in presentModes[..i] then PRESENT_MODE_FIFO else old(activePresentMode)
      {
        assert presentModes[..i + 1] == presentModes[..i] + [presentModes[i]];
        if presentModes[i] == PRESENT_MODE_FIFO {
          activePresentMode := presentModes[i];
        } else if presentModes[i] == PRESENT_MODE_MAILBOX {
          activePresentMode := presentModes[i];
          return;
        }
        i := i + 1;
      }
      assert presentModes[..i] == presentModes;
    }

    /**
     * `InitSwapChain` up to the creation call, with the sharing list and the composite-alpha
     * check corrected: an existing swap chain is cleaned first, then the create info is
     * filled in; a surface without opaque composite alpha or a failed creation gives
     * `InitializationFailed`.
     */
    method InitSwapChain(graphics: seq<nat>, present: seq<nat>, created: Option<Handle>, images: seq<Handle>)
      returns (err: Error, info: CreateInfo)
      requires capabilities.maxImageCount > 0
      requires |graphics| > 0 && |present| > 0
      modifies this`framebuffers, this`imageViews, this`swapChain, this`imageHandles
      ensures info.minImageCount == ImageCount(capabilities)
      ensures info.surfaceFormat == activeSurfaceFormat && info.extent == extent && info.presentMode == activePresentMode
      ensures info.sharing == SharingFor(graphics, present)
      ensures err == Success <==> created.Some? && !OpaqueUnsupported(capabilities.supportedCompositeAlpha)
      ensures err != Success ==> err == InitializationFailed && imageHandles == old(imageHandles)
      ensures err == Success ==> swapChain == created.value && imageHandles == images
      ensures old(swapChain) != NullHandle ==> framebuffers == [] && imageViews == []
    {
      if swapChain != NullHandle {
        var _ := CleanSwapChain();
      }
      info := CreateInfo(ImageCount(capabilities), activeSurfaceFormat, extent,
                         SharingFor(graphics, present), activePresentMode);
      if OpaqueUnsupported(capabilities.supportedCompositeAlpha) {
        return InitializationFailed, info;
      }
      if created.None? {
        return InitializationFailed, info;
      }
      swapChain := created.value;
      imageHandles := images;
      return Success, info;
    }
  }
}
