/**
 * lib/vulkan/src/VulkanApplicationSettings.cc: the Vulkan side of the graphics settings,
 * which applies a multisampling mode to the swap chain and lists the sample counts the
 * physical device offers. The device limit `framebufferColorSampleCounts` is a parameter.
 */
module VulkanSettings {
  import opened VenomError
  import opened VenomSettings

  /** The underlying values of `MultiSamplingModeOption`; any other value is invalid. */
  const ModeNone := 1
  const ModeMSAA := 2

  /** The sample counts the device offers: every power of two up to `limit`, ascending. */
  ghost predicate OffersExactly(options: seq<int>, limit: int) {
    && (forall k | 0 <= k < |options| :: options[k] == Pow2(k) && options[k] <= limit)
    && Pow2(|options|) > limit
  }

  /**
   * `_GetAvailableMultisamplingOptions`: `i` starts at 1 and doubles while it does not exceed
   * the limit. The counter is a signed `int`, so the loop stops only for limits below 2^31;
   * Vulkan's sample-count flags stay below 128.
   */
  method GetAvailableMultisamplingOptions(limit: int) returns (options: seq<int>)
    requires limit < 0x8000_0000
    ensures OffersExactly(options, limit)
    ensures limit < 1 <==> options == []
  {
    options := [];
    var i := 1;
    while i <= limit
      invariant i == Pow2(|options|)
      invariant forall k | 0 <= k < |options| :: options[k] == Pow2(k) && options[k] <= limit
      invariant options == [] ==> i == 1
      decreases limit - i
    {
      Pow2Step(|options|);
      ghost var prev := options;
      options := options + [i];
      forall k | 0 <= k < |options|
        ensures options[k] == Pow2(k) && options[k] <= limit
      {
        if k < |prev| {
          assert options[k] == prev[k];
        } else {
          assert k == |prev|;
          assert options[k] == i;
        }
      }
      i := i + i;
    }
  }

  lemma Pow2Step(k: nat)
    ensures Pow2(k + 1) == Pow2(k) + Pow2(k)
  {
  }

  /** Every listed count is strictly larger than the one before it. */
  lemma {:induction false} OffersAscending(options: seq<int>, limit: int, j: nat, k: nat)
    requires OffersExactly(options, limit)
    requires j < k < |options|
    ensures options[j] < options[k]
  {
    if j < k - 1 {
      OffersAscending(options, limit, j, k - 1);
    }
    assert options[k] == 2 * Pow2(k - 1);
  }

  /** Exactly the first `|options|` powers of two fit the limit. */
  lemma OffersLength(options: seq<int>, limit: int, n: nat)
    requires OffersExactly(options, limit)
    ensures n < |options| <==> Pow2(n) <= limit
  {
    if n < |options| {
      assert options[n] == Pow2(n);
    } else {
      Pow2Monotone(|options|, n);
    }
  }

  /**
   * A device whose color sample-count flags are 0x7F (1 to 64 samples) is offered seven
   * counts, the last of them 64, which `MultiSamplingCountOption` does not name.
   */
  lemma SevenOptionsForAllFlags(options: seq<int>)
    requires OffersExactly(options, 0x7F)
    ensures options == [1, 2, 4, 8, 16, 32, 64]
  {
    assert Pow2(6) == 64;
    OffersLength(options, 0x7F, 6);
    OffersLength(options, 0x7F, 7);
  }

  /** The options list is a function of the limit. */
  lemma {:induction false} OffersUnique(a: seq<int>, b: seq<int>, limit: int)
    requires OffersExactly(a, limit) && OffersExactly(b, limit)
    ensures a == b
  {
    OffersLength(a, limit, |b|);
    OffersLength(b, limit, |a|);
  }

  /** What `_SetMultiSampling` reads and writes of the Vulkan application: the swap chain's sample count. */
  class VulkanApplication {
    var swapChainSamples: int

    /** The swap chain's initial sample count is set where it is declared, which is not part of this model. */
    constructor (samples: int)
      ensures swapChainSamples == samples
    {
      swapChainSamples := samples;
    }

    /**
     * `_SetMultiSampling`: mode None sets one sample, MSAA the requested count; any other
     * mode value is a `Failure` that leaves the swap chain alone (and trips `venom_assert`
     * in debug builds).
     */
    method SetMultiSampling(mode: int, samples: int) returns (err: Error)
      modifies this`swapChainSamples
      ensures mode == ModeNone ==> err == Success && swapChainSamples == 1
      ensures mode == ModeMSAA ==> err == Success && swapChainSamples == samples
      ensures mode != ModeNone && mode != ModeMSAA ==> err == Failure && swapChainSamples == old(swapChainSamples)
    {
      if mode == ModeNone {
        swapChainSamples := 1;
      } else if mode == ModeMSAA {
        swapChainSamples := samples;
      } else {
        return Failure;
      }
      return Success;
    }

    /** `_SetHDR`: accepted whatever the request; nothing changes. */
    method SetHDR(enable: bool) returns (err: Error)
      ensures err == Success
    {
      return Success;
    }
  }
}
