/**
 * lib/vulkan/src/VulkanApplicationInitializer.cc: choosing the physical device, checking
 * its features and deciding whether it is suitable. Vulkan queries are parameters holding
 * their answers.
 */
module VulkanInitializer {
  import opened VenomError

  /** What the selection and the checks read of a `PhysicalDevice`. */
  datatype PhysicalDevice = PhysicalDevice(tessellationShader: bool, deviceLocalVram: nat)

  /** Device `k` is the one selection keeps: a tessellation device with the most VRAM, the earliest of equals. */
  ghost predicate IsBest(devices: seq<PhysicalDevice>, n: nat, k: nat)
    requires n <= |devices|
  {
    && k < n
    && devices[k].tessellationShader
    && (forall j | 0 <= j < n && devices[j].tessellationShader :: devices[j].deviceLocalVram <= devices[k].deviceLocalVram)
    && (forall j | 0 <= j < k && devices[j].tessellationShader :: devices[j].deviceLocalVram < devices[k].deviceLocalVram)
  }

  /**
   * The GPU selection loop of `__InitRenderingPipeline`. `None` is the null device kept when
   * no device has tessellation shaders; an empty list is `InitializationFailed`.
   */
  method SelectPhysicalDevice(devices: seq<PhysicalDevice>) returns (err: Error, chosen: Option<nat>)
    ensures devices == [] <==> err == InitializationFailed
    ensures err != InitializationFailed ==> err == Success
    ensures chosen.None? <==> forall j | 0 <= j < |devices| :: !devices[j].tessellationShader
    ensures chosen.Some? ==> IsBest(devices, |devices|, chosen.value)
  {
    if devices == [] {
      return InitializationFailed, None;
    }
    chosen := None;
    var i := 0;
    while i < |devices|
      invariant 0 <= i <= |devices|
      invariant chosen.None? <==> forall j | 0 <= j < i :: !devices[j].tessellationShader
      invariant chosen.Some? ==> IsBest(devices, i, chosen.value)
    {
      if devices[i].tessellationShader {
        if chosen.None? || devices[chosen.value].deviceLocalVram < devices[i].deviceLocalVram {
          chosen := Some(i);
        }
      }
      i := i + 1;
    }
    err := Success;
  }

  /** Any two devices the selection could keep are the same one. */
  lemma BestIsUnique(devices: seq<PhysicalDevice>, a: nat, b: nat)
    requires IsBest(devices, |devices|, a) && IsBest(devices, |devices|, b)
    ensures a == b
  {
  }

  /** The descriptor-indexing features bindless textures need. */
  datatype IndexingFeatures = IndexingFeatures(descriptorBindingPartiallyBound: bool, runtimeDescriptorArray: bool)

  /**
   * The verdict of `__GetPhysicalDeviceFeatures`: whether every required feature is present,
   * and the recorded bindless support (`None` when bindless textures are not in use).
   */
  datatype FeatureVerdict = FeatureVerdict(supported: bool, bindlessSupported: Option<bool>)

  /**
   * `__GetPhysicalDeviceFeatures` as written: with bindless textures in use, the bindless
   * verdict overwrites the flag that a missing anisotropy had cleared.
   */
  function FeaturesAsWritten(supported: bool, samplerAnisotropy: bool, bindless: Option<IndexingFeatures>): (r: FeatureVerdict)
    ensures bindless.None? ==> r.supported == (supported && samplerAnisotropy)
    ensures bindless.Some? ==> r.supported == (bindless.value.descriptorBindingPartiallyBound && bindless.value.runtimeDescriptorArray)
  {
    var afterAnisotropy := if !samplerAnisotropy then false else supported;
    if bindless.Some? then
      var ok := bindless.value.descriptorBindingPartiallyBound && bindless.value.runtimeDescriptorArray;
      FeatureVerdict(ok, Some(ok))
    else FeatureVerdict(afterAnisotropy, None)
  }

  /** A device without anisotropic sampling but with the bindless features passes the check as written. */
  lemma MissingAnisotropyIgnoredAsWritten()
    ensures FeaturesAsWritten(true, false, Some(IndexingFeatures(true, true))).supported
  {
  }

  /** The check keeping both requirements. */
  function Features(supported: bool, samplerAnisotropy: bool, bindless: Option<IndexingFeatures>): (r: FeatureVerdict)
    ensures r.bindlessSupported.Some? <==> bindless.Some?
  {
    var afterAnisotropy := if !samplerAnisotropy then false else supported;
    if bindless.Some? then
      var ok := bindless.value.descriptorBindingPartiallyBound && bindless.value.runtimeDescriptorArray;
      FeatureVerdict(afterAnisotropy && ok, Some(ok))
    else FeatureVerdict(afterAnisotropy, None)
  }

  /** Missing anisotropy always fails initialisation; so do missing bindless features when they are in use. */
  lemma FeaturesRequireAnisotropy(supported: bool, samplerAnisotropy: bool, bindless: Option<IndexingFeatures>)
    ensures Features(supported, samplerAnisotropy, bindless).supported <==>
      supported && samplerAnisotropy
      && (bindless.Some? ==> bindless.value.descriptorBindingPartiallyBound && bindless.value.runtimeDescriptorArray)
  {
  }

  /**
   * `__IsDeviceSuitable`: every required extension is erased from a set as the available
   * ones are listed; the device is suitable when none is left and the swap chain found both
   * present modes and surface formats.
   */
  method IsDeviceSuitable(required: seq<string>, available: seq<string>, presentModeCount: nat, surfaceFormatCount: nat)
    returns (suitable: bool)
    ensures suitable <==> (forall e | e in required :: e in available) && presentModeCount > 0 && surfaceFormatCount > 0
  {
    var missing := set e | e in required;
    var i := 0;
    while i < |available|
      invariant 0 <= i <= |available|
      invariant missing == (set e | e in required) - (set e | e in available[..i])
    {
      assert available[..i + 1] == available[..i] + [available[i]];
      missing := missing - {available[i]};
      i := i + 1;
    }
    assert available[..i] == available;
    if missing != {} {
      return false;
    }
    assert forall e | e in required :: e in available by {
      forall e | e in required ensures e in available {
        assert e !in missing;
      }
    }
    if presentModeCount == 0 || surfaceFormatCount == 0 {
      return false;
    }
    return true;
  }
}
