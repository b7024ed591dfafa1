/**
 * lib/common/src/GraphicsSettings.cc: the graphics settings singleton. Every static
 * function works on the one instance, modelled here as the receiver. The backend hooks
 * (`_SetMultiSampling`, `_SetHDR`, `_OnGfxSettingsChange`, `_GetAvailableMultisamplingOptions`)
 * are implemented by the graphics plugin; their results are parameters.
 */
module GraphicsSettings {
  import opened VenomError

  datatype ChangeState = Ended | Started

  /** `MultiSamplingModeOption`. */
  datatype MultiSamplingMode = NoMultiSampling | MSAA

  /** `MultiSamplingCountOption` values are their sample counts. */
  type SampleCount = samples: int | samples in {1, 2, 4, 8, 16, 32} witness 1

  /**
   * The number of debug visualisation modes: one per name the constructor lists
   * ("None", "Depth", "Normals", "ForwardPlus", "ShadowMapping").
   */
  const DebugVisualizationCount := 5

  /** A callback registered with `CallbackAfterDraws`, identified by the order of registration. */
  type Callback = nat

  /** `GraphicsSettingsData`, the block copied to the GPU. */
  datatype SettingsData = SettingsData(
    multisamplingMode: MultiSamplingMode,
    multisamplingSamples: int,
    hdrEnabled: bool,
    debugVisualizationMode: int,
    screenWidth: int,
    screenHeight: int,
    extentWidth: int,
    extentHeight: int)

  /** `std::find` over the options: the first index holding `x`, or the length when there is none. */
  function IndexOf(options: seq<int>, x: int): (r: nat)
    ensures r <= |options|
    ensures r < |options| ==> options[r] == x
    ensures forall k | 0 <= k < r :: options[k] != x
  {
    if options == [] then 0
    else if options[0] == x then 0
    else 1 + IndexOf(options[1..], x)
  }

  /** `x` is found exactly when it is one of the options. */
  lemma {:induction false} IndexOfFinds(options: seq<int>, x: int)
    ensures IndexOf(options, x) < |options| <==> x in options
  {
    if options != [] && options[0] != x {
      IndexOfFinds(options[1..], x);
      assert options == [options[0]] + options[1..];
    }
  }

  class Settings {
    var changeState: ChangeState
    var multisamplingDirty: bool
    var hdrDirty: bool
    var windowSizeDirty: bool
    var isHdrSupported: bool
    var changeQueued: bool
    var samplingMode: MultiSamplingMode
    var data: SettingsData
    var dataDirty: bool
    var constantsDirty: bool
    var availableMultisamplingOptions: seq<int>
    var callbacksAfterDraws: seq<Callback>

    /** The constructor: no change in progress, 4x MSAA in the data block, both blocks dirty. */
    constructor ()
      ensures changeState == Ended && !changeQueued
      ensures !multisamplingDirty && !hdrDirty && !windowSizeDirty && !isHdrSupported
      ensures samplingMode == NoMultiSampling
      ensures data.multisamplingMode == MSAA && data.multisamplingSamples == 4
      ensures !data.hdrEnabled && data.debugVisualizationMode == 0
      ensures dataDirty && constantsDirty
      ensures availableMultisamplingOptions == [] && callbacksAfterDraws == []
    {
      changeState := Ended;
      multisamplingDirty := false;
      hdrDirty := false;
      windowSizeDirty := false;
      isHdrSupported := false;
      changeQueued := false;
      samplingMode := NoMultiSampling;
      data := SettingsData(MSAA, 4, false, 0, 0, 0, 0, 0);
      dataDirty := true;
      constantsDirty := true;
      availableMultisamplingOptions := [];
      callbacksAfterDraws := [];
    }

    /**
     * `SetMultiSampling`: the new mode and count are recorded, and a reload queued when no
     * change is in progress, before the backend is called; a backend error becomes `Failure`
     * and undoes nothing.
     */
    method SetMultiSampling(mode: MultiSamplingMode, samples: SampleCount, backend: Error) returns (err: Error)
      modifies this`multisamplingDirty, this`data, this`samplingMode, this`dataDirty, this`changeQueued
      ensures multisamplingDirty && dataDirty
      ensures data == old(data).(multisamplingSamples := samples)
      ensures samplingMode == mode
      ensures changeQueued == (old(changeQueued) || changeState == Ended)
      ensures err == if backend == Success then Success else Failure
    {
      multisamplingDirty := true;
      data := data.(multisamplingSamples := samples);
      samplingMode := mode;
      dataDirty := true;
      if changeState == Ended {
        AddLoadToQueue();
      }
      if backend != Success {
        return Failure;
      }
      return Success;
    }

    /**
     * `SetHDR`: unsupported HDR, an unchanged value and a backend error all return before
     * any state changes; otherwise the value is stored, both dirty flags are raised and a
     * reload is queued when no change is in progress.
     */
    method SetHDR(enable: bool, backend: Error) returns (err: Error)
      modifies this`data, this`dataDirty, this`hdrDirty, this`changeQueued
      ensures !old(isHdrSupported) ==> err == FeatureNotSupported
      ensures old(isHdrSupported) && old(data.hdrEnabled) == enable ==> err == Success
      ensures old(isHdrSupported) && old(data.hdrEnabled) != enable ==> err == backend
      ensures err != Success || old(data.hdrEnabled) == enable ==>
        data == old(data) && dataDirty == old(dataDirty) && hdrDirty == old(hdrDirty) && changeQueued == old(changeQueued)
      ensures err == Success && old(data.hdrEnabled) != enable ==>
        data == old(data).(hdrEnabled := enable) && dataDirty && hdrDirty
        && changeQueued == (old(changeQueued) || changeState == Ended)
    {
      if !IsHDRSupported() {
        return FeatureNotSupported;
      }
      if IsHDREnabled() == enable {
        return Success;
      }
      err := backend;
      if err != Success {
        return err;
      }
      if changeState == Ended {
        AddLoadToQueue();
      }
      data := data.(hdrEnabled := enable);
      dataDirty := true;
      hdrDirty := true;
    }

    function IsHDREnabled(): (r: bool)
      reads this
      ensures r == data.hdrEnabled
    {
      data.hdrEnabled
    }

    function IsHDRSupported(): (r: bool)
      reads this
      ensures r == isHdrSupported
    {
      isHdrSupported
    }

    /** `__LoadGfxSettings`: the multisampling flag is cleared only when the backend succeeds. */
    method LoadGfxSettings(backend: Error) returns (err: Error)
      modifies this`multisamplingDirty
      ensures err == backend
      ensures multisamplingDirty == (old(multisamplingDirty) && backend != Success)
    {
      err := backend;
      if err != Success {
        return err;
      }
      multisamplingDirty := false;
    }

    method StartGfxSettingsChange()
      modifies this`changeState
      ensures changeState == Started
    {
      changeState := Started;
    }

    /** `EndGfxSettingsChange`: ends the change, dirties the data block and reloads. */
    method EndGfxSettingsChange(backend: Error) returns (err: Error)
      modifies this`changeState, this`dataDirty, this`multisamplingDirty
      ensures changeState == Ended && dataDirty
      ensures err == backend
      ensures multisamplingDirty == (old(multisamplingDirty) && backend != Success)
    {
      changeState := Ended;
      dataDirty := true;
      err := LoadGfxSettings(backend);
    }

    /**
     * `GetAvailableMultisamplingCountOptions`: the backend's list is fetched only while the
     * cache is empty, so an empty answer is asked for again on the next call.
     */
    method GetAvailableMultisamplingCountOptions(backendOptions: seq<int>) returns (options: seq<int>)
      modifies this`availableMultisamplingOptions
      ensures old(availableMultisamplingOptions) != [] ==> options == old(availableMultisamplingOptions)
      ensures old(availableMultisamplingOptions) == [] ==> options == backendOptions
      ensures availableMultisamplingOptions == options
    {
      if availableMultisamplingOptions == [] {
        availableMultisamplingOptions := backendOptions;
      }
      options := availableMultisamplingOptions;
    }

    /** `GetActiveMultisamplingCountIndex`: the active count's position, or the length when absent. */
    method GetActiveMultisamplingCountIndex(backendOptions: seq<int>) returns (index: nat)
      modifies this`availableMultisamplingOptions
      ensures availableMultisamplingOptions == (if old(availableMultisamplingOptions) == [] then backendOptions else old(availableMultisamplingOptions))
      ensures index <= |availableMultisamplingOptions|
      ensures index < |availableMultisamplingOptions| <==> data.multisamplingSamples in availableMultisamplingOptions
      ensures index < |availableMultisamplingOptions| ==> availableMultisamplingOptions[index] == data.multisamplingSamples
    {
      var options := GetAvailableMultisamplingCountOptions(backendOptions);
      index := IndexOf(options, data.multisamplingSamples);
      IndexOfFinds(options, data.multisamplingSamples);
    }

    /** `LaunchCallbacksAfterDraws`: every callback in registration order, then none are left. */
    method LaunchCallbacksAfterDraws() returns (launched: seq<Callback>)
      modifies this`callbacksAfterDraws
      ensures launched == old(callbacksAfterDraws)
      ensures callbacksAfterDraws == []
    {
      launched := [];
      var i := 0;
      while i < |callbacksAfterDraws|
        invariant 0 <= i <= |callbacksAfterDraws|
        invariant launched == callbacksAfterDraws[..i]
      {
        launched := launched + [callbacksAfterDraws[i]];
        i := i + 1;
      }
      assert callbacksAfterDraws[..i] == callbacksAfterDraws;
      callbacksAfterDraws := [];
    }

    /** `_IsGfxSettingsDataDirty`: returns the flag and clears it. */
    method IsGfxSettingsDataDirty() returns (dirty: bool)
      modifies this`dataDirty
      ensures dirty == old(dataDirty) && !dataDirty
    {
      dirty := dataDirty;
      dataDirty := false;
    }

    /** `_IsGfxConstantsDataDirty`: returns the flag and clears it. */
    method IsGfxConstantsDataDirty() returns (dirty: bool)
      modifies this`constantsDirty
      ensures dirty == old(constantsDirty) && !constantsDirty
    {
      dirty := constantsDirty;
      constantsDirty := false;
    }

    /** `SetDebugVisualizationMode`: the mode must be below `Count`; dirties only the constants. */
    method SetDebugVisualizationMode(mode: int)
      requires 0 <= mode < DebugVisualizationCount
      modifies this`data, this`constantsDirty
      ensures data == old(data).(debugVisualizationMode := mode) && constantsDirty
    {
      data := data.(debugVisualizationMode := mode);
      constantsDirty := true;
    }

    /** `SetWindowResolution`: dirties the data block, the constants and the window size. */
    method SetWindowResolution(width: int, height: int)
      modifies this`data, this`dataDirty, this`constantsDirty, this`windowSizeDirty
      ensures data == old(data).(screenWidth := width, screenHeight := height)
      ensures dataDirty && constantsDirty && windowSizeDirty
    {
      data := data.(screenWidth := width, screenHeight := height);
      dataDirty := true;
      constantsDirty := true;
      windowSizeDirty := true;
    }

    /** `SetWindowExtent`: the extent belongs to the graphics API, so only the constants are dirtied. */
    method SetWindowExtent(width: int, height: int)
      modifies this`data, this`constantsDirty
      ensures data == old(data).(extentWidth := width, extentHeight := height)
      ensures constantsDirty
    {
      data := data.(extentWidth := width, extentHeight := height);
      constantsDirty := true;
    }

    method ReloadGFXSettings()
      modifies this`changeQueued
      ensures changeQueued
    {
      AddLoadToQueue();
    }

    method CallbackAfterDraws(callback: Callback)
      modifies this`callbacksAfterDraws
      ensures callbacksAfterDraws == old(callbacksAfterDraws) + [callback]
    {
      callbacksAfterDraws := callbacksAfterDraws + [callback];
    }

    method AddLoadToQueue()
      modifies this`changeQueued
      ensures changeQueued
    {
      changeQueued := true;
    }
  }
}
