# VenomEngine core, modelled in Dafny

This project models the parts of VenomEngine that decide things without drawing anything.
Each Dafny module follows one source file of the engine:

- **Shader build scripts.** The two Ruby scripts that collect, name and compile shaders.
  They are modelled as traces of the events they cause.
- **Shader resources.** The shader resource table's free lists of texture ids and
  model-matrix slots.
- **Deferred trash.** The bins that free GPU objects a few frames late.
- **Vulkan queues.** The queue-family scan and the queue manager that shares queues between
  graphics, compute, transfer and present work.
- **Render passes and shader pipelines.** The render-pass registry, and the shader pipeline's
  stage classification and loading loop.
- **Context.** The window context: screens, video modes, refresh rates, key and mouse
  tables, and the GLFW key-code translation.
- **Materials and models.** Material components with their value-type bit mask and channels,
  and the classification of assimp material properties.
- **Settings.** The graphics settings singleton and the Vulkan-side multisampling options.
  Also the engine's light and shadow-map budgets.
- **Vulkan objects.** The swap chain's format, mode, extent and image-count choices, physical
  device selection and suitability, framebuffers, buffers, and the device-local memory and
  format queries.
- **Loading.** Shared-library loading and its cache, and the texture loader dispatch and
  save-path fix.

Calls into Vulkan, GLFW, assimp, the file system or the dynamic loader are not modelled.
Each becomes a parameter that holds its result. An object whose methods update its fields is
a Dafny `class`. Pure mapping code is a set of functions with lemmas about them.

Where verification showed a defect in the source, the model keeps two members. One follows
the code as written and comes with a lemma that exhibits the defect. The other is corrected,
has the intended property proved, and is the one the rest of the model uses. The defects are
listed under "## Findings".

## Model

| member | source | states |
|---|---|---|
| CompileShaders.WithoutOld | resources/compile_shaders.rb:25-27 | The filtered list keeps exactly the paths that do not contain "old/", and no others. |
| CompileShaders.WithoutOldAppend | resources/compile_shaders.rb:25-27 | Filtering keeps the order: filtering a concatenation concatenates the filtered parts. |
| CompileShaders.CompileDebug | resources/compile_shaders.rb:120-128 | The `compile_debug` loop produces the trace of its per-file steps: announce, then run dxc with the stage's profile. What that trace runs is stated by `DebugCompilesUpToFirstUnknownStage`. |
| CompileShaders.DebugCompilesUpToFirstUnknownStage | resources/compile_shaders.rb:120-128 | dxc runs once per file, in file order, with each file's own profile and output, for every file before the first unknown stage. That file's raise ends the run. When every stage is known, every file is compiled and nothing raises. |
| CompileShaders.CompileMsl | resources/compile_shaders.rb:129-140 | The `compile_msl` loop produces the trace of its per-file steps. What that trace runs is stated by `MslCompilesEveryFileTwice` and `MetalOutputsNamed`. |
| CompileShaders.MslCompilesEveryFileTwice | resources/compile_shaders.rb:129-140 | The run starts exactly two commands per Metal source, in file order: the macOS compilation into its output, then the iOS one into its iOS output. Nothing raises. |
| CompileShaders.MetalOutputsNamed | resources/compile_shaders.rb:132-133 | Both outputs of a Metal source lie in the Metal directory. The macOS one ends in `.metallib` and the iOS one in `_ios.metallib`. |
| CompileShaders.OutputNamed | resources/compile_shaders.rb:29-59 | Every output name starts with the output directory and a '/', and ends with the requested extension. |
| CompileShaders.CompileGlslDebug | resources/compile_shaders.rb:142-148 | The first `compile_glsl` loop produces the trace of its per-file steps. What that trace runs is stated by `GlslDebugCompilesEveryFile`. |
| CompileShaders.GlslDebugCompilesEveryFile | resources/compile_shaders.rb:142-148 | glslangValidator runs exactly once per GLSL file, in file order, with that file's debug output. Nothing raises or exits, so the release loop is always reached. |
| CompileShaders.CompileGlslRelease | resources/compile_shaders.rb:149-156 | The release loop compiles each file with glslc using the file's stage, up to the first file whose stage is unknown. |
| CompileShaders.Run | resources/compile_shaders.rb:16-160 | The whole script: create the debug directory, look for a dxc folder (stopping when there is none), then dispatch on the verb. |
| CompileShaders.Dispatch | resources/compile_shaders.rb:105-160 | `clean` removes the debug directory. `compile_debug`, `compile_msl`, and `compile_glsl`/`compile` run their loops. Anything else prints the usage line and exits. |
| CompileShaders.SubPathOfRooted | resources/compile_shaders.rb:33-41 | Removing the family root from a path that starts with it leaves the rest of the path. |
| CompileShaders.NestedSubPathSplit | resources/compile_shaders.rb:43-44 | A sub-path with two or more '/' has its first directory as the second '/'-field. |
| CompileShaders.NestedOutputKeepsFirstDirectory | resources/compile_shaders.rb:43-51 | A source nested two or more levels deep has its output in `dir/<first directory>`, which is created. Deeper levels are flattened. |
| CompileShaders.FlatOutputInOutputDir | resources/compile_shaders.rb:52-57 | A source directly under its root is written directly into the output directory, and no directory is created. |
| CompileShaders.LeafKeepsTwoFields | resources/compile_shaders.rb:30-56 | HLSL and GLSL output names are the first two dot-fields plus the extension. Later fields are lost. |
| CompileShaders.MetalLeafDropsStage | resources/compile_shaders.rb:47-54 | Metal output names keep only the first dot-field, so the stage token is dropped. |
| CompileShaders.StageTokenIsSecondToLast | resources/compile_shaders.rb:75-76 | The stage token is the second-to-last dot-field of the basename. |
| CompileShaders.StageTokenOfSingleDot | resources/compile_shaders.rb:75-76 | With a single dot, the stage token is the name in front of it. |
| CompileShaders.HlslProfileMeaning | resources/compile_shaders.rb:77-86 | The profile follows the first group whose substrings occur: vs/vert, then ps/pixel/frag/fs, then cs/comp. Otherwise the stage is unknown. `/vertex/` and `/compute/` never decide anything. |
| CompileShaders.DxcCheckPrecedesEveryVerb | resources/compile_shaders.rb:61-70 | Without either dxc folder, the script stops before looking at its verb, even for `clean`. |
| CompileShaders.CompileIsCompileGlsl | resources/compile_shaders.rb:141 | `compile` and `compile_glsl` behave identically. |
| CompileShaders.UnknownVerbPrintsUsage | resources/compile_shaders.rb:157-159 | Any other verb, or none, prints the usage line and exits without compiling anything. |
| CompileShaders.ReleaseStepExecs | resources/compile_shaders.rb:150-155 | One release iteration starts exactly one command when the stage is known. Otherwise it raises and starts none. |
| CompileShaders.ReleaseStopsAtFirstUnknownStage | resources/compile_shaders.rb:89-156 | An unknown GLSL stage is not rescued. The run ends with that raise, and only the files before it are compiled in release mode. |
| CompileShaders.ReleaseCompilesEveryKnownStage | resources/compile_shaders.rb:150-156 | When every stage is known, every file is compiled once in release mode and nothing raises. |
| LegacyCompileShaders.Glob | assets/shaders/compile_shaders.rb:12 | The glob yields at most one path per directory entry. Each path starts with the HLSL directory and a '/', and ends in `.hlsl`. |
| LegacyCompileShaders.GlobExactly | assets/shaders/compile_shaders.rb:12 | The glob collects exactly the visible top-level `.hlsl` entries. |
| LegacyCompileShaders.OnlyTopLevel | assets/shaders/compile_shaders.rb:12 | Every collected file is a top-level `.hlsl` entry. Nothing in a sub-directory is collected. |
| LegacyCompileShaders.FirstMatch | assets/shaders/compile_shaders.rb:16-28 | The `case` picks the index of a pattern that occurs in the name. |
| LegacyCompileShaders.FirstMatchIsFirst | assets/shaders/compile_shaders.rb:16-28 | The chosen pattern is the first one that occurs, and no pattern occurs when none is chosen. |
| LegacyCompileShaders.ShaderTypeIsFirstMatch | assets/shaders/compile_shaders.rb:15-29 | `shader_type` evaluates the first matching `when`. No match raises. |
| LegacyCompileShaders.ShaderTypeRaises | assets/shaders/compile_shaders.rb:16-28 | A name matching none of the six patterns raises. A name containing `vs_` hits an empty `when` and gets a nil profile. |
| LegacyCompileShaders.BasenameWithout | assets/shaders/compile_shaders.rb:39 | `File.basename(file, '.hlsl')` is never longer than the basename. |
| LegacyCompileShaders.OutputFileOfGlobbed | assets/shaders/compile_shaders.rb:39 | A collected `dir/stem.hlsl` compiles to `compiled/stem.spv`. |
| LegacyCompileShaders.Compile | assets/shaders/compile_shaders.rb:38-44 | The compile loop produces the trace of its per-file steps, up to the first unknown shader type. |
| LegacyCompileShaders.Run | assets/shaders/compile_shaders.rb:8-48 | The whole script: create the compiled directory, then `clean`, `compile`, or print usage and exit. |
| LegacyCompileShaders.CompileStopsAtUnknown | assets/shaders/compile_shaders.rb:38-44 | The first file matching no pattern ends the run with its exception. Exactly the files before it were compiled. |
| LegacyCompileShaders.MakeDirFirst | assets/shaders/compile_shaders.rb:9-47 | The compiled directory is created first whatever the verb. An unknown verb prints usage and exits. |
| ShaderResourceTable.AcquireRunTakesFromTop | lib/common/src/ShaderResourceTable.cc:93-99 | `k` successive pops hand out the top `k` ids, top first, and leave the bottom of the stack unchanged. |
| ShaderResourceTable.FreshHandsOutAscending | lib/common/src/ShaderResourceTable.cc:24-38 | A freshly filled stack hands out 0, 1, 2, … in ascending order. |
| ShaderResourceTable.ReleasedComeBackFirst | lib/common/src/ShaderResourceTable.cc:101-104 | Released ids come back last-in first-out, before any id that was already free. |
| ShaderResourceTable.DoubleReleaseHandsOutTwice | lib/common/src/ShaderResourceTable.cc:101-104 | Nothing stops an id from being released twice, and it is then handed out twice. |
| ShaderResourceTable.ModelMatrixManager.constructor | lib/common/src/ShaderResourceTable.cc:24-29 | The free stack holds every entity id, with 0 on top. |
| ShaderResourceTable.ModelMatrixManager.GetModelMatrixBuffer | lib/common/src/ShaderResourceTable.cc:31-38 | On a non-empty stack, returns the top id, which lies in range, and pops it. |
| ShaderResourceTable.ModelMatrixManager.ReleaseModelMatrixBuffer | lib/common/src/ShaderResourceTable.cc:40-45 | Pushes the released id. |
| ShaderResourceTable.ToInt32 | lib/common/src/ShaderResourceTable.cc:109-133 | Converting a 32-bit unsigned value to `int` gives the same value, or that value minus 2^32. |
| ShaderResourceTable.PredUint32 | lib/common/src/ShaderResourceTable.cc:109 | `maxTextures - 1` in `uint32_t` stays below 2^32 and is the predecessor of any positive value. |
| ShaderResourceTable.AsWrittenUpToTwoTo31 | lib/common/src/ShaderResourceTable.cc:106-112 | Up to and including 2^31, the as-written loop frees exactly the ids 0 … maxTextures - 1. |
| ShaderResourceTable.AsWrittenLosesLargeLimits | lib/common/src/ShaderResourceTable.cc:109 | A limit of more than 2^31 becomes a negative start index, so no texture id is free at all. |
| ShaderResourceTable.TextureIdManager.GetTextureId | lib/common/src/ShaderResourceTable.cc:93-99 | On a non-empty stack, returns the top id and pops it. |
| ShaderResourceTable.TextureIdManager.ReleaseTexture | lib/common/src/ShaderResourceTable.cc:101-127 | Pushes the released id. |
| ShaderResourceTable.TextureIdManager.SetMaxTexturesAsWritten | lib/common/src/ShaderResourceTable.cc:106-134 | As written, the free stack is rebuilt from a signed start index, and the limit is stored as an `int`. |
| ShaderResourceTable.TextureIdManager.SetMaxTextures | lib/common/src/ShaderResourceTable.cc:106-134 | Corrected: the free stack holds exactly 0 … limit - 1, with 0 on top, and the limit is stored. |
| ShaderResourceTable.SetMaxTexturesExactly | lib/common/src/ShaderResourceTable.cc:106-112 | After `SetMaxTextures`, the free ids are exactly 0 … limit - 1, with 0 on top. |
| DeferredTrash.FreedCopiesAppend | lib/common/src/DeferredTrash.cc:31-41 | Destructor calls to one object add up over a concatenation of call lists. |
| DeferredTrash.EmptyConserves | lib/common/src/DeferredTrash.cc:31-41 | One empty, on in-range counters, either destroys or keeps each block, never both: every object is destroyed or kept exactly as often as the bin holds it. |
| DeferredTrash.EmptyConservesCount | lib/common/src/DeferredTrash.cc:31-41 | The blocks one empty destroys and the ones it keeps add up to the blocks the bin held. |
| DeferredTrash.EmptyAppend | lib/common/src/DeferredTrash.cc:33-40 | Blocks are emptied independently: emptying a concatenation destroys and keeps what emptying each part does, in order. |
| DeferredTrash.SurvivorsKeepOrder | lib/common/src/DeferredTrash.cc:38-40 | The kept blocks are the ones whose counter was not 0, in their order, each with its counter one lower. |
| DeferredTrash.SurvivorsInRange | lib/common/src/DeferredTrash.cc:38-40 | After an empty, every kept counter lies between 0 and `VENOM_MAX_FRAMES_IN_FLIGHT` - 1. |
| DeferredTrash.EmptiesOfEmpty | lib/common/src/DeferredTrash.cc:31-41 | Emptying an empty bin any number of times destroys nothing. |
| DeferredTrash.BlockLife | lib/common/src/DeferredTrash.cc:31-41 | A block with counter `c` survives `c` empties, its counter falling by one each time, and is destroyed and removed by the next. |
| DeferredTrash.FreedOnFourthEmpty | lib/common/src/DeferredTrash.cc:31-41 | A block added to the bin survives three empties and is destroyed by the fourth. |
| DeferredTrash.EmptiesAppendLeft | lib/common/src/DeferredTrash.cc:31-41 | After `n` empties, a concatenated bin holds what its two parts would hold after `n` empties each. |
| DeferredTrash.EmptiesAppendFreed | lib/common/src/DeferredTrash.cc:31-41 | After `n` empties, each object was destroyed as often as in the two parts emptied apart. |
| DeferredTrash.AllFreedAppend | lib/common/src/DeferredTrash.cc:22-29 | Destroying a concatenated bin destroys both parts, in order. |
| DeferredTrash.AllFreedOnce | lib/common/src/DeferredTrash.cc:22-29 | Destroying the bin destroys each remaining object exactly as often as the bin holds it. |
| DeferredTrash.TrashRuntime.constructor | lib/common/src/DeferredTrash.cc:15 | Before any bin exists, the instance is null and nothing is held or destroyed. |
| DeferredTrash.TrashRuntime.CreateBin | lib/common/src/DeferredTrash.cc:17-20 | A new, empty bin becomes the instance. |
| DeferredTrash.TrashRuntime.AddDeferredTrash | lib/common/include/venom/common/DeferredTrash.h:32-41 | Null is ignored. With a bin, the pointer is appended with counter `VENOM_MAX_FRAMES_IN_FLIGHT` and `delete`. Without one, it is deleted at once. |
| DeferredTrash.TrashRuntime.AddDeferredTrashWith | lib/common/include/venom/common/DeferredTrash.h:42-51 | As above with the caller's destructor, which is used only when the pointer goes to the bin. Without a bin the pointer is `delete`d. |
| DeferredTrash.TrashRuntime.EmptyDeferredTrash | lib/common/src/DeferredTrash.cc:31-41 | The blocks at 0 are destroyed in order, and the bin keeps the rest with decremented counters. |
| DeferredTrash.TrashRuntime.DestroyBin | lib/common/src/DeferredTrash.cc:22-29 | The instance becomes null, and every remaining block is destroyed in order with its own destructor. |
| DeferredTrash.DeferredPtr.constructor | lib/common/include/venom/common/DeferredTrash.h:64-67 | The wrapper holds the given pointer. |
| DeferredTrash.DeferredPtr.Reset | lib/common/include/venom/common/DeferredTrash.h:77-80 | The held pointer goes to the bin, as `AddDeferredTrash` would send it, and then the new one is held. |
| DeferredTrash.DeferredPtr.Drop | lib/common/include/venom/common/DeferredTrash.h:68-71 | The held pointer goes to the bin, as `AddDeferredTrash` would send it. |
| QueueFamily.WhereExactly | lib/vulkan/src/QueueFamily.cc:27-49 | The scan lists exactly the indices at which the flag holds, once each, in ascending order. |
| QueueFamily.FirstFailure | lib/vulkan/src/QueueFamily.cc:72-77 | The scan stops at the first family whose support query failed. Every family before it was answered. |
| QueueFamily.MappedQueueFamilies.constructor | lib/vulkan/src/QueueFamily.cc:24-50 | The families are kept. Each capability list holds exactly the indices of the families with that bit, in ascending order. The present list starts empty. |
| QueueFamily.MappedQueueFamilies.SetPresentQueueFamilyIndices | lib/vulkan/src/QueueFamily.cc:70-83 | The present list gains the families that can present, in order, up to the first failed query. That failure gives `InitializationFailed`, otherwise the result is `Success`. |
| QueueFamily.CapabilityListExactly | lib/vulkan/src/QueueFamily.cc:27-49 | Family `i` is in a capability's list if and only if its flags have that bit. The list ascends. |
| QueueFamily.PresentListExactly | lib/vulkan/src/QueueFamily.cc:72-81 | When no query fails, the present list is exactly the families that can present, in ascending order. |
| QueueManager.NoMoreThanMeans | lib/vulkan/src/QueueManager.cc:237-243 | The requests-never-grow relation holds exactly when no feature's count grows. |
| QueueManager.Granted | lib/vulkan/src/QueueManager.cc:237-245 | A feature gets no queue if it asks for none, if the family is not in its list, or if the family is full. Otherwise it gets what it asks for, up to what the family has left. |
| QueueManager.OfferSpec | lib/vulkan/src/QueueManager.cc:233-254 | `__TryAddQueueCreateInfo`: the request drops by the number granted, and the priorities gain that many copies of the feature's priority. The queue gets the family and the count before the grant. Nothing changes without a grant. |
| QueueManager.OfferConserves | lib/vulkan/src/QueueManager.cc:241-243 | A grant moves queues from the request into the family, so the total is conserved and no request grows. |
| QueueManager.OffersConserve | lib/vulkan/src/QueueManager.cc:125-145 | Over one family's offers to all features, the family gains exactly what the requests lose, every queue has a priority, and no request grows. |
| QueueManager.AllocateWithinMaxima | lib/vulkan/src/QueueManager.cc:115-146 | After the pass, family `i`'s create info names family `i`, holds no more queues than the family offers, and has one priority per queue. |
| QueueManager.AllocateConserves | lib/vulkan/src/QueueManager.cc:115-146 | The queues created plus those still requested add up to the original requests. No feature gets more queues than its settings asked for. |
| QueueManager.KeepNonEmpty | lib/vulkan/src/QueueManager.cc:147 | The create infos kept are exactly those with at least one queue. |
| QueueManager.PassLeavesNoEmptyInfo | lib/vulkan/src/QueueManager.cc:115-147 | Every create info left has at least one queue and at most its family's maximum. |
| QueueManager.SharingFromExclusive | lib/vulkan/src/QueueManager.cc:55-101 | From exclusive modes, graphics/compute turns concurrent when those families differ, and graphics/transfer when those differ. Graphics/compute/transfer turns concurrent only when graphics differs from both. |
| QueueManager.QueueManager.constructor | lib/vulkan/src/QueueManager.cc:21-60 | Every queue is unassigned, every sharing mode is exclusive, and there are no create infos. |
| QueueManager.QueueManager.SetQueueManagerSettings | lib/vulkan/src/QueueManager.cc:105-108 | The requested counts and priorities become the settings. |
| QueueManager.QueueManager.TryAddQueueCreateInfo | lib/vulkan/src/QueueManager.cc:233-254 | The method's effect is exactly `Offer` on the family's slot and the features' state. |
| QueueManager.QueueManager.SetLogicalDeviceQueueCreateInfos | lib/vulkan/src/QueueManager.cc:110-151 | The create infos are the pass's non-empty infos, and the requests and queues are the pass's result. Nothing else changes, and the result is `Success`. |
| QueueManager.QueueManager.OfferFamilies | lib/vulkan/src/QueueManager.cc:123-146 | The family loop computes exactly `Pass`. |
| QueueManager.QueueManager.OfferFamily | lib/vulkan/src/QueueManager.cc:125-145 | One iteration makes the offers in the source's order: graphics, compute, present, transfer, sparse binding, protected, video decode, video encode. |
| QueueManager.QueueManager.Init | lib/vulkan/src/QueueManager.cc:38-103 | Exactly the assigned queues are fetched, and the sharing modes follow `InitSharing`. The result is `Success`. |
| RenderPasses.ClaimsOfEachType | lib/common/src/RenderPass.cc:65-96 | A PBR model pass claims the PBR model, reflection and both additive-lighting slots. Skybox, GUI, shadow-mapping and 3D-text passes claim their own slot. Any other type claims nothing. |
| RenderPasses.Claim | lib/common/src/RenderPass.cc:65-96 | Every claimed slot names the pass. Every other slot is unchanged. |
| RenderPasses.Release | lib/common/src/RenderPass.cc:26-32 | Exactly the slots naming the pass are emptied, and the others are kept. |
| RenderPasses.ReleaseUndoesClaim | lib/common/src/RenderPass.cc:24-96 | Destroying a pass that claimed a type's slots empties exactly those slots and leaves the rest as they were. |
| RenderPasses.RenderPass.constructor | lib/common/src/RenderPass.cc:19-22 | A new pass has type `None`. |
| RenderPasses.Registry.constructor | lib/common/src/RenderPass.cc:17 | Every slot starts null. |
| RenderPasses.Registry.SetRenderingType | lib/common/src/RenderPass.cc:65-97 | The pass takes the type and claims that type's slots. |
| RenderPasses.Registry.Destroy | lib/common/src/RenderPass.cc:24-33 | A pass of type `None` changes nothing. Otherwise every slot naming it is nulled. |
| RenderPasses.Registry.GetRenderPass | lib/common/src/RenderPass.cc:99-103 | For a real type, returns the slot's pass, or null when the slot is empty. |
| RenderPasses.Registry.MoveAssignAsWritten | lib/common/src/RenderPass.cc:43-52 | As written, the target takes the source's type and only the one slot of that type. The source's type becomes `None`. |
| RenderPasses.Registry.MoveAssign | lib/common/src/RenderPass.cc:43-52 | Corrected: the target takes the source's type and every slot that type claims. |
| RenderPasses.MoveAsWrittenLeavesStaleSlot | lib/common/src/RenderPass.cc:43-52 | After moving a registered PBR model pass as written, the reflection slot still names the moved-from pass. |
| RenderPasses.MoveLeavesNoStaleSlot | lib/common/src/RenderPass.cc:43-52 | After the corrected move, no slot names the moved-from pass. |
| ShaderPipeline.StageOfIsFirstMatch | lib/vulkan/src/ShaderPipeline.cc:547-563 | A path's stage is the first group, in the source's order, with a token the path contains. A path containing no token has no stage. |
| ShaderPipeline.TokensOfVertex | lib/vulkan/src/ShaderPipeline.cc:547 | The vertex group is "vert", "vertex" or "vs". |
| ShaderPipeline.TokensOfFragment | lib/vulkan/src/ShaderPipeline.cc:549 | The fragment group is "frag", "fs", "pixel" or "ps". |
| ShaderPipeline.TokensOfCompute | lib/vulkan/src/ShaderPipeline.cc:551 | The compute group is "comp", "cs" or "compute". |
| ShaderPipeline.LongTokensNeverDecide | lib/vulkan/src/ShaderPipeline.cc:547-551 | "vertex" contains "vert", and "compute" contains "comp", so the longer tokens never decide anything. |
| ShaderPipeline.DirectoryNameDecides | lib/vulkan/src/ShaderPipeline.cc:547-563 | The whole path is searched, so a directory named after a stage decides the stage of every file in it. |
| ShaderPipeline.OpenedStagesAllLoad | lib/vulkan/src/ShaderPipeline.cc:195-202 | When every shader loads, stage `i` is the stage of path `i`. |
| ShaderPipeline.NoDuplicateAtMostSix | lib/vulkan/src/ShaderPipeline.cc:204-216 | A pipeline that passes the duplicate check has at most six shaders, one per stage. |
| ShaderPipeline.VkFormatMatchesShape | lib/vulkan/src/ShaderPipeline.cc:424-461 | Every vertex format maps to a defined format of one to four components. `MatN` maps to the format of `VecN`. The signed-integer format is chosen exactly for `Int` and `IVecN`, and the unsigned one exactly for `Uint` and `UVecN`. |
| ShaderPipeline.VectorFormatsAreDistinct | lib/vulkan/src/ShaderPipeline.cc:424-461 | Two different non-matrix vertex formats never map to the same format. |
| ShaderPipeline.MatchingExactly | lib/vulkan/src/ShaderPipeline.cc:130-149 | The paths collected are exactly those of regular `.spv` files whose stem, relative to the folder, is the requested name. |
| ShaderPipeline.ShaderPipeline.constructor | lib/vulkan/src/ShaderPipeline.cc:26-79 | A new pipeline has no shaders, is a graphics pipeline, is dirty, has line width 1, the active sample count, and depth test and write enabled. |
| ShaderPipeline.ShaderPipeline.SetRenderingPipelineType | lib/common/include/venom/common/plugin/graphics/ShaderPipeline.h:100 | The rendering type is set. |
| ShaderPipeline.ShaderPipeline.SetLineWidth | lib/vulkan/src/ShaderPipeline.cc:162-167 | The width is stored. The pipeline becomes dirty exactly when the width changed. |
| ShaderPipeline.ShaderPipeline.SetMultiSamplingCount | lib/vulkan/src/ShaderPipeline.cc:169-174 | The count is stored. The pipeline becomes dirty exactly when it changed. |
| ShaderPipeline.ShaderPipeline.SetDepthTest | lib/vulkan/src/ShaderPipeline.cc:176-181 | The flag is stored. The pipeline becomes dirty exactly when it changed. |
| ShaderPipeline.ShaderPipeline.SetDepthWrite | lib/vulkan/src/ShaderPipeline.cc:183-188 | The flag is stored. The pipeline becomes dirty exactly when it changed. |
| ShaderPipeline.ShaderPipeline.AddVertexBufferToLayout | lib/vulkan/src/ShaderPipeline.cc:464-479 | One binding and one attribute are appended, the attribute with the format of its vertex format. |
| ShaderPipeline.ShaderPipeline.LoadShader | lib/vulkan/src/ShaderPipeline.cc:481-565 | Succeeds exactly when the file opens and its path names a stage. A compute stage makes the pipeline a compute pipeline. |
| ShaderPipeline.ShaderPipeline.FindDuplicate | lib/vulkan/src/ShaderPipeline.cc:204-216 | The nested loops find a duplicate exactly when two stages coincide. |
| ShaderPipeline.ShaderPipeline.LoadInOrder | lib/vulkan/src/ShaderPipeline.cc:194-202 | The stages are those of the paths up to the first failure, and the rest are blank. It succeeds exactly when all load. |
| ShaderPipeline.ShaderPipeline.OpenShaders | lib/vulkan/src/ShaderPipeline.cc:190-220 | Succeeds exactly when every shader loads and no stage repeats. Success marks the pipeline dirty. |
| ShaderPipeline.ShaderPipeline.ReloadShader | lib/vulkan/src/ShaderPipeline.cc:382-421 | Nothing happens when clean or without stages. Otherwise it succeeds exactly when the layout, the pipeline and, for the BRDF LUT, the command buffer are created, and success clears the dirty flag. |
| ShaderPipeline.ShaderPipeline.LoadShaders | lib/vulkan/src/ShaderPipeline.cc:567-571 | Opens then reloads. Success means every shader loaded, no stage repeats and the pipeline is clean. |
| ShaderPipeline.ShaderPipeline.CollectShaderPaths | lib/vulkan/src/ShaderPipeline.cc:127-149 | The matching paths are appended in directory order. |
| ShaderPipeline.ShaderPipeline.LoadShaderByName | lib/vulkan/src/ShaderPipeline.cc:125-160 | Collects the paths. With none it fails and loads nothing. Otherwise it loads them. |
| ContextInput.AlphanumericKeysRoundTrip | lib/common/src/ContextInput.cc:19-190 | Every letter and digit key converts to its GLFW code and back to itself. |
| ContextInput.NavigationKeysRoundTrip | lib/common/src/ContextInput.cc:57-211 | Every editing, navigation and lock key converts to its GLFW code and back to itself. |
| ContextInput.FunctionKeyKeysRoundTrip | lib/common/src/ContextInput.cc:78-237 | Every function key F1 to F25 converts to its GLFW code and back to itself. |
| ContextInput.KeypadModifierKeysRoundTrip | lib/common/src/ContextInput.cc:104-265 | Every keypad, modifier and menu key converts to its GLFW code and back to itself. |
| ContextInput.PunctuationKeysRoundTrip | lib/common/src/ContextInput.cc:132-280 | Space, punctuation and the two international keys convert to their GLFW codes and back to themselves. |
| ContextInput.KeyRoundTrip | lib/common/src/ContextInput.cc:15-284 | Every key except `KeyboardUnknown` survives the trip to GLFW and back. |
| ContextInput.PrintableCodesRoundTrip | lib/common/src/ContextInput.cc:181-277 | A space, punctuation or digit code that names a key converts back from that key. |
| ContextInput.LetterCodesRoundTrip | lib/common/src/ContextInput.cc:154-179 | A letter code converts back from its key. |
| ContextInput.SymbolCodesRoundTrip | lib/common/src/ContextInput.cc:275-280 | A bracket, backslash, grave-accent or international code that names a key converts back from that key. |
| ContextInput.NavigationCodesRoundTrip | lib/common/src/ContextInput.cc:192-211 | An editing, navigation or lock code that names a key converts back from that key. |
| ContextInput.FunctionKeyCodesRoundTrip | lib/common/src/ContextInput.cc:213-237 | A function-key code converts back from its key. |
| ContextInput.KeypadModifierCodesRoundTrip | lib/common/src/ContextInput.cc:239-265 | A keypad, modifier or menu code that names a key converts back from that key. |
| ContextInput.CodeRoundTrip | lib/common/src/ContextInput.cc:151-284 | Every GLFW code that converts to a key converts back to the same code. |
| ContextInput.KeyToGlfwInjective | lib/common/src/ContextInput.cc:15-149 | No two keys share a GLFW code. |
| ContextInput.UnmappedKeys | lib/common/src/ContextInput.cc:147 | Exactly the values outside the enumeration, `KeyboardUnknown` included, become `GLFW_KEY_UNKNOWN`. |
| ContextInput.UnmappedCodes | lib/common/src/ContextInput.cc:282 | Exactly the codes that no key converts to become `KeyboardUnknown`. |
| Sorting.InsertBy | lib/common/src/Context.cc:43-90 | Inserting an element adds exactly that element to the multiset. |
| Sorting.SortBy | lib/common/src/Context.cc:43-90 | Sorting permutes its input. |
| Sorting.InsertByKeepsSorted | lib/common/src/Context.cc:43-90 | Under a strict weak ordering, inserting into a sorted sequence keeps it sorted. |
| Sorting.SortBySorts | lib/common/src/Context.cc:43-90 | Under a strict weak ordering, the result is sorted and is a permutation of the input, which is what `std::sort` promises. |
| Context.FindMode | lib/common/src/Context.cc:56-77 | `std::find` with size equality returns the first mode of that size, or none when no mode has it. |
| Context.WithVideoMode | lib/common/src/Context.cc:74-83 | A mode is appended exactly when no mode of that size exists. |
| Context.AddVideoModeRecordsRate | lib/common/src/Context.cc:74-83 | Sizes stay unique. The mode of that size gains the rate after its earlier rates, and every other mode is unchanged. |
| Context.ComparatorsAreStrictWeakOrders | lib/common/src/Context.cc:43-90 | Both comparators, wider-then-taller and `std::greater<int>`, are strict weak orderings, as `std::sort` requires. |
| Context.WithRatesSorted | lib/common/src/Context.cc:41-93 | Each mode keeps its size and only reorders its rates. |
| Context.SortVideoModesOrdersSizes | lib/common/src/Context.cc:85-90 | After sorting, modes run from the widest down, and the tallest comes first among equally wide ones. |
| Context.SortVideoModesSortsRates | lib/common/src/Context.cc:41-93 | After sorting, each mode's rates run from the highest down. Each mode is an input mode of the same size, with its rates only reordered. |
| Context.Screen.constructor | lib/common/src/Context.cc:66-68 | A new screen has no modes. |
| Context.Screen.AddVideoMode | lib/common/src/Context.cc:74-83 | The modes become `WithVideoMode` of the old modes. |
| Context.Screen.SortVideoModes | lib/common/src/Context.cc:85-94 | The modes become the sorted modes, with sorted rates. |
| Context.ChangeVideoModeStatus | lib/common/src/Context.cc:177-185 | A negative index is an invalid argument. A current screen out of range is an out-of-range read. An index past the screen's modes is an invalid argument. Otherwise the backend's result is returned. |
| Context.ChangeScreenStatus | lib/common/src/Context.cc:187-195 | An index outside the screens is an invalid argument. The kept video-mode index may read past the new screen's modes. Otherwise the backend's result is returned. |
| Context.ChangeScreenKeepsStaleModeIndex | lib/common/src/Context.cc:181-193 | Choosing mode 1 on a two-mode screen and then switching to a one-mode screen reads out of range. |
| Context.Context.constructor | lib/common/src/Context.cc:96-120 | Every key and button state is unknown. Modifiers are 0, the positions are 0, the window is not closing, indices are 0, it is not fullscreen, and the scale is 1. |
| Context.Context.ChangeRefreshRate | lib/common/src/Context.cc:160-175 | A negative rate, or one the current mode does not list, is an invalid argument and changes nothing. A listed rate is taken with the mode's size. |
| Context.Context.ChangeVideoMode | lib/common/src/Context.cc:177-185 | The result is `ChangeVideoModeStatus`. A valid index becomes current, with its mode's size. Otherwise nothing changes. |
| Context.Context.ChangeScreen | lib/common/src/Context.cc:187-195 | The result is `ChangeScreenStatus`. A valid index becomes current, and the size is read from the kept mode index. |
| Context.Context.ResetReleasedKeys | lib/common/src/Context.cc:200-203 | The released-key stack is emptied, and exactly the keys on it become unknown. |
| Context.TopmostUnbacked | lib/common/include/venom/common/plugin/context/Context.h:77-85 | Finds the topmost released button that has no entry in the 3-entry `__mouseState`, because `MouseTotal` comes right after `MouseButtonMiddle`. Every button above it has an entry. |
| Context.SideButtonHasNoState | lib/common/include/venom/common/plugin/context/Context.h:77-85 | A released `MouseButton4` (value 3) has no state entry. Left, right and middle buttons do. |
| Context.Context.ResetReleasedButtons | lib/common/src/Context.cc:204-207 | Buttons are popped from the top, and exactly the popped ones become unknown. The stack empties exactly when every button is below `MouseTotal`. Otherwise the reset stops at the topmost out-of-range button, whose write is out of bounds, and reports it. |
| Context.Context.PollEvents | lib/common/src/Context.cc:197-232 | Released keys become unknown. A released button past `MouseTotal` is reported as an out-of-bounds write, and the rest of the frame is not done. Otherwise released buttons become unknown, the close flag is what the backend reports, the old position becomes the last position, and the new one is the reported cursor. |
| MaterialComponents.ChannelsFollowViews | lib/common/include/venom/common/plugin/graphics/MaterialComponent.h:65-219 | Index `i` in 0 to 8 selects exactly the channels whose letters make up view name `i`. Any other index selects RGBA. |
| MaterialComponents.Mask | lib/common/include/venom/common/plugin/graphics/MaterialComponent.h:56-63 | The mask of a set of value flags fits in four bits. |
| MaterialComponents.MaskRoundTrip | lib/common/include/venom/common/plugin/graphics/MaterialComponent.h:56-63 | The mask and the flag set are inverse: every four-bit mask is the mask of exactly one flag set. |
| MaterialComponents.WithValue | lib/common/include/venom/common/plugin/graphics/MaterialComponent.h:97-119 | Setting a value leaves exactly the one value bit of its alternative and keeps the texture bit. |
| MaterialComponents.WithoutValue | lib/common/include/venom/common/plugin/graphics/MaterialComponent.h:123-127 | Removing the value clears every value bit and keeps the texture bit. |
| MaterialComponents.WithTexture | lib/common/include/venom/common/plugin/graphics/MaterialComponent.h:136 | Setting a texture sets the texture bit and keeps the value bits. |
| MaterialComponents.WithoutTexture | lib/common/include/venom/common/plugin/graphics/MaterialComponent.h:144 | Removing the texture clears the texture bit and keeps the value bits. |
| MaterialComponents.SettersKeepOneValueBit | lib/common/include/venom/common/plugin/graphics/MaterialComponent.h:97-145 | Every setter keeps at most one value bit in the mask. Removing a texture that `SetTexture` added restores the mask. |
| MaterialComponents.FlagOf | lib/common/include/venom/common/plugin/graphics/MaterialComponent.h:99-117 | Each alternative of the variant is stored under a value bit. |
| MaterialComponents.MaterialComponent.constructor | lib/common/src/MaterialComponent.cc:14-18 | A new component has no value bits, no texture and the zero vector. Its channels are left unset, as `__channels` is in C++. |
| MaterialComponents.MaterialComponent.SetValue | lib/common/include/venom/common/plugin/graphics/MaterialComponent.h:97-119 | The value is stored, and the mask becomes `WithValue` of the old mask. |
| MaterialComponents.MaterialComponent.RemoveValue | lib/common/include/venom/common/plugin/graphics/MaterialComponent.h:123-127 | The value is reset to the zero vector, and the mask keeps only the texture bit. |
| MaterialComponents.MaterialComponent.SetTexture | lib/common/include/venom/common/plugin/graphics/MaterialComponent.h:132-137 | The texture copy is owned, the channels become RGBA, and the texture bit is set. |
| MaterialComponents.MaterialComponent.RemoveTexture | lib/common/include/venom/common/plugin/graphics/MaterialComponent.h:141-145 | The texture copy is dropped, and the texture bit is cleared. |
| MaterialComponents.MaterialComponent.SetChannels | lib/common/include/venom/common/plugin/graphics/MaterialComponent.h:169 | The channels are set. |
| MaterialComponents.MaterialComponent.SetChannelsFromIndex | lib/common/include/venom/common/plugin/graphics/MaterialComponent.h:170 | The channels are those of the index. |
| MaterialComponents.MaterialComponent.HasTexture | lib/common/include/venom/common/plugin/graphics/MaterialComponent.h:172 | True exactly when bit 8 of the mask is set. |
| GraphicsSettings.IndexOf | lib/common/src/GraphicsSettings.cc:127-129 | `std::find` gives the first position holding the value, or the length when there is none. |
| GraphicsSettings.IndexOfFinds | lib/common/src/GraphicsSettings.cc:124-130 | The position lies inside the list exactly when the value occurs in it. |
| GraphicsSettings.Settings.constructor | lib/common/src/GraphicsSettings.cc:16-42 | The initial state: change ended and not queued, nothing dirty except data and constants, no HDR support, mode None, settings data MSAA with 4 samples, HDR off, debug mode 0. |
| GraphicsSettings.Settings.SetMultiSampling | lib/common/src/GraphicsSettings.cc:49-60 | The sample count and mode are stored and marked dirty. A reload is queued when no change is in progress. A backend error is reported as `Failure`, after the state has changed. |
| GraphicsSettings.Settings.SetHDR | lib/common/src/GraphicsSettings.cc:62-76 | Without HDR support, `FeatureNotSupported`. No change needed, `Success`. Otherwise the backend's result, and only on success is HDR stored, marked dirty and a reload queued. |
| GraphicsSettings.Settings.IsHDREnabled | lib/common/src/GraphicsSettings.cc:78-81 | Reports the stored HDR flag. |
| GraphicsSettings.Settings.IsHDRSupported | lib/common/src/GraphicsSettings.cc:83-86 | Reports whether HDR is supported. |
| GraphicsSettings.Settings.LoadGfxSettings | lib/common/src/GraphicsSettings.cc:88-95 | Returns the backend's result, and clears the multisampling dirty flag only on success. |
| GraphicsSettings.Settings.StartGfxSettingsChange | lib/common/src/GraphicsSettings.cc:97-100 | The change state becomes Started. |
| GraphicsSettings.Settings.EndGfxSettingsChange | lib/common/src/GraphicsSettings.cc:102-107 | The change state becomes Ended and the data dirty, then the settings load. |
| GraphicsSettings.Settings.GetAvailableMultisamplingCountOptions | lib/common/src/GraphicsSettings.cc:132-143 | The backend's list is fetched once, when the cache is empty, and the cache is returned from then on. |
| GraphicsSettings.Settings.GetActiveMultisamplingCountIndex | lib/common/src/GraphicsSettings.cc:124-130 | The index of the active count in the options, or the length when it is not offered. |
| GraphicsSettings.Settings.LaunchCallbacksAfterDraws | lib/common/src/GraphicsSettings.cc:160-166 | Every queued callback runs, in order, and the queue is emptied. |
| GraphicsSettings.Settings.IsGfxSettingsDataDirty | lib/common/src/GraphicsSettings.cc:168-173 | Reports the data dirty flag and clears it. |
| GraphicsSettings.Settings.IsGfxConstantsDataDirty | lib/common/src/GraphicsSettings.cc:175-180 | Reports the constants dirty flag and clears it. |
| GraphicsSettings.Settings.SetDebugVisualizationMode | lib/common/src/GraphicsSettings.cc:182-187 | Stores a valid mode and marks the constants dirty. |
| GraphicsSettings.Settings.SetWindowResolution | lib/common/src/GraphicsSettings.cc:194-201 | Stores the size and marks the data, the constants and the window size dirty. |
| GraphicsSettings.Settings.SetWindowExtent | lib/common/src/GraphicsSettings.cc:203-209 | Stores the extent and marks only the constants dirty. |
| GraphicsSettings.Settings.ReloadGFXSettings | lib/common/src/GraphicsSettings.cc:211-214 | Queues a reload. |
| GraphicsSettings.Settings.CallbackAfterDraws | lib/common/src/GraphicsSettings.cc:216-219 | Appends the callback. |
| GraphicsSettings.Settings.AddLoadToQueue | lib/common/src/GraphicsSettings.cc:221-224 | Queues a reload. |
| SwapChains.ToUint32 | lib/vulkan/src/SwapChain.cc:140-141 | Conversion to `uint32_t` stays below 2^32 and keeps every value already in range. |
| SwapChains.ClampBounds | lib/vulkan/src/SwapChain.cc:140-168 | `std::clamp` stays within its bounds and keeps exactly the values already within them. |
| SwapChains.ChooseExtent | lib/vulkan/src/SwapChain.cc:131-142 | The surface's current extent is used unless its width is `UINT32_MAX`. Then the framebuffer size is converted to `uint32_t` and clamped to the surface's limits. |
| SwapChains.ChosenExtentWithinLimits | lib/vulkan/src/SwapChain.cc:131-142 | A chosen variable extent lies within the surface's limits, and is the framebuffer size when that fits. |
| SwapChains.ImageCountOneAboveMinimum | lib/vulkan/src/SwapChain.cc:166-168 | The image count is one above the minimum when the maximum allows it, and the minimum otherwise. |
| SwapChains.SharingAsWritten | lib/vulkan/src/SwapChain.cc:180-188 | As written, concurrent sharing lists two entries read from the graphics family vector. |
| SwapChains.SharingFor | lib/vulkan/src/SwapChain.cc:180-188 | Corrected: sharing is exclusive exactly when the first graphics and present families coincide. |
| SwapChains.SharingListsBothFamilies | lib/vulkan/src/SwapChain.cc:180-188 | With concurrent sharing, the list holds exactly the graphics family and the present family. |
| SwapChains.SharingAsWrittenMissesPresentFamily | lib/vulkan/src/SwapChain.cc:180-183 | As written, graphics [0] with present [1] reads past the graphics vector, and graphics [0, 2] with present [1] never lists family 1. |
| SwapChains.OpaqueCheckNeverFails | lib/vulkan/src/SwapChain.cc:192 | As written, `==` binds tighter than `&`, so the opaque-alpha check never fails. |
| SwapChains.OpaqueCheckDetectsMissingBit | lib/vulkan/src/SwapChain.cc:191-195 | The corrected check fails exactly on masks without the opaque bit: it fails on 2 and passes on 3. |
| SwapChains.NonNull | lib/vulkan/src/SwapChain.cc:69-79 | The handles destroyed are exactly the non-null ones. |
| SwapChains.SwapChain.constructor | lib/vulkan/src/SwapChain.cc:19-30 | Undefined sRGB-nonlinear format, `MAX_ENUM` present mode, a zero extent, a null swap chain, no formats, modes, images or views. |
| SwapChains.SwapChain.CleanSwapChain | lib/vulkan/src/SwapChain.cc:67-85 | The non-null framebuffers, then the non-null image views, are destroyed. Both lists are cleared, and the swap chain becomes null. |
| SwapChains.SwapChain.InitSwapChainSettings | lib/vulkan/src/SwapChain.cc:87-156 | A failed capability query is `InitializationFailed`. Otherwise the non-empty queried lists replace the old ones, the preferred format and mode are chosen, and the extent follows `ChooseExtent`. |
| SwapChains.SwapChain.ChooseSurfaceFormat | lib/vulkan/src/SwapChain.cc:116-121 | B8G8R8A8 sRGB non-linear is chosen when offered. Otherwise the format is unchanged. |
| SwapChains.SwapChain.ChoosePresentMode | lib/vulkan/src/SwapChain.cc:123-130 | Mailbox when offered, else FIFO when offered, else unchanged. |
| SwapChains.SwapChain.InitSwapChain | lib/vulkan/src/SwapChain.cc:158-214 | An existing swap chain is cleaned first. The create info carries the image count, format, extent, mode and corrected sharing. It succeeds exactly when the opaque bit is supported and creation succeeds, and then the images are the swap chain's. |
| VulkanInitializer.SelectPhysicalDevice | lib/vulkan/src/VulkanApplicationInitializer.cc:122-154 | No device is `InitializationFailed`. Otherwise the kept device is the first of the tessellation-capable devices with the most device-local VRAM. None is kept exactly when no device has tessellation shaders. |
| VulkanInitializer.BestIsUnique | lib/vulkan/src/VulkanApplicationInitializer.cc:146-153 | The device the selection keeps is unique. |
| VulkanInitializer.FeaturesAsWritten | lib/vulkan/src/VulkanApplicationInitializer.cc:94-111 | As written: without bindless textures the verdict is anisotropy support. With them, the bindless verdict overwrites it. |
| VulkanInitializer.MissingAnisotropyIgnoredAsWritten | lib/vulkan/src/VulkanApplicationInitializer.cc:95-102 | As written, a device without anisotropic sampling but with the bindless features passes the check. |
| VulkanInitializer.Features | lib/vulkan/src/VulkanApplicationInitializer.cc:94-111 | Corrected: bindless support is recorded exactly when bindless textures are in use. |
| VulkanInitializer.FeaturesRequireAnisotropy | lib/vulkan/src/VulkanApplicationInitializer.cc:94-111 | The corrected verdict holds exactly when anisotropy is supported and, with bindless textures in use, both indexing features are present. |
| VulkanInitializer.IsDeviceSuitable | lib/vulkan/src/VulkanApplicationInitializer.cc:372-402 | Suitable exactly when every required extension is available and the swap chain found present modes and surface formats. |
| Framebuffers.Resize | lib/vulkan/src/Framebuffer.cc:68-71 | Resizing a pointer vector gives exactly `n` slots. Existing slots are kept and new ones are null. |
| Framebuffers.ViewHandles | lib/vulkan/src/Framebuffer.cc:48-50 | One `VkImageView` per stored view, in slot order. |
| Framebuffers.Framebuffer.constructor | lib/vulkan/src/Framebuffer.cc:19-30 | A new framebuffer has a null handle, a null render pass and no attachments. |
| Framebuffers.Framebuffer.Destroy | lib/vulkan/src/Framebuffer.cc:37-44 | A live framebuffer is destroyed once and forgotten. A null one is left alone. |
| Framebuffers.Framebuffer.Init | lib/vulkan/src/Framebuffer.cc:46-59 | Every view's handle is appended to the attachments, even on a second call. A failed creation returns `InitializationFailed`. |
| Framebuffers.Framebuffer.SetRenderPass | lib/vulkan/src/Framebuffer.cc:61-64 | The create info now names the given render pass. |
| Framebuffers.Framebuffer.SetAttachment | lib/vulkan/src/Framebuffer.cc:66-74 | Both vectors grow to `i + 1` when needed, padded with nulls. Slot `i` holds the image and view, and every other slot is unchanged. |
| Buffers.WrappedWritePassesAsWritten | lib/common/src/Buffer.cc:46 | As written, one byte at offset `UINT32_MAX` into an empty buffer passes the range check, because the 32-bit sum wraps. |
| Buffers.ChecksAgreeWithoutWrap | lib/common/src/Buffer.cc:46 | The corrected check agrees with the written one whenever the sum does not wrap. It refuses every wrapping write, and it never accepts a write the written check refuses. |
| Buffers.BufferImpl.constructor | lib/common/src/Buffer.cc:16-20 | A new buffer has no type and size 0. |
| Buffers.BufferImpl.SetBufferType | lib/common/src/Buffer.cc:26-30 | The type can be set only while none is set. |
| Buffers.BufferImpl.InitWithSize | lib/common/src/Buffer.cc:32-40 | The size is recorded even when the backend fails, and the backend's error is returned. |
| Buffers.BufferImpl.WriteToBuffer | lib/common/src/Buffer.cc:43-52 | A write needs a type and a range inside the buffer, by the corrected `WriteFits` check without the 32-bit wrap. The backend's answer is returned. |
| Buffers.NewReadBuffer | lib/common/src/Buffer.cc:54-58 | A read buffer is a new backend buffer of type `Read`. |
| Buffers.NewWriteReadBuffer | lib/common/src/Buffer.cc:64-68 | A write-read buffer is a new backend buffer of type `WriteRead`. |
| Dlls.DLL.constructor | lib/common/src/DLL.cc:18-21 | A new library has no handle and no path. |
| Dlls.DLL.LoadDLL | lib/common/src/DLL.cc:58-86 | An already loaded library gives `Failure` and nothing changes. Otherwise the platform extension is appended to the path. A null handle gives `Failure`. On success the path is recorded and cached under the path without its extension. |
| Dlls.DLL.UnloadDLL | lib/common/src/DLL.cc:88-92 | The library's path is erased from the cache only when assertions are compiled in, because the erase sits inside `venom_assert`. |
| Dlls.DLL_Cache.constructor | lib/common/src/DLL.cc:94-96 | A new cache is empty. |
| Dlls.DLL_Cache.StoreInCache | lib/common/src/DLL.cc:102-105 | The name maps to the library, replacing any earlier entry. |
| Dlls.DLL_Cache.UnloadFromCache | lib/common/src/DLL.cc:107-110 | The name is erased when assertions are compiled in, and then it must have been cached. Without assertions the cache is unchanged. |
| Dlls.DLL_Cache.GetFromCache | lib/common/src/DLL.cc:112-117 | A library is returned exactly when the name is cached, and it is the cached one. Otherwise the result is null. |
| Dlls.StoreThenGet | lib/common/src/DLL.cc:102-117 | Getting a name right after storing it returns the stored library, and other names are unaffected. |
| Textures.ExtensionIsLastSegment | lib/common/src/Texture.cc:334-335 | The extension taken after the last '.' contains no '.' and ends the path. A path without a '.' is its own extension. |
| Textures.ExtensionOfAppended | lib/common/src/Texture.cc:334-335 | Appending ".ext" to any stem, dots included, makes `ext` the extension. |
| Textures.CreateTextureLoader | lib/common/src/Texture.cc:331-345 | The stb loader serves exactly png, jpg, jpeg, bmp, tga, gif and psd. The EXR loader serves exactly exr and hdr. Every other extension gives null. |
| Textures.LoaderFollowsExtension | lib/common/src/Texture.cc:331-345 | A file `stem.ext` gets the loader of `ext`. The comparison is case-sensitive, so ".PNG" gets none. |
| Textures.FixSavePath | lib/common/src/Texture.cc:77-104 | A path that contains the extension anywhere is kept. Otherwise the result ends with the extension and is at most the extension longer than the path. |
| Textures.FixSavePathIdempotent | lib/common/src/Texture.cc:77-104 | The fixed path contains the extension, so fixing it again changes nothing. |
| Textures.FixSavePathCutsDirectoryDot | lib/common/src/Texture.cc:101-103 | A path without the extension keeps only the text before its last '.', even when that '.' belongs to a directory: "out.v2/image" is saved as "out" plus the extension. |
| Textures.TextureImpl.constructor | lib/common/src/Texture.cc:110-118 | A new texture has no memory access, the 2D type, no usage and no GUI texture. |
| Textures.TextureImpl.SetMemoryAccess | lib/common/src/Texture.cc:501-511 | The current access succeeds without calling the backend. A backend failure gives `Failure` and keeps the old access. Otherwise the new access is recorded. |
| Textures.TextureImpl.InitDepthBuffer | lib/common/src/Texture.cc:513-523 | On success the texture is a 2D depth-stencil texture. On failure the result is `Failure` and nothing changes. |
| Textures.TextureImpl.CreateReadWriteTexture | lib/common/src/Texture.cc:525-536 | On success the texture is a 2D storage texture with read-write access. On failure the result is `Failure` and nothing changes. |
| Textures.TextureImpl.CreateAttachment | lib/common/src/Texture.cc:538-548 | On success the texture is a 2D attachment. On failure the result is `Failure` and nothing changes. |
| Textures.GuiTextureSlot.constructor | lib/common/src/Texture.cc:116 | A texture starts without a GUI texture. |
| Textures.GuiTextureRegistry.constructor | lib/common/src/Texture.cc:437 | The registry of GUI textures starts empty. |
| Textures.GuiTextureRegistry.GetGUITextureID | lib/common/src/Texture.cc:448-458 | A texture without a GUI texture gets a new one and is registered. One that has a GUI texture keeps it. Either way the returned id is the texture's own. |
| Textures.GuiTextureRegistry.UnloadAllGuiTextures | lib/common/src/Texture.cc:438-446 | Every registered GUI texture is unloaded and reset. Exactly the ids that were loaded are unloaded, and the registry is emptied. |
| VulkanSettings.GetAvailableMultisamplingOptions | lib/vulkan/src/VulkanApplicationSettings.cc:73-81 | The options are exactly the powers of two 1, 2, 4 and so on that do not exceed the device limit, in ascending order. A limit below 1 gives no options. |
| VulkanSettings.OffersAscending | lib/vulkan/src/VulkanApplicationSettings.cc:78-79 | Every offered count is strictly larger than the one before it. |
| VulkanSettings.OffersLength | lib/vulkan/src/VulkanApplicationSettings.cc:78 | The `n`th power of two is offered exactly when it fits the limit. |
| VulkanSettings.SevenOptionsForAllFlags | lib/vulkan/src/VulkanApplicationSettings.cc:73-81 | The sample-count flags 0x7F give the seven counts 1 to 64. |
| VulkanSettings.OffersUnique | lib/vulkan/src/VulkanApplicationSettings.cc:73-81 | The options list is determined by the limit. |
| VulkanSettings.VulkanApplication.constructor | lib/vulkan/src/VulkanApplication.cc:39-46 | The application starts with the swap chain's initial sample count. |
| VulkanSettings.VulkanApplication.SetMultiSampling | lib/vulkan/src/VulkanApplicationSettings.cc:54-71 | Mode None sets one sample and MSAA sets the requested count, both with `Success`. Any other mode gives `Failure` and leaves the swap chain alone. |
| VulkanSettings.VulkanApplication.SetHDR | lib/vulkan/src/VulkanApplicationSettings.cc:83-86 | HDR requests always succeed. |
| ModelProperties.TextureMapInverse | lib/common/src/Model.cc:70-93 | A texture type maps to a component exactly when that component is loaded from that texture type, so no two texture types share a component. |
| ModelProperties.UnusedTextureTypes | lib/common/src/Model.cc:91 | The none, displacement, lightmap, normal-camera and unknown texture types, and any value outside the enumeration, give no component. |
| ModelProperties.ComponentFromKey | lib/common/src/Model.cc:110-123 | A key names a component exactly when it is one of the eleven exact keys, and then it names that key's component. |
| ModelProperties.ClassifyProperty | lib/common/src/Model.cc:95-124 | The value type follows a four-character "$mat" or "$clr" prefix or the nine-character "$tex.file" prefix. A colour of 16 bytes is `FLOAT4D` and any other colour is `FLOAT3D`. A texture file takes its component from the semantic. Every other key takes it from the exact-key table. |
| ModelProperties.ClassifyKnownKeys | lib/common/src/Model.cc:98-123 | Sample keys: "$clr.diffuse" is a diffuse colour of 3 or 4 floats and "$mat.shininess" a shininess float. "$matte" is a float with no component, and a key without a known prefix is skipped. |
| ModelProperties.ClassifyTextureFile | lib/common/src/Model.cc:103-105 | Any key starting with "$tex.file" is a texture of its semantic's component. |
| ModelProperties.TextureFixUps | lib/common/src/Model.cc:247-272 | A texture's fix-ups only touch its own component. A non-texture value gets none. |
| ModelProperties.FixUpsAsWritten | lib/common/src/Model.cc:241-276 | As written, a roughness property runs the roughness case and then falls through into the metallic case. Every other property gets the corrected fix-ups. |
| ModelProperties.RoughnessFallsIntoMetallicAsWritten | lib/common/src/Model.cc:246-273 | As written, a roughness texture in a material with the metallic-roughness texture also sets metallic's channel to B and sets its factor. |
| ModelProperties.FixUps | lib/common/src/Model.cc:241-276 | Corrected: each fix-up touches only the property's own component, or copies diffuse to the base colour. |
| ModelProperties.FixUpsTouchOwnComponent | lib/common/src/Model.cc:241-276 | Corrected: only a diffuse property copies a component, to the base colour. Roughness takes channel G of the shared texture and metallic takes channel B. |
| ModelProperties.FixUpsAgreeOffRoughness | lib/common/src/Model.cc:241-276 | The written and corrected fix-ups differ only for a roughness texture. |
| VenomSettings.Pow2Monotone | lib/common/include/venom/common/VenomSettings.h:39 | A larger shift divides by a larger power of two. |
| VenomSettings.Budget | lib/common/include/venom/common/VenomSettings.h:17-20 | The directional, spot and point budgets add up to the light budget. The point budget is non-negative when the directional lights and a quarter of the lights fit. |
| VenomSettings.EngineBudget | lib/common/include/venom/common/VenomSettings.h:17-20 | The engine holds 4 directional, 32 spot and 92 point lights. |
| VenomSettings.ShadowBudget | lib/common/include/venom/common/VenomSettings.h:22-27 | Every directional light casts shadows. A non-negative number of spot and point lights does, at most as many as are held. |
| VenomSettings.ForwardPlusIntsFit | lib/common/include/venom/common/VenomSettings.h:33-34 | The forward+ ints hold one bit per light, with fewer than one int's bits to spare. |
| VenomSettings.DivAtLeast | lib/common/include/venom/common/VenomSettings.h:39 | A quotient is at least `q` when the dividend holds `q` divisors. |
| VenomSettings.LastCascadeIsSmallest | lib/common/include/venom/common/VenomSettings.h:38-39 | When the last point cascade is at least 64 texels wide, so is every cascade. The static check on the last cascade covers them all. |
| VenomSettings.Pow2IsPowerOfTwo | lib/common/include/venom/common/VenomSettings.h:40-41 | Every power of two passes the power-of-two check. |
| VenomSettings.PowerOfTwoIsPow2 | lib/common/include/venom/common/VenomSettings.h:40-41 | Only powers of two pass the power-of-two check. |
| VenomSettings.EngineCascadesPassChecks | lib/common/include/venom/common/VenomSettings.h:36-41 | The engine's settings pass all three static checks. The smallest point cascade is 256 texels wide. |
| VenomSettings.EngineDimensionPassesBitTest | lib/common/include/venom/common/VenomSettings.h:29-41 | The 32-bit word 2048 passes the bit test `n & (n - 1) == 0` itself, which also accepts 0. |
| VenomSettings.TotalShadowMapGpuSize | lib/common/src/VenomSettings.cc:41-48 | The texel sum fits a signed 32-bit `int`. The total size needs more than 32 bits and fits in 64. |
| VenomSettings.SlotRanges | lib/vulkan/src/VulkanApplication.cc:402-434 | Directional, point and spot light-space matrix slots each fall in their own consecutive range, and together they stay below the slot count. |
| VenomSettings.DirectionalSlotsDistinct | lib/vulkan/src/VulkanApplication.cc:402 | Two directional slots are equal only for the same light and cascade. |
| VenomSettings.PointSlotsDistinct | lib/vulkan/src/VulkanApplication.cc:419 | Two point-light slots are equal only for the same light and face. |
| VenomSettings.EngineSlotCount | lib/common/include/venom/common/VenomSettings.h:23-28 | The engine has 4 directional, 8 spot and 23 point shadow-casting lights, which use 158 slots. |
| PhysicalDevices.GetDeviceLocalVRAMAmount | lib/metal/src/PhysicalDevice.cc:25-34 | The result is the total size of the device-local heaps, modulo 2^64. |
| PhysicalDevices.DeviceLocalTotalAppend | lib/metal/src/PhysicalDevice.cc:28-32 | The device-local total of a concatenation is the sum of the parts' totals. |
| PhysicalDevices.DeviceLocalTotalBounds | lib/metal/src/PhysicalDevice.cc:28-32 | Every device-local heap counts in full. With no device-local heap the total is 0. |
| PhysicalDevices.NoDeviceLocalHeap | lib/metal/src/PhysicalDevice.cc:29 | Heaps without the device-local bit add nothing. |
| PhysicalDevices.FirstSupportedIsFirst | lib/metal/src/PhysicalDevice.cc:44-54 | The search returns the earliest candidate whose features share a bit with the request. It returns `VK_FORMAT_UNDEFINED` when no candidate qualifies. |
| PhysicalDevices.FindSupportedFormat | lib/metal/src/PhysicalDevice.cc:41-55 | The loop returns the first qualifying candidate, checked against the features of the requested tiling. |
| PhysicalDevices.FindDepthFormat | lib/metal/src/PhysicalDevice.cc:57-66 | For optimal tiling with the depth-stencil attachment feature, 32-bit float is preferred, then 32-bit float with stencil, then 24-bit with stencil. Otherwise the result is undefined. |

## Left out

- Calls into Vulkan, GLFW, ImGui, assimp, stb, OpenEXR, the file system, `system` and the dynamic loader are not modelled. Each becomes a parameter holding its result, or a trace event.
- Logging is not modelled. Neither are the global singletons (`s_context`, `s_graphicsSettings`, the DLL cache pointer, `s_renderPasses`), which are passed explicitly.
- `venom_assert` is modelled as a precondition wherever it guards a call. The debug abort itself is not modelled. The exception is `UnloadFromCache`, whose erase sits inside the assertion.
- Floating-point values such as line widths, priorities, factors and cursor positions are Dafny `real`s. Rounding is not modelled.
- A C++ `int` is taken to be 32 bits wide, and `uint32_t` and `uint64_t` wrap where that matters. Elsewhere integers are unbounded.
- Queue capability flags are sets of flags rather than bit masks. Only membership is ever tested.
- `std::sort` is modelled as an insertion sort by the same comparator. The order of elements the comparator cannot tell apart is not captured.
- The move constructors are not modelled: `RenderPassImpl` (lib/common/src/RenderPass.cc:35-41), `SwapChain` (lib/vulkan/src/SwapChain.cc:37-65) and `VulkanShaderPipeline` (lib/vulkan/src/ShaderPipeline.cc:107-118). The move assignment of `RenderPassImpl` is modelled.
- The `QueueManager` getters and `GetActiveQueueFamilyIndices` (lib/vulkan/src/QueueManager.cc:153-231) only read fields and are not modelled.
- QueueManager.QueueManager.TryAddQueueCreateInfo: does not require the queue count to stay at most 1, the `venom_assert` of lib/vulkan/src/QueueManager.cc:237. The grant arithmetic is modelled for any count.
- QueueManager.QueueManager.SetLogicalDeviceQueueCreateInfos: requires a manager without create infos. A second call reuses the earlier vectors after `resize`, and that is not modelled.
- The command pools' queue assignment and the Vulkan queue handles fetched in `QueueManager::Init` are not modelled. Only which queues are fetched is modelled.
- `Context::CreateContext`, `Context::Init` and `Context::Run` (lib/common/src/Context.cc:127-158,234-245) are not modelled. Neither are the backend's `_PollEvents` updates of the key and button states, nor the pushes onto the released stacks, which the GLFW backend performs.
- The `ScreenVideoMode` comparison operators are not modelled, because the sort uses its own comparator.
- GLFW's key codes are taken from GLFW's `glfw3.h`, which is not part of this model.
- lib/common/src/MaterialComponent.cc contradicts the header, and only its constructor is modelled. The payload of a component value (floats or a texture) is reduced to the value-type bits and channels.
- The `GraphicsSettings` getters that only return a field, the option and debug-visualizer display strings, and `GetGfxSettingsDataPtr` are not modelled.
- The number of debug visualization modes is taken from the names the constructor lists. GraphicsSettings.h is not part of this model.
- `_OnGfxSettingsChange` and the backend's settings loading are parameters.
- The swap chain's viewport and scissor, the image-view creation loop and `InitSwapChainFramebuffers` are not modelled. They are Vulkan object creation.
- The swap chain's initial sample count is set in a header that is not part of this model, so it is a constructor parameter.
- `_ReloadShader`'s Vulkan pipeline state (blend, rasterizer, push constants, descriptor layouts) is not modelled. Only which creations succeed is modelled.
- `SaveImageToExr` and `SaveImageToPng` are modelled only for their path fix. The image writing is I/O. `SaveImageToPng` (lib/common/src/Texture.cc:97-108) ends without returning its `vc::Error`, which C++ leaves undefined; that return value is not modelled.
- The texture loaders' pixel work, luminance and the GUI texture's ImGui upload are not modelled.
- `DLL::GetFunction` (`dlsym`), the DLL destructor (`dlclose`) and `DLL_Cache::SetCache` are not modelled.
- DeferredTrash.TrashRuntime.CreateBin: the runtime tracks only the current bin. A second bin replaces `s_instance`, while the first keeps its blocks until its destructor frees them; the model drops those blocks.
- Dlls.DLL.UnloadDLL: the cache's erase drops the only shared pointer to the DLL, so C++ destroys it and its destructor (lib/common/src/DLL.cc:35-43) closes the handle. The model only removes the cache entry; the destroyed object and the closed handle are not modelled.
- `ImportModel`'s reads of property data, its mesh, node and camera work, and the numeric values of assimp's enumerations are not modelled. assimp's material.h is not part of this model.
- VulkanSettings.GetAvailableMultisamplingOptions: requires a limit below 2^31. For larger limits the signed counter overflows, which C++ leaves undefined.
- VulkanApplication.h is not part of this model. Only the swap-chain sample count that `_SetMultiSampling` writes is kept as state.
- PhysicalDevices.FindDepthFormat: returns `VK_FORMAT_UNDEFINED` when no depth format qualifies, as a release build does. The `venom_assert` at lib/metal/src/PhysicalDevice.cc:64 is not modelled.
- Context.Context.ResetReleasedButtons: a released button past `MouseTotal` is written past the end of `__mouseState`, which C++ leaves undefined. The model stops at that button and reports it instead of modelling the write.
- The GLFW mouse callback (lib/common/src/context/ContextGLFW.cc:122-130) casts GLFW's raw button codes 0 to 7 to `MouseButton` and pushes them. The model therefore lets the released-button stack hold any `MouseButton` enumerator.
- The mobile-only virtual joystick and camera fields of `Context` (lib/common/src/Context.cc:105-114,208-221) are not modelled. The model is the desktop build.

## Findings

| source | as written | input that shows it | evidently intended | confidence | as-written member | corrected member |
|---|---|---|---|---|---|---|
| lib/common/src/ShaderResourceTable.cc:109 | The free texture ids are pushed from `int i = maxTextures - 1` down to 0. A `uint32_t` limit of more than 2^31 makes `i` negative. | `SetMaxTextures(0xFFFFFFFF)` leaves no free texture id. | Every id below the limit is free. | not executed | ShaderResourceTable.TextureIdManager.SetMaxTexturesAsWritten, ShaderResourceTable.AsWrittenLosesLargeLimits | ShaderResourceTable.TextureIdManager.SetMaxTextures, ShaderResourceTable.SetMaxTexturesExactly |
| lib/common/src/RenderPass.cc:43-52 | Move assignment registers the target only in the slot of its own type. | Moving a PBR model pass that also claims the reflection slot leaves that slot naming the moved-from pass. | The target takes over every slot the source claimed. | not executed | RenderPasses.Registry.MoveAssignAsWritten, RenderPasses.MoveAsWrittenLeavesStaleSlot | RenderPasses.Registry.MoveAssign, RenderPasses.MoveLeavesNoStaleSlot |
| lib/vulkan/src/SwapChain.cc:180-188 | Concurrent sharing passes two indices read from the graphics family vector. | Graphics families [0] with present family [1] reads past the graphics vector. Graphics [0, 2] with present [1] omits family 1. | The first graphics and the first present family are both listed. | not executed | SwapChains.SharingAsWritten, SwapChains.SharingAsWrittenMissesPresentFamily | SwapChains.SharingFor, SwapChains.SharingListsBothFamilies |
| lib/vulkan/src/SwapChain.cc:192 | `supportedCompositeAlpha & VK_COMPOSITE_ALPHA_OPAQUE_BIT_KHR == 0` parses as `x & (1 == 0)`, which is always 0. | A surface whose only composite alpha is pre-multiplied (mask 2) passes the check. | The check fails when the opaque bit is missing. | not executed | SwapChains.OpaqueUnsupportedAsWritten, SwapChains.OpaqueCheckNeverFails | SwapChains.OpaqueUnsupported, SwapChains.OpaqueCheckDetectsMissingBit |
| lib/vulkan/src/VulkanApplicationInitializer.cc:95-107 | With bindless textures, `supported` is overwritten by the descriptor-indexing verdict. | A device without anisotropic sampling but with both indexing features is accepted. | Anisotropy is required in every case. | not executed | VulkanInitializer.FeaturesAsWritten, VulkanInitializer.MissingAnisotropyIgnoredAsWritten | VulkanInitializer.Features, VulkanInitializer.FeaturesRequireAnisotropy |
| lib/common/src/Buffer.cc:46 | `offset + size <= _size` is computed in `uint32_t` and can wrap. | One byte at offset `UINT32_MAX` into an empty buffer passes the check. | The written range lies inside the buffer. | not executed | Buffers.WriteFitsAsWritten, Buffers.WrappedWritePassesAsWritten | Buffers.WriteFits, Buffers.ChecksAgreeWithoutWrap |
| lib/common/src/Model.cc:246-273 | The `ROUGHNESS` case has no `break` and falls into the `METALLIC` case. | A roughness texture in a glTF material with a metallic-roughness texture also sets metallic's channel to B and its factor. | Each case edits only its own component. | not executed | ModelProperties.FixUpsAsWritten, ModelProperties.RoughnessFallsIntoMetallicAsWritten | ModelProperties.FixUps, ModelProperties.FixUpsTouchOwnComponent |
