/**
 * lib/vulkan/src/ShaderPipeline.cc: the Vulkan shader pipeline. It classifies each
 * compiled shader by substrings of its path, refuses two shaders of the same stage,
 * rebuilds its pipeline only when a setting changed, and finds its shaders by name
 * under the compiled-shader folder.
 *
 * The pipeline and its `VulkanShaderResource` are one class here. Opening a file and
 * creating a Vulkan object are not modelled: their outcomes are parameters.
 */
module ShaderPipeline {
  import opened VenomError
  import opened Strings
  import opened RubyText
  import opened RenderPasses

  /** The `VkShaderStageFlagBits` a shader can be classified as. */
  datatype Stage = Vertex | Fragment | Compute | Geometry | TessellationControl | TessellationEvaluation

  /** `PipelineType`. */
  datatype PipelineType = GraphicsPipeline | ComputePipeline | RayTracingPipeline

  /** `LoadShader`'s classification of a shader path: the first test that finds one of its substrings decides. */
  function StageOf(path: string): Option<Stage> {
    if Contains(path, "vert") || Contains(path, "vertex") || Contains(path, "vs") then Some(Vertex)
    else if Contains(path, "frag") || Contains(path, "fs") || Contains(path, "pixel") || Contains(path, "ps") then Some(Fragment)
    else if Contains(path, "comp") || Contains(path, "cs") || Contains(path, "compute") then Some(Compute)
    else if Contains(path, "geom") then Some(Geometry)
    else if Contains(path, "tesc") then Some(TessellationControl)
    else if Contains(path, "tese") then Some(TessellationEvaluation)
    else None
  }

  /** The substrings that select each stage. */
  function Tokens(s: Stage): seq<string> {
    match s
    case Vertex => ["vert", "vertex", "vs"]
    case Fragment => ["frag", "fs", "pixel", "ps"]
    case Compute => ["comp", "cs", "compute"]
    case Geometry => ["geom"]
    case TessellationControl => ["tesc"]
    case TessellationEvaluation => ["tese"]
  }

  /** The position of each stage's test in `LoadShader`. */
  function Rank(s: Stage): nat {
    match s
    case Vertex => 0
    case Fragment => 1
    case Compute => 2
    case Geometry => 3
    case TessellationControl => 4
    case TessellationEvaluation => 5
  }

  predicate ContainsAny(path: string, tokens: seq<string>) {
    exists t | t in tokens :: Contains(path, t)
  }

  /**
   * A path is classified as stage `s` exactly when it contains one of `s`'s substrings and
   * none of the substrings of a stage tested earlier; it is unknown when it contains none.
   */
  lemma StageOfIsFirstMatch(path: string, s: Stage)
    ensures StageOf(path) == Some(s) <==> ContainsAny(path, Tokens(s)) && forall t :: Rank(t) < Rank(s) ==> !ContainsAny(path, Tokens(t))
    ensures StageOf(path) == None <==> forall t :: !ContainsAny(path, Tokens(t))
  {
    hide Contains;
    TokensOfVertex(path);
    TokensOfFragment(path);
    TokensOfCompute(path);
    assert ContainsAny(path, Tokens(Geometry)) == Contains(path, "geom");
    assert ContainsAny(path, Tokens(TessellationControl)) == Contains(path, "tesc");
    assert ContainsAny(path, Tokens(TessellationEvaluation)) == Contains(path, "tese");
  }

  lemma TokensOfVertex(path: string)
    ensures ContainsAny(path, Tokens(Vertex)) == (Contains(path, "vert") || Contains(path, "vertex") || Contains(path, "vs"))
  {
    hide Contains;
  }

  lemma TokensOfFragment(path: string)
    ensures ContainsAny(path, Tokens(Fragment)) == (Contains(path, "frag") || Contains(path, "fs") || Contains(path, "pixel") || Contains(path, "ps"))
  {
    hide Contains;
  }

  lemma TokensOfCompute(path: string)
    ensures ContainsAny(path, Tokens(Compute)) == (Contains(path, "comp") || Contains(path, "cs") || Contains(path, "compute"))
  {
    hide Contains;
  }

  /**
   * The tests for "vertex" and "compute" never decide anything: a path containing them
   * already contains "vert" or "comp", tested first.
   */
  lemma LongTokensNeverDecide(path: string)
    ensures Contains(path, "vertex") ==> Contains(path, "vert") && StageOf(path) == Some(Vertex)
    ensures Contains(path, "compute") ==> Contains(path, "comp")
  {
    if Contains(path, "vertex") {
      ContainsPrefixOf(path, "vertex", 4);
      assert "vertex"[..4] == "vert";
    }
    if Contains(path, "compute") {
      ContainsPrefixOf(path, "compute", 4);
      assert "compute"[..4] == "comp";
    }
  }

  /**
   * The whole path is searched, not the file name: a directory whose name contains "vs"
   * makes every shader below it a vertex shader.
   */
  lemma DirectoryNameDecides(dir: string, name: string)
    requires Contains(dir, "vs")
    ensures StageOf(dir + "/" + name) == Some(Vertex)
  {
    ContainsInConcat(dir, "/" + name, "vs");
    assert dir + "/" + name == dir + ("/" + name);
  }

  /** One entry of `shaderStages`: zero-initialised by the resize, or filled in by `LoadShader`. */
  datatype StageInfo = Blank | Loaded(stage: Stage)

  /** Two entries hold the same stage. */
  predicate HasDuplicate(stages: seq<StageInfo>) {
    exists i, j :: 0 <= i < j < |stages| && stages[i] == stages[j]
  }

  /** The entries for the paths before the first one that fails to load, then blanks. */
  function OpenedStages(paths: seq<string>, openable: set<string>): (r: seq<StageInfo>)
    ensures |r| == |paths|
  {
    if paths == [] then []
    else if paths[0] in openable && StageOf(paths[0]).Some? then [Loaded(StageOf(paths[0]).value)] + OpenedStages(paths[1..], openable)
    else seq(|paths|, _ => Blank)
  }

  /** Every path opens and is classified. */
  predicate AllLoad(paths: seq<string>, openable: set<string>) {
    forall p | p in paths :: p in openable && StageOf(p).Some?
  }

  /** What the loading loop knows after the first `i` paths loaded into `loaded`. */
  ghost predicate LoadedSoFar(paths: seq<string>, openable: set<string>, i: nat, loaded: seq<StageInfo>) {
    && i <= |paths| && |loaded| == i
    && AllLoad(paths[..i], openable)
    && loaded + OpenedStages(paths[i..], openable) == OpenedStages(paths, openable)
  }

  lemma LoadedSoFarStart(paths: seq<string>, openable: set<string>)
    ensures LoadedSoFar(paths, openable, 0, [])
  {
    assert paths[0..] == paths;
  }

  lemma LoadedSoFarStep(paths: seq<string>, openable: set<string>, i: nat, loaded: seq<StageInfo>)
    requires LoadedSoFar(paths, openable, i, loaded) && i < |paths|
    requires paths[i] in openable && StageOf(paths[i]).Some?
    ensures LoadedSoFar(paths, openable, i + 1, loaded + [Loaded(StageOf(paths[i]).value)])
  {
    assert paths[i..][0] == paths[i] && paths[i..][1..] == paths[i + 1..];
    assert paths[..i + 1] == paths[..i] + [paths[i]];
    var rest := OpenedStages(paths[i + 1..], openable);
    assert loaded + ([Loaded(StageOf(paths[i]).value)] + rest) == (loaded + [Loaded(StageOf(paths[i]).value)]) + rest;
  }

  lemma LoadedSoFarFails(paths: seq<string>, openable: set<string>, i: nat, loaded: seq<StageInfo>)
    requires LoadedSoFar(paths, openable, i, loaded) && i < |paths|
    requires !(paths[i] in openable && StageOf(paths[i]).Some?)
    ensures loaded + seq(|paths| - i, _ => Blank) == OpenedStages(paths, openable)
    ensures !AllLoad(paths, openable)
  {
    assert paths[i..][0] == paths[i];
    assert paths[i] in paths;
  }

  lemma LoadedSoFarEnd(paths: seq<string>, openable: set<string>, loaded: seq<StageInfo>)
    requires LoadedSoFar(paths, openable, |paths|, loaded)
    ensures loaded == OpenedStages(paths, openable) && AllLoad(paths, openable)
  {
    assert paths[..|paths|] == paths;
    assert paths[|paths|..] == [];
  }

  /** When every path loads, each entry holds its path's stage. */
  lemma {:induction false} OpenedStagesAllLoad(paths: seq<string>, openable: set<string>)
    requires AllLoad(paths, openable)
    ensures forall i :: 0 <= i < |paths| ==> OpenedStages(paths, openable)[i] == Loaded(StageOf(paths[i]).value)
  {
    if paths != [] {
      OpenedStagesAllLoad(paths[1..], openable);
    }
  }

  /** At most one shader per stage: a pipeline that opens has at most six shaders. */
  lemma {:induction false} NoDuplicateAtMostSix(stages: seq<StageInfo>)
    requires forall i :: 0 <= i < |stages| ==> stages[i].Loaded?
    requires !HasDuplicate(stages)
    ensures |stages| <= 6
  {
    var seen := set i | 0 <= i < |stages| :: stages[i];
    DistinctSetSize(stages);
    var all := {Loaded(Vertex), Loaded(Fragment), Loaded(Compute), Loaded(Geometry), Loaded(TessellationControl), Loaded(TessellationEvaluation)};
    assert seen <= all by {
      forall x | x in seen ensures x in all {
        var i :| 0 <= i < |stages| && stages[i] == x;
        var s := stages[i].stage;
        assert x == Loaded(s);
        assert s == Vertex || s == Fragment || s == Compute || s == Geometry || s == TessellationControl || s == TessellationEvaluation;
      }
    }
    SubsetSize(seen, all);
  }

  lemma {:induction false} DistinctSetSize(stages: seq<StageInfo>)
    requires !HasDuplicate(stages)
    ensures |set i | 0 <= i < |stages| :: stages[i]| == |stages|
  {
    if stages != [] {
      var init := stages[..|stages| - 1];
      assert !HasDuplicate(init);
      DistinctSetSize(init);
      var last := stages[|stages| - 1];
      var before := set i | 0 <= i < |init| :: init[i];
      assert last !in before;
      assert (set i | 0 <= i < |stages| :: stages[i]) == before + {last} by {
        forall x | x in before ensures x in set i | 0 <= i < |stages| :: stages[i] {
          var i :| 0 <= i < |init| && init[i] == x;
          assert stages[i] == x;
        }
      }
    }
  }

  lemma SubsetSize<T>(a: set<T>, b: set<T>)
    requires a <= b
    ensures |a| <= |b|
  {
    assert b == a + (b - a);
  }

  /** `ShaderVertexFormat`. */
  datatype VertexFormat = Float | Vec2 | Vec3 | Vec4 | Int | IVec2 | IVec3 | IVec4 | Uint | UVec2 | UVec3 | UVec4 | Mat2 | Mat3 | Mat4

  /** The 32-bit-per-component `VkFormat`s, by component count and kind. */
  datatype Kind = SignedFloat | SignedInt | UnsignedInt
  datatype VkFormat = Undefined | R32(kind: Kind, components: nat)

  /** `GetVkFormatFromShaderVertexFormat`; a matrix attribute uses the format of one of its rows. */
  function VkFormatOf(f: VertexFormat): VkFormat {
    match f
    case Float => R32(SignedFloat, 1)
    case Vec2 => R32(SignedFloat, 2)
    case Vec3 => R32(SignedFloat, 3)
    case Vec4 => R32(SignedFloat, 4)
    case Int => R32(SignedInt, 1)
    case IVec2 => R32(SignedInt, 2)
    case IVec3 => R32(SignedInt, 3)
    case IVec4 => R32(SignedInt, 4)
    case Uint => R32(UnsignedInt, 1)
    case UVec2 => R32(UnsignedInt, 2)
    case UVec3 => R32(UnsignedInt, 3)
    case UVec4 => R32(UnsignedInt, 4)
    case Mat2 => R32(SignedFloat, 2)
    case Mat3 => R32(SignedFloat, 3)
    case Mat4 => R32(SignedFloat, 4)
  }

  /** `Int` and the `IVecN` formats: the signed-integer vertex formats, by their names. */
  predicate IsSignedIntFormat(f: VertexFormat) {
    f == Int || f == IVec2 || f == IVec3 || f == IVec4
  }

  /** `Uint` and the `UVecN` formats: the unsigned-integer vertex formats, by their names. */
  predicate IsUnsignedIntFormat(f: VertexFormat) {
    f == Uint || f == UVec2 || f == UVec3 || f == UVec4
  }

  /** `Mat2`, `Mat3` and `Mat4`. */
  predicate IsMatrix(f: VertexFormat) {
    f == Mat2 || f == Mat3 || f == Mat4
  }

  /**
   * The map is total (the `default` branch is unreachable) and yields one to four components.
   * A `MatN` attribute gets the format of `VecN`, one of its rows. The integer formats,
   * and only they, get the signed and unsigned integer formats.
   */
  lemma VkFormatMatchesShape(f: VertexFormat)
    ensures VkFormatOf(f) != Undefined
    ensures 1 <= VkFormatOf(f).components <= 4
    ensures f == Mat2 ==> VkFormatOf(f) == VkFormatOf(Vec2)
    ensures f == Mat3 ==> VkFormatOf(f) == VkFormatOf(Vec3)
    ensures f == Mat4 ==> VkFormatOf(f) == VkFormatOf(Vec4)
    ensures VkFormatOf(f).kind == SignedInt <==> IsSignedIntFormat(f)
    ensures VkFormatOf(f).kind == UnsignedInt <==> IsUnsignedIntFormat(f)
  {
  }

  /** Apart from the matrices, which share their rows' formats, no two formats share a `VkFormat`. */
  lemma VectorFormatsAreDistinct(f: VertexFormat, g: VertexFormat)
    requires !IsMatrix(f) && !IsMatrix(g) && f != g
    ensures VkFormatOf(f) != VkFormatOf(g)
  {
  }

  /** A directory entry the recursive iterator yields: its full path and whether it is a regular file. */
  datatype Entry = Entry(path: string, regularFile: bool)

  /** The path relative to `basePath`, cut at its first '.' (`find_first_of`; no '.' keeps it whole). */
  function Stem(path: string, basePath: string): string
    requires |basePath| <= |path|
  {
    var relative := path[|basePath|..];
    match Find(relative, ".")
    case None => relative
    case Some(i) => relative[..i]
  }

  /** `_LoadShader` keeps a regular `.spv` file whose stem is the requested name. */
  predicate Keeps(e: Entry, basePath: string, name: string) {
    |basePath| <= |e.path| && Stem(e.path, basePath) == name && e.regularFile && IsSuffix(".spv", Basename(e.path))
  }

  function Matching(entries: seq<Entry>, basePath: string, name: string): (r: seq<string>)
    ensures |r| <= |entries|
  {
    if entries == [] then []
    else (if Keeps(entries[0], basePath, name) then [entries[0].path] else []) + Matching(entries[1..], basePath, name)
  }

  /** Exactly the kept entries' paths are collected, in the iterator's order. */
  lemma {:induction false} MatchingExactly(entries: seq<Entry>, basePath: string, name: string)
    ensures forall p :: p in Matching(entries, basePath, name) <==> exists e | e in entries :: Keeps(e, basePath, name) && e.path == p
  {
    if entries != [] {
      MatchingExactly(entries[1..], basePath, name);
      assert forall e | e in entries :: e == entries[0] || e in entries[1..];
    }
  }

  /** `VulkanShaderPipeline` together with its `VulkanShaderResource`. */
  class ShaderPipeline {
    var shaderPaths: seq<string>
    var stages: seq<StageInfo>
    var pipelineType: PipelineType
    var lineWidth: real
    var samples: int
    var depthTest: bool
    var depthWrite: bool
    var shaderDirty: bool
    var renderingType: RenderingPipelineType
    /** The binding and attribute descriptions: (binding, stride) and (location, binding, format, offset). */
    var bindings: seq<(nat, nat)>
    var attributes: seq<(nat, nat, VkFormat, nat)>

    /** The resource's constructor; the sample count is the active multisampling setting. */
    constructor (activeSamples: int)
      ensures shaderPaths == [] && stages == [] && bindings == [] && attributes == []
      ensures pipelineType == GraphicsPipeline && shaderDirty
      ensures lineWidth == 1.0 && samples == activeSamples && depthTest && depthWrite
      ensures renderingType == NoType
    {
      shaderPaths := [];
      stages := [];
      pipelineType := GraphicsPipeline;
      lineWidth := 1.0;
      samples := activeSamples;
      depthTest := true;
      depthWrite := true;
      shaderDirty := true;
      renderingType := NoType;
      bindings := [];
      attributes := [];
    }

    method SetRenderingPipelineType(t: RenderingPipelineType)
      modifies this`renderingType
      ensures renderingType == t
    {
      renderingType := t;
    }

    /** `_SetLineWidth`: a different width is stored and marks the pipeline dirty. */
    method SetLineWidth(width: real)
      modifies this`lineWidth, this`shaderDirty
      ensures lineWidth == width
      ensures shaderDirty == (old(shaderDirty) || old(lineWidth) != width)
    {
      if lineWidth == width {
        return;
      }
      lineWidth := width;
      shaderDirty := true;
    }

    method SetMultiSamplingCount(count: int)
      modifies this`samples, this`shaderDirty
      ensures samples == count
      ensures shaderDirty == (old(shaderDirty) || old(samples) != count)
    {
      if samples == count {
        return;
      }
      samples := count;
      shaderDirty := true;
    }

    method SetDepthTest(enable: bool)
      modifies this`depthTest, this`shaderDirty
      ensures depthTest == enable
      ensures shaderDirty == (old(shaderDirty) || old(depthTest) != enable)
    {
      if depthTest == enable {
        return;
      }
      depthTest := enable;
      shaderDirty := true;
    }

    method SetDepthWrite(enable: bool)
      modifies this`depthWrite, this`shaderDirty
      ensures depthWrite == enable
      ensures shaderDirty == (old(shaderDirty) || old(depthWrite) != enable)
    {
      if depthWrite == enable {
        return;
      }
      depthWrite := enable;
      shaderDirty := true;
    }

    /** `_AddVertexBufferToLayout`: one binding and one attribute description more. */
    method AddVertexBufferToLayout(vertexSize: nat, binding: nat, location: nat, offset: nat, format: VertexFormat)
      modifies this`bindings, this`attributes
      ensures bindings == old(bindings) + [(binding, vertexSize)]
      ensures attributes == old(attributes) + [(location, binding, VkFormatOf(format), offset)]
    {
      bindings := bindings + [(binding, vertexSize)];
      attributes := attributes + [(location, binding, VkFormatOf(format), offset)];
    }

    /**
     * `LoadShader` for one path: fails when the file does not open into a shader module
     * (`openable`) or matches no stage; a compute shader makes the pipeline a compute pipeline.
     */
    method LoadShader(path: string, openable: set<string>) returns (err: Error, info: StageInfo)
      modifies this`pipelineType
      ensures err == Success <==> path in openable && StageOf(path).Some?
      ensures info == if err == Success then Loaded(StageOf(path).value) else Blank
      ensures pipelineType == if path in openable && StageOf(path) == Some(Compute) then ComputePipeline else old(pipelineType)
    {
      if path !in openable {
        return Failure, Blank;
      }
      match StageOf(path)
      case None =>
        err, info := Failure, Blank;
      case Some(s) =>
        if s == Compute {
          pipelineType := ComputePipeline;
        }
        err, info := Success, Loaded(s);
    }

    /** The nested duplicate-stage loops of `_OpenShaders`. */
    static method FindDuplicate(s: seq<StageInfo>) returns (found: bool)
      ensures found <==> HasDuplicate(s)
    {
      var i := 0;
      while i < |s|
        invariant 0 <= i <= |s|
        invariant forall a, b :: 0 <= a < i && a < b < |s| ==> s[a] != s[b]
      {
        var j := i + 1;
        while j < |s|
          invariant i + 1 <= j <= |s|
          invariant forall b :: i < b < j ==> s[i] != s[b]
        {
          if s[i] == s[j] {
            return true;
          }
          j := j + 1;
        }
        i := i + 1;
      }
      return false;
    }

    /** The loading loop of `_OpenShaders`: stops at the first path that fails to load. */
    method LoadInOrder(openable: set<string>) returns (ok: bool)
      modifies this`stages, this`pipelineType
      ensures stages == OpenedStages(shaderPaths, openable)
      ensures ok <==> AllLoad(shaderPaths, openable)
      ensures pipelineType == if Loaded(Compute) in stages then ComputePipeline else old(pipelineType)
    {
      var paths := shaderPaths;
      var loaded: seq<StageInfo> := [];
      var i := 0;
      LoadedSoFarStart(paths, openable);
      while i < |paths|
        invariant LoadedSoFar(paths, openable, i, loaded)
        invariant pipelineType == if Loaded(Compute) in loaded then ComputePipeline else old(pipelineType)
      {
        var e, info := LoadShader(paths[i], openable);
        if e != Success {
          LoadedSoFarFails(paths, openable, i, loaded);
          var blanks := seq(|paths| - i, _ => Blank);
          assert Loaded(Compute) !in blanks;
          assert Loaded(Compute) in loaded + blanks <==> Loaded(Compute) in loaded;
          stages := loaded + blanks;
          return false;
        }
        LoadedSoFarStep(paths, openable, i, loaded);
        assert Loaded(Compute) in loaded + [info] <==> Loaded(Compute) in loaded || info == Loaded(Compute);
        loaded := loaded + [info];
        i := i + 1;
      }
      LoadedSoFarEnd(paths, openable, loaded);
      stages := loaded;
      return true;
    }

    /**
     * `_OpenShaders`: loads every path in order and stops at the first failure; then fails
     * if two stages are equal; otherwise marks the pipeline dirty.
     */
    method OpenShaders(openable: set<string>) returns (err: Error)
      modifies this`stages, this`pipelineType, this`shaderDirty
      ensures stages == OpenedStages(shaderPaths, openable)
      ensures err == Success <==> AllLoad(shaderPaths, openable) && !HasDuplicate(stages)
      ensures shaderDirty == (old(shaderDirty) || err == Success)
      ensures pipelineType == if Loaded(Compute) in stages then ComputePipeline else old(pipelineType)
    {
      var ok := LoadInOrder(openable);
      if !ok {
        return Failure;
      }
      var duplicate := FindDuplicate(stages);
      if duplicate {
        return Failure;
      }
      shaderDirty := true;
      return Success;
    }

    /**
     * `_ReloadShader`, given whether the layout, the pipeline and (for the BRDF lookup
     * table) the one-time command buffer are created: nothing to do when clean or without
     * stages; a failure keeps the pipeline dirty; success clears the flag.
     */
    method ReloadShader(layoutCreated: bool, pipelineCreated: bool, commandBufferCreated: bool) returns (err: Error)
      requires renderingType != NoType
      modifies this`shaderDirty
      ensures !old(shaderDirty) || stages == [] ==> err == Success && shaderDirty == old(shaderDirty)
      ensures old(shaderDirty) && stages != [] ==>
        && (err == Success <==> layoutCreated && (pipelineType == RayTracingPipeline || pipelineCreated) && (renderingType == BRDF_LUT ==> commandBufferCreated))
        && shaderDirty == (err != Success)
      ensures err == Success || err == Failure
    {
      if !shaderDirty || stages == [] {
        return Success;
      }
      if !layoutCreated {
        return Failure;
      }
      if pipelineType == GraphicsPipeline || pipelineType == ComputePipeline {
        if !pipelineCreated {
          return Failure;
        }
      }
      if renderingType == BRDF_LUT && !commandBufferCreated {
        return Failure;
      }
      shaderDirty := false;
      return Success;
    }

    /** `LoadShaders`: open, then rebuild. */
    method LoadShaders(openable: set<string>, layoutCreated: bool, pipelineCreated: bool, commandBufferCreated: bool) returns (err: Error)
      requires renderingType != NoType
      modifies this`stages, this`pipelineType, this`shaderDirty
      ensures stages == OpenedStages(shaderPaths, openable)
      ensures err == Success ==> AllLoad(shaderPaths, openable) && !HasDuplicate(stages)
      ensures err == Success && stages != [] ==> !shaderDirty
    {
      err := OpenShaders(openable);
      if err != Success {
        return Failure;
      }
      err := ReloadShader(layoutCreated, pipelineCreated, commandBufferCreated);
    }

    /** The collecting loop of `_LoadShader`: appends the kept entries' paths. */
    method CollectShaderPaths(entries: seq<Entry>, basePath: string, name: string)
      modifies this`shaderPaths
      ensures shaderPaths == old(shaderPaths) + Matching(entries, basePath, name)
    {
      hide Keeps;
      var i := 0;
      while i < |entries|
        invariant 0 <= i <= |entries|
        invariant shaderPaths + Matching(entries[i..], basePath, name) == old(shaderPaths) + Matching(entries, basePath, name)
      {
        assert entries[i..][0] == entries[i] && entries[i..][1..] == entries[i + 1..];
        var kept := if Keeps(entries[i], basePath, name) then [entries[i].path] else [];
        assert shaderPaths + (kept + Matching(entries[i + 1..], basePath, name)) == (shaderPaths + kept) + Matching(entries[i + 1..], basePath, name);
        shaderPaths := shaderPaths + kept;
        i := i + 1;
      }
    }

    /**
     * `_LoadShader(name)` over the entries below `<shaders>/compiled/`: no shader found
     * is a failure; otherwise the shaders are loaded.
     */
    method LoadShaderByName(name: string, basePath: string, entries: seq<Entry>, openable: set<string>, layoutCreated: bool, pipelineCreated: bool, commandBufferCreated: bool) returns (err: Error)
      requires renderingType != NoType
      modifies this`shaderPaths, this`stages, this`pipelineType, this`shaderDirty
      ensures shaderPaths == old(shaderPaths) + Matching(entries, basePath, name)
      ensures shaderPaths == [] ==> err == Failure && stages == old(stages)
      ensures err == Success ==> AllLoad(shaderPaths, openable) && !HasDuplicate(stages)
    {
      CollectShaderPaths(entries, basePath, name);
      if shaderPaths == [] {
        return Failure;
      }
      err := LoadShaders(openable, layoutCreated, pipelineCreated, commandBufferCreated);
    }
  }
}
