/**
 * The shader build script resources/compile_shaders.rb: it collects HLSL,
 * GLSL and Metal sources, drops those under an `old/` directory, derives
 * output paths and shader stages from file names, and runs one external
 * compiler command per file depending on the verb given on the command line.
 *
 * The script's effects are modelled as a trace of events; `system` calls
 * become `Exec` events whose exit status the script never reads.
 */
module CompileShaders {
  import opened VenomError
  import opened Strings
  import opened RubyText

  const HlslDir := "./resources/shaders/hlsl"
  const GlslDir := "./resources/shaders/glsl"
  const MetalDir := "./resources/shaders/msl"
  const CompiledDebugDir := "./resources/shaders/Debug/compiled"
  const CompiledReleaseDir := "./resources/shaders/Release/compiled"
  const DxcReleaseFolder := "./cmake_build/dxc/Release/bin"
  const DxcFallbackFolder := "./cmake_build/dxc/bin"
  const GlslangValidatorPath := "/usr/local/bin/glslangValidator"
  const GlslcPath := "/usr/local/bin/glslc"
  const XcrunPath := "/usr/bin/xcrun"
  const UsageMessage := "Unknown command. Use \"clean\" to remove compiled shaders or \"compile\" to compile shaders."

  /** The external programs the script starts; `CommandLine` gives the exact shell text. */
  datatype Command =
    | Dxc(dxc: string, profile: string, file: string, output: string, macosFlag: string)
    | Metal(sdk: string, output: string, file: string)
    | GlslangValidator(file: string, output: string, macosFlag: string)
    | Glslc(stage: string, file: string, output: string, macosFlag: string)

  function CommandLine(c: Command): string {
    match c
    case Dxc(dxc, profile, file, output, flag) =>
      dxc + " -T " + profile + " -spirv " + file + " -Fo " + output + " -O1 -Zi " + flag + " -Fh " + output + ".pdb"
    case Metal(sdk, output, file) => XcrunPath + " -sdk " + sdk + " metal -o " + output + " " + file
    case GlslangValidator(file, output, flag) => GlslangValidatorPath + " -V " + file + " -o " + output + " -U" + flag
    case Glslc(stage, file, output, flag) => GlslcPath + " -fshader-stage=" + stage + " -O " + file + " -o " + output + " -D" + flag
  }

  /** The lines the script prints; `MessageText` gives the exact text. */
  datatype Message =
    | DxcMissing
    | Cleaning
    | Usage
    | Compiling(file: string, output: string)
    | CompilingWith(file: string, output: string, command: Command)
    | CompilingRelease(file: string, output: string, command: Command)
    | UnknownShaderType(file: string)

  function MessageText(m: Message): string {
    match m
    case DxcMissing => "DXC path does not exist at " + DxcFallbackFolder + ". Please ensure DXC is built (by using 'make dxc')."
    case Cleaning => "Cleaning compiled shaders..."
    case Usage => UsageMessage
    case Compiling(file, output) => "Compiling " + file + " to " + output + "..."
    case CompilingWith(file, output, c) => "Compiling " + file + " to " + output + "... [" + CommandLine(c) + "]"
    case CompilingRelease(file, output, c) => "Compiling in release mode: " + file + " to " + output + "... [" + CommandLine(c) + "]"
    case UnknownShaderType(file) => "Unknown shader type for " + file
  }

  /** What the script does to the outside world, in order. */
  datatype Event =
    | MakeDir(path: string)
    | RemoveTree(path: string)
    | Say(message: Message)
    | Exec(command: Command)
    | Exit
    | Raise(error: Message)

  /** A Ruby value or an unrescued exception. */
  datatype Outcome<T> = Value(value: T) | Raised(error: Message)

  /** What the script reads from its environment: the three glob results and two directory tests. */
  datatype Environment = Environment(
    hlslGlob: seq<string>,
    glslGlob: seq<string>,
    metalGlob: seq<string>,
    dxcReleaseExists: bool,
    dxcFallbackExists: bool,
    darwin: bool)

  /** `files.reject { |file| file.include?('old/') }`. */
  function WithoutOld(files: seq<string>): (r: seq<string>)
    ensures |r| <= |files|
    ensures forall f | f in r :: f in files && !Contains(f, "old/")
    ensures forall f | f in files && !Contains(f, "old/") :: f in r
  {
    if files == [] then []
    else if Contains(files[0], "old/") then WithoutOld(files[1..])
    else [files[0]] + WithoutOld(files[1..])
  }

  /**
   * The filter works file by file, so the kept paths stay in glob order: filtering a
   * concatenation filters each part.
   */
  lemma {:induction false} WithoutOldAppend(a: seq<string>, b: seq<string>)
    ensures WithoutOld(a + b) == WithoutOld(a) + WithoutOld(b)
  {
    if a != [] {
      assert (a + b)[0] == a[0];
      assert (a + b)[1..] == a[1..] + b;
      WithoutOldAppend(a[1..], b);
    } else {
      assert a + b == b;
    }
  }

  /** The source root whose prefix is stripped, chosen by the first extension the path mentions. */
  function FamilyRoot(file: string): Option<string> {
    if Contains(file, ".hlsl") then Some(HlslDir)
    else if Contains(file, ".glsl") then Some(GlslDir)
    else if Contains(file, ".metal") then Some(MetalDir)
    else None
  }

  /** `subdir` before the nesting test: the path with its family root removed once. */
  function SubPath(file: string): string {
    match FamilyRoot(file)
    case Some(root) => RemoveFirst(file, root)
    case None => ""
  }

  /** The output file name: one dot-field for Metal, two for the other languages, then the extension. */
  function Leaf(file: string, extension: string): string {
    var parts := Split(Basename(file), '.');
    if Contains(file, ".metal") then Interpolate(At(parts, 0)) + extension
    else Interpolate(At(parts, 0)) + "." + Interpolate(At(parts, 1)) + extension
  }

  /** An output path and the directory `mkdir_p` creates on the way, if any. */
  datatype OutputName = OutputName(path: string, createdDir: Option<string>)

  /** `output_file_create_name(file, dir, extension)`. */
  function OutputFileCreateName(file: string, dir: string, extension: string): OutputName {
    var subdir := SubPath(file);
    if CountChar(subdir, '/') > 1 then
      var kept := Interpolate(At(Split(subdir, '/'), 1));
      OutputName(dir + "/" + kept + "/" + Leaf(file, extension), Some(dir + "/" + kept))
    else
      OutputName(dir + "/" + Leaf(file, extension), None)
  }

  /** `filename_parts[filename_parts.length - 2]`: nil when the basename has no field at all. */
  function StageToken(file: string): Option<string> {
    var parts := Split(Basename(file), '.');
    At(parts, |parts| - 2)
  }

  /** `case stage when /vs/, /vertex/, /vert/ ... when /ps/ ... when /cs/ ...`: the first match wins. */
  function HlslProfile(stage: Option<string>): Option<string> {
    match stage
    case None => None
    case Some(s) =>
      if Contains(s, "vs") || Contains(s, "vertex") || Contains(s, "vert") then Some("vs_6_0")
      else if Contains(s, "ps") || Contains(s, "pixel") || Contains(s, "frag") || Contains(s, "fs") then Some("ps_6_0")
      else if Contains(s, "cs") || Contains(s, "compute") || Contains(s, "comp") then Some("cs_6_0")
      else None
  }

  /** `shader_type(file)`. */
  function ShaderType(file: string): Outcome<string> {
    match HlslProfile(StageToken(file))
    case Some(profile) => Value(profile)
    case None => Raised(UnknownShaderType(file))
  }

  function GlslStage(stage: Option<string>): Option<string> {
    match stage
    case None => None
    case Some(s) =>
      if Contains(s, "vert") then Some("vert")
      else if Contains(s, "frag") then Some("frag")
      else if Contains(s, "comp") then Some("comp")
      else None
  }

  /** `shader_type_glsl(file)`. */
  function ShaderTypeGlsl(file: string): Outcome<string> {
    match GlslStage(StageToken(file))
    case Some(stage) => Value(stage)
    case None => Raised(UnknownShaderType(file))
  }

  function MacosFlag(darwin: bool): string { if darwin then "MACOS" else "" }

  function MakeDirs(o: OutputName): seq<Event> {
    if o.createdDir.Some? then [MakeDir(o.createdDir.value)] else []
  }

  /** What one loop iteration computes before it prints and runs anything. */
  datatype Planned = Planned(file: string, output: OutputName, stage: Outcome<string>)

  /** `compile_debug`: output in the debug directory, HLSL profile. */
  function DebugPlans(files: seq<string>): seq<Planned> {
    seq(|files|, i requires 0 <= i < |files| =>
      Planned(files[i], OutputFileCreateName(files[i], CompiledDebugDir, ".spv"), ShaderType(files[i])))
  }

  /** The release loop of `compile_glsl`: output in the release directory, GLSL stage. */
  function ReleasePlans(files: seq<string>): seq<Planned> {
    seq(|files|, i requires 0 <= i < |files| =>
      Planned(files[i], OutputFileCreateName(files[i], CompiledReleaseDir, ".spv"), ShaderTypeGlsl(files[i])))
  }

  /** The events of one `compile_debug` iteration, and whether it raised. */
  function DebugStep(p: Planned, dxc: string, flag: string): (seq<Event>, bool) {
    match p.stage
    case Raised(m) => (MakeDirs(p.output) + [Raise(m)], true)
    case Value(t) => (MakeDirs(p.output) + [Say(Compiling(p.file, p.output.path)), Exec(Dxc(dxc, t, p.file, p.output.path, flag))], false)
  }

  function DebugTrace(plans: seq<Planned>, dxc: string, flag: string): seq<Event> {
    if plans == [] then []
    else
      var (events, raised) := DebugStep(plans[0], dxc, flag);
      events + if raised then [] else DebugTrace(plans[1..], dxc, flag)
  }

  /** Both Metal outputs of one source: for macOS and for iOS. */
  datatype MetalTargets = MetalTargets(file: string, output: OutputName, outputIos: OutputName)

  function MetalPlans(files: seq<string>): seq<MetalTargets> {
    seq(|files|, i requires 0 <= i < |files| =>
      MetalTargets(files[i], OutputFileCreateName(files[i], MetalDir, ".metallib"),
                   OutputFileCreateName(files[i], MetalDir, "_ios.metallib")))
  }

  function MslStep(t: MetalTargets): seq<Event> {
    var cmd := Metal("macosx", t.output.path, t.file);
    var cmd1 := Metal("iphoneos", t.outputIos.path, t.file);
    MakeDirs(t.output) + MakeDirs(t.outputIos)
      + [Say(CompilingWith(t.file, t.output.path, cmd)), Exec(cmd), Say(CompilingWith(t.file, t.outputIos.path, cmd1)), Exec(cmd1)]
  }

  function MslTrace(targets: seq<MetalTargets>): seq<Event> {
    if targets == [] then [] else MslStep(targets[0]) + MslTrace(targets[1..])
  }

  /** The debug loop of `compile_glsl` needs no stage: only the file and its output. */
  datatype Target = Target(file: string, output: OutputName)

  function GlslDebugPlans(files: seq<string>): seq<Target> {
    seq(|files|, i requires 0 <= i < |files| => Target(files[i], OutputFileCreateName(files[i], CompiledDebugDir, ".spv")))
  }

  function GlslDebugStep(t: Target, flag: string): seq<Event> {
    var cmd := GlslangValidator(t.file, t.output.path, flag);
    MakeDirs(t.output) + [Say(CompilingWith(t.file, t.output.path, cmd)), Exec(cmd)]
  }

  function GlslDebugTrace(targets: seq<Target>, flag: string): seq<Event> {
    if targets == [] then [] else GlslDebugStep(targets[0], flag) + GlslDebugTrace(targets[1..], flag)
  }

  function GlslReleaseStep(p: Planned, flag: string): (seq<Event>, bool) {
    match p.stage
    case Raised(m) => (MakeDirs(p.output) + [Raise(m)], true)
    case Value(stage) =>
      var cmd := Glslc(stage, p.file, p.output.path, flag);
      (MakeDirs(p.output) + [Say(CompilingRelease(p.file, p.output.path, cmd)), Exec(cmd)], false)
  }

  function GlslReleaseTrace(plans: seq<Planned>, flag: string): seq<Event> {
    if plans == [] then []
    else
      var (events, raised) := GlslReleaseStep(plans[0], flag);
      events + if raised then [] else GlslReleaseTrace(plans[1..], flag)
  }

  /** Everything the script does before it looks at its verb. */
  function Prelude(env: Environment): seq<Event> {
    if !env.dxcReleaseExists && !env.dxcFallbackExists then
      [MakeDir(CompiledDebugDir),
       Say(DxcMissing),
       Exit]
    else [MakeDir(CompiledDebugDir)]
  }

  function DxcPath(env: Environment): string {
    (if env.dxcReleaseExists then DxcReleaseFolder else DxcFallbackFolder) + "/dxc"
  }

  /** What the `case ARGV[0]` dispatch does once a dxc executable was found. */
  function VerbEvents(verb: Option<string>, env: Environment): seq<Event> {
    var flag := MacosFlag(env.darwin);
    if verb == Some("clean") then
      [Say(Cleaning), RemoveTree(CompiledDebugDir), Exit]
    else if verb == Some("compile_debug") then
      DebugTrace(DebugPlans(WithoutOld(env.hlslGlob)), DxcPath(env), flag)
    else if verb == Some("compile_msl") then
      MslTrace(MetalPlans(WithoutOld(env.metalGlob)))
    else if verb == Some("compile_glsl") || verb == Some("compile") then
      var glsl := WithoutOld(env.glslGlob);
      GlslDebugTrace(GlslDebugPlans(glsl), flag) + GlslReleaseTrace(ReleasePlans(glsl), flag)
    else
      [Say(Usage), Exit]
  }

  /** The whole run for `ARGV[0]` (None when no argument is given). */
  function Script(verb: Option<string>, env: Environment): seq<Event> {
    if !env.dxcReleaseExists && !env.dxcFallbackExists then Prelude(env)
    else Prelude(env) + VerbEvents(verb, env)
  }

  /**
   * The `compile_debug` loop over the HLSL files, given what each iteration computes first;
   * stops at the first unrescued raise.
   */
  method CompileDebug(plans: seq<Planned>, dxc: string, flag: string) returns (trace: seq<Event>)
    ensures trace == DebugTrace(plans, dxc, flag)
  {
    trace := [];
    var i := 0;
    while i < |plans|
      invariant 0 <= i <= |plans|
      invariant trace + DebugTrace(plans[i..], dxc, flag) == DebugTrace(plans, dxc, flag)
    {
      var (events, raised) := DebugStep(plans[i], dxc, flag);
      DebugTraceAt(plans, i, dxc, flag);
      if raised {
        trace := trace + events;
        return;
      }
      AppendAssoc(trace, events, DebugTrace(plans[i + 1..], dxc, flag));
      trace := trace + events;
      i := i + 1;
    }
  }

  lemma DebugTraceAt(plans: seq<Planned>, i: nat, dxc: string, flag: string)
    requires i < |plans|
    ensures DebugTrace(plans[i..], dxc, flag) ==
      DebugStep(plans[i], dxc, flag).0 + if DebugStep(plans[i], dxc, flag).1 then [] else DebugTrace(plans[i + 1..], dxc, flag)
  {
    assert plans[i..][0] == plans[i] && plans[i..][1..] == plans[i + 1..];
  }

  lemma AppendAssoc<T>(a: seq<T>, b: seq<T>, c: seq<T>)
    ensures a + (b + c) == (a + b) + c
  {
  }

  /** The `compile_msl` loop: two Metal compilations per file. */
  method CompileMsl(targets: seq<MetalTargets>) returns (trace: seq<Event>)
    ensures trace == MslTrace(targets)
  {
    trace := [];
    for i := 0 to |targets|
      invariant trace + MslTrace(targets[i..]) == MslTrace(targets)
    {
      MslTraceAt(targets, i);
      AppendAssoc(trace, MslStep(targets[i]), MslTrace(targets[i + 1..]));
      trace := trace + MslStep(targets[i]);
    }
  }

  lemma MslTraceAt(targets: seq<MetalTargets>, i: nat)
    requires i < |targets|
    ensures MslTrace(targets[i..]) == MslStep(targets[i]) + MslTrace(targets[i + 1..])
  {
    assert targets[i..][0] == targets[i] && targets[i..][1..] == targets[i + 1..];
  }

  /** The first `compile_glsl` loop: a debug compilation for every GLSL file. */
  method CompileGlslDebug(targets: seq<Target>, flag: string) returns (trace: seq<Event>)
    ensures trace == GlslDebugTrace(targets, flag)
  {
    trace := [];
    for i := 0 to |targets|
      invariant trace + GlslDebugTrace(targets[i..], flag) == GlslDebugTrace(targets, flag)
    {
      GlslDebugTraceAt(targets, i, flag);
      AppendAssoc(trace, GlslDebugStep(targets[i], flag), GlslDebugTrace(targets[i + 1..], flag));
      trace := trace + GlslDebugStep(targets[i], flag);
    }
  }

  lemma GlslDebugTraceAt(targets: seq<Target>, i: nat, flag: string)
    requires i < |targets|
    ensures GlslDebugTrace(targets[i..], flag) == GlslDebugStep(targets[i], flag) + GlslDebugTrace(targets[i + 1..], flag)
  {
    assert targets[i..][0] == targets[i] && targets[i..][1..] == targets[i + 1..];
  }

  /** The second `compile_glsl` loop: release compilations up to the first unrescued raise. */
  method CompileGlslRelease(plans: seq<Planned>, flag: string) returns (trace: seq<Event>)
    ensures trace == GlslReleaseTrace(plans, flag)
  {
    trace := [];
    var i := 0;
    while i < |plans|
      invariant 0 <= i <= |plans|
      invariant trace + GlslReleaseTrace(plans[i..], flag) == GlslReleaseTrace(plans, flag)
    {
      var (events, raised) := GlslReleaseStep(plans[i], flag);
      GlslReleaseTraceAt(plans, i, flag);
      if raised {
        trace := trace + events;
        return;
      }
      AppendAssoc(trace, events, GlslReleaseTrace(plans[i + 1..], flag));
      trace := trace + events;
      i := i + 1;
    }
  }

  lemma GlslReleaseTraceAt(plans: seq<Planned>, i: nat, flag: string)
    requires i < |plans|
    ensures GlslReleaseTrace(plans[i..], flag) ==
      GlslReleaseStep(plans[i], flag).0 + if GlslReleaseStep(plans[i], flag).1 then [] else GlslReleaseTrace(plans[i + 1..], flag)
  {
    assert plans[i..][0] == plans[i] && plans[i..][1..] == plans[i + 1..];
  }

  /** The script itself: the DXC folder test, then the verb dispatch. */
  method Run(verb: Option<string>, env: Environment) returns (trace: seq<Event>)
    ensures trace == Script(verb, env)
  {
    trace := [MakeDir(CompiledDebugDir)];
    var dxc := DxcReleaseFolder + "/dxc";
    if !env.dxcReleaseExists {
      dxc := DxcFallbackFolder + "/dxc";
      if !env.dxcFallbackExists {
        trace := trace + [Say(DxcMissing), Exit];
        return;
      }
    }
    var rest := Dispatch(verb, env, dxc);
    trace := trace + rest;
  }

  /** The `case ARGV[0]` statement. */
  method Dispatch(verb: Option<string>, env: Environment, dxc: string) returns (rest: seq<Event>)
    requires dxc == DxcPath(env)
    ensures rest == VerbEvents(verb, env)
  {
    var hlsl := WithoutOld(env.hlslGlob);
    var glsl := WithoutOld(env.glslGlob);
    var metal := WithoutOld(env.metalGlob);
    var flag := MacosFlag(env.darwin);
    if verb == Some("clean") {
      rest := [Say(Cleaning), RemoveTree(CompiledDebugDir), Exit];
    } else if verb == Some("compile_debug") {
      rest := CompileDebug(DebugPlans(hlsl), dxc, flag);
    } else if verb == Some("compile_msl") {
      rest := CompileMsl(MetalPlans(metal));
    } else if verb == Some("compile_glsl") || verb == Some("compile") {
      var debug := CompileGlslDebug(GlslDebugPlans(glsl), flag);
      var release := CompileGlslRelease(ReleasePlans(glsl), flag);
      rest := debug + release;
    } else {
      rest := [Say(Usage), Exit];
    }
  }

  // ---------------------------------------------------------------------
  // Output paths

  /** Removing the family root from a path that starts with it leaves the rest of the path. */
  lemma SubPathOfRooted(file: string, root: string)
    requires FamilyRoot(file) == Some(root) && IsPrefix(root, file)
    ensures SubPath(file) == file[|root|..]
  {
    RemoveFirstPrefix(file, root);
  }

  lemma NestedSubPathSplit(d: string, rest: string)
    requires d != "" && '/' !in d
    ensures CountChar("/" + d + "/" + rest, '/') > 1
    ensures At(Split("/" + d + "/" + rest, '/'), 1) == Some(d)
  {
    var sub := "/" + d + "/" + rest;
    CountCharAppend("/" + d + "/", rest, '/');
    CountCharAppend("/" + d, "/", '/');
    CountCharAppend("/", d, '/');
    assert sub == [] + ['/'] + (d + ['/'] + rest);
    SplitAllJoin([], d + ['/'] + rest, '/');
    SplitAllJoin(d, rest, '/');
    SplitAllNoSeparator(d, '/');
    var fields := SplitAll(sub, '/');
    assert fields == [""] + ([d] + SplitAll(rest, '/'));
    assert fields[1] == d;
    DropTrailingKeeps(fields, 1);
  }

  /** A source two or more directories below its root keeps only the first directory. */
  lemma NestedOutputKeepsFirstDirectory(file: string, root: string, dir: string, d: string, rest: string, extension: string)
    requires FamilyRoot(file) == Some(root)
    requires file == root + "/" + d + "/" + rest
    requires d != "" && '/' !in d
    ensures OutputFileCreateName(file, dir, extension)
         == OutputName(dir + "/" + d + "/" + Leaf(file, extension), Some(dir + "/" + d))
  {
    assert file == root + ("/" + d + "/" + rest);
    SubPathOfRooted(file, root);
    assert SubPath(file) == "/" + d + "/" + rest;
    NestedSubPathSplit(d, rest);
  }

  /** A source directly in its root is written directly into the output directory, creating nothing. */
  lemma FlatOutputInOutputDir(file: string, root: string, dir: string, name: string, extension: string)
    requires FamilyRoot(file) == Some(root)
    requires file == root + "/" + name
    requires '/' !in name
    ensures OutputFileCreateName(file, dir, extension) == OutputName(dir + "/" + Leaf(file, extension), None)
  {
    RemoveFirstPrefix(file, root);
    assert file[|root|..] == "/" + name;
    CountCharAppend("/", name, '/');
    CountCharAbsent(name, '/');
  }

  /** The first two dot-fields of a name with at least two dots. */
  lemma SplitTwoFields(b: string, s0: string, s1: string, tail: string)
    requires b == s0 + "." + s1 + "." + tail
    requires s0 != "" && s1 != "" && '.' !in s0 && '.' !in s1
    ensures |Split(b, '.')| >= 2 && Split(b, '.')[0] == s0 && Split(b, '.')[1] == s1
  {
    assert b == s0 + ['.'] + (s1 + ['.'] + tail);
    SplitAllJoin(s0, s1 + ['.'] + tail, '.');
    SplitAllJoin(s1, tail, '.');
    SplitAllNoSeparator(s0, '.');
    SplitAllNoSeparator(s1, '.');
    var fields := SplitAll(b, '.');
    assert fields == [s0] + [s1] + SplitAll(tail, '.');
    DropTrailingKeeps(fields, 1);
  }

  /** HLSL and GLSL outputs are named by the first two dot-fields of the basename; later fields are lost. */
  lemma LeafKeepsTwoFields(file: string, dir: string, s0: string, s1: string, tail: string, extension: string)
    requires !Contains(file, ".metal")
    requires file == dir + "/" + s0 + "." + s1 + "." + tail
    requires s0 != "" && s1 != "" && '.' !in s0 && '.' !in s1 && '/' !in s0 + "." + s1 + "." + tail
    ensures Leaf(file, extension) == s0 + "." + s1 + extension
  {
    var b := s0 + "." + s1 + "." + tail;
    assert file == dir + "/" + b;
    BasenameAfterSlash(dir, b);
    SplitTwoFields(b, s0, s1, tail);
  }

  /** Metal outputs keep only the first dot-field: the stage token is dropped. */
  lemma MetalLeafDropsStage(file: string, dir: string, s0: string, tail: string, extension: string)
    requires Contains(file, ".metal")
    requires file == dir + "/" + s0 + "." + tail
    requires s0 != "" && '.' !in s0 && '/' !in s0 + "." + tail
    ensures Leaf(file, extension) == s0 + extension
  {
    var b := s0 + "." + tail;
    assert file == dir + "/" + b;
    BasenameAfterSlash(dir, b);
    SplitFirstField(b, s0, tail);
  }

  /** The first dot-field of a name with a non-empty text before its first dot. */
  lemma SplitFirstField(b: string, s0: string, tail: string)
    requires b == s0 + "." + tail
    requires s0 != "" && '.' !in s0
    ensures |Split(b, '.')| >= 1 && Split(b, '.')[0] == s0
  {
    assert b == s0 + ['.'] + tail;
    SplitAllJoin(s0, tail, '.');
    SplitAllNoSeparator(s0, '.');
    DropTrailingKeeps(SplitAll(b, '.'), 0);
  }

  // ---------------------------------------------------------------------
  // Stage tokens and shader profiles

  lemma ContainsLonger(s: string, a: string, b: string)
    requires Contains(s, a + b)
    ensures Contains(s, a)
  {
    FindFromCorrect(s, a + b, 0);
    var i := Find(s, a + b).value;
    assert s[i..i + |a|] == (a + b)[..|a|];
    ContainsAt(s, a, i);
  }

  /** The stage token is the second-to-last dot-field of the basename. */
  lemma {:induction false} StageTokenIsSecondToLast(file: string, dir: string, stem: string, token: string, ext: string)
    requires file == dir + "/" + stem + "." + token + "." + ext
    requires ext != "" && '.' !in token && '.' !in ext && '/' !in stem + "." + token + "." + ext
    ensures StageToken(file) == Some(token)
  {
    var b := stem + "." + token + "." + ext;
    assert file == dir + "/" + b;
    BasenameAfterSlash(dir, b);
    assert b == (stem + ['.'] + token) + ['.'] + ext;
    SplitAllJoin(stem + ['.'] + token, ext, '.');
    SplitAllJoin(stem, token, '.');
    SplitAllNoSeparator(token, '.');
    SplitAllNoSeparator(ext, '.');
    var fields := SplitAll(b, '.');
    assert fields == SplitAll(stem, '.') + [token] + [ext];
    assert Split(b, '.') == fields;
  }

  /** A name with exactly one dot splits into the two sides. */
  lemma SplitOneDot(b: string, stem: string, ext: string)
    requires b == stem + "." + ext
    requires stem != "" && ext != "" && '.' !in stem && '.' !in ext
    ensures Split(b, '.') == [stem, ext]
  {
    assert b == stem + ['.'] + ext;
    SplitAllJoin(stem, ext, '.');
    SplitAllNoSeparator(stem, '.');
    SplitAllNoSeparator(ext, '.');
  }

  /** With a single dot the stage token is the name in front of it: `vertex.hlsl` has stage `vertex`. */
  lemma StageTokenOfSingleDot(file: string, dir: string, stem: string, ext: string)
    requires file == dir + "/" + stem + "." + ext
    requires stem != "" && ext != "" && '.' !in stem && '.' !in ext && '/' !in stem + "." + ext
    ensures StageToken(file) == Some(stem)
  {
    var b := stem + "." + ext;
    assert file == dir + "/" + b;
    BasenameAfterSlash(dir, b);
    SplitOneDot(b, stem, ext);
  }


  /**
   * The HLSL profile in plain terms: `/vertex/` and `/compute/` never decide anything
   * because `/vert/` and `/comp/` already match them; the earlier group always wins.
   */
  lemma HlslProfileMeaning(s: string)
    ensures HlslProfile(Some(s)) == Some("vs_6_0") <==> Contains(s, "vs") || Contains(s, "vert")
    ensures HlslProfile(Some(s)) == Some("ps_6_0")
        <==> (!(Contains(s, "vs") || Contains(s, "vert"))
          && (Contains(s, "ps") || Contains(s, "pixel") || Contains(s, "frag") || Contains(s, "fs")))
    ensures HlslProfile(Some(s)) == Some("cs_6_0")
        <==> (!(Contains(s, "vs") || Contains(s, "vert"))
          && !(Contains(s, "ps") || Contains(s, "pixel") || Contains(s, "frag") || Contains(s, "fs"))
          && (Contains(s, "cs") || Contains(s, "comp")))
    ensures HlslProfile(Some(s)).None?
        <==> (!Contains(s, "vs") && !Contains(s, "vert") && !Contains(s, "ps") && !Contains(s, "pixel")
          && !Contains(s, "frag") && !Contains(s, "fs") && !Contains(s, "cs") && !Contains(s, "comp"))
  {
    if Contains(s, "vertex") {
      assert "vertex" == "vert" + "ex";
      ContainsLonger(s, "vert", "ex");
    }
    if Contains(s, "compute") {
      assert "compute" == "comp" + "ute";
      ContainsLonger(s, "comp", "ute");
    }
  }

  // ---------------------------------------------------------------------
  // Verb dispatch

  /** Without either DXC folder the script stops before it looks at its verb, even for `clean`. */
  lemma DxcCheckPrecedesEveryVerb(verb: Option<string>, env: Environment)
    requires !env.dxcReleaseExists && !env.dxcFallbackExists
    ensures Script(verb, env) == [MakeDir(CompiledDebugDir), Say(DxcMissing), Exit]
  {
  }

  /** `compile` is an alias of `compile_glsl`. */
  lemma CompileIsCompileGlsl(env: Environment)
    ensures Script(Some("compile"), env) == Script(Some("compile_glsl"), env)
  {
  }

  predicate KnownVerb(verb: Option<string>) {
    verb == Some("clean") || verb == Some("compile_debug") || verb == Some("compile_msl")
    || verb == Some("compile_glsl") || verb == Some("compile")
  }

  /** Any other verb, or none, prints the usage line and exits without touching a shader. */
  lemma UnknownVerbPrintsUsage(verb: Option<string>, env: Environment)
    requires env.dxcReleaseExists || env.dxcFallbackExists
    requires !KnownVerb(verb)
    ensures Script(verb, env) == [MakeDir(CompiledDebugDir), Say(Usage), Exit]
  {
  }

  /** Number of external commands started. */
  function ExecCount(events: seq<Event>): nat {
    if events == [] then 0 else (if events[0].Exec? then 1 else 0) + ExecCount(events[1..])
  }

  lemma {:induction false} ExecCountAppend(a: seq<Event>, b: seq<Event>)
    ensures ExecCount(a + b) == ExecCount(a) + ExecCount(b)
  {
    if a != [] {
      assert (a + b)[1..] == a[1..] + b;
      ExecCountAppend(a[1..], b);
    } else {
      assert a + b == b;
    }
  }

  lemma ReleaseStepExecs(p: Planned, flag: string)
    ensures ExecCount(GlslReleaseStep(p, flag).0) == if p.stage.Raised? then 0 else 1
    ensures GlslReleaseStep(p, flag).1 <==> p.stage.Raised?
    ensures p.stage.Raised? ==> Last(GlslReleaseStep(p, flag).0) == Raise(p.stage.error)
  {
    match p.stage
    case Raised(m) =>
      ExecCountAppend(MakeDirs(p.output), [Raise(m)]);
    case Value(stage) =>
      var cmd := Glslc(stage, p.file, p.output.path, flag);
      var tail := [Say(CompilingRelease(p.file, p.output.path, cmd)), Exec(cmd)];
      assert GlslReleaseStep(p, flag).0 == MakeDirs(p.output) + tail;
      ExecCountAppend(MakeDirs(p.output), tail);
      assert ExecCount(MakeDirs(p.output)) == 0;
      ExecCountAppend([Say(CompilingRelease(p.file, p.output.path, cmd))], [Exec(cmd)]);
  }

  function Last(events: seq<Event>): Event requires events != [] { events[|events| - 1] }

  /**
   * An unknown GLSL stage in release mode is not rescued: the run ends with that raise, and
   * only the files before it were compiled in release mode.
   */
  lemma {:induction false} ReleaseStopsAtFirstUnknownStage(plans: seq<Planned>, flag: string, k: nat)
    requires k < |plans| && plans[k].stage.Raised?
    requires forall j :: 0 <= j < k ==> plans[j].stage.Value?
    ensures GlslReleaseTrace(plans, flag) != []
    ensures Last(GlslReleaseTrace(plans, flag)) == Raise(plans[k].stage.error)
    ensures ExecCount(GlslReleaseTrace(plans, flag)) == k
  {
    ReleaseStepExecs(plans[0], flag);
    var (events, raised) := GlslReleaseStep(plans[0], flag);
    if k == 0 {
      assert GlslReleaseTrace(plans, flag) == events;
    } else {
      var rest := GlslReleaseTrace(plans[1..], flag);
      ReleaseStopsAtFirstUnknownStage(plans[1..], flag, k - 1);
      assert GlslReleaseTrace(plans, flag) == events + rest;
      ExecCountAppend(events, rest);
    }
  }

  /** When every GLSL stage is known, every file is compiled once in release mode and nothing raises. */
  lemma {:induction false} ReleaseCompilesEveryKnownStage(plans: seq<Planned>, flag: string)
    requires forall j :: 0 <= j < |plans| ==> plans[j].stage.Value?
    ensures ExecCount(GlslReleaseTrace(plans, flag)) == |plans|
    ensures forall e | e in GlslReleaseTrace(plans, flag) :: !e.Raise?
  {
    if plans != [] {
      ReleaseStepExecs(plans[0], flag);
      var (events, raised) := GlslReleaseStep(plans[0], flag);
      var rest := GlslReleaseTrace(plans[1..], flag);
      ReleaseCompilesEveryKnownStage(plans[1..], flag);
      assert GlslReleaseTrace(plans, flag) == events + rest;
      ExecCountAppend(events, rest);
    }
  }

  // ---------------------------------------------------------------------
  // The commands each loop starts

  /** The external commands a trace starts, in order. */
  function Execs(events: seq<Event>): seq<Command> {
    if events == [] then [] else (if events[0].Exec? then [events[0].command] else []) + Execs(events[1..])
  }

  lemma {:induction false} ExecsAppend(a: seq<Event>, b: seq<Event>)
    ensures Execs(a + b) == Execs(a) + Execs(b)
  {
    if a != [] {
      assert (a + b)[1..] == a[1..] + b;
      ExecsAppend(a[1..], b);
    } else {
      assert a + b == b;
    }
  }

  /** An announcement followed by its command starts exactly that command. */
  lemma ExecsOfAnnounced(m: Message, c: Command)
    ensures Execs([Say(m), Exec(c)]) == [c]
  {
    var pair := [Say(m), Exec(c)];
    assert pair[1..] == [Exec(c)];
    assert [Exec(c)][1..] == [];
    assert Execs([Exec(c)]) == [c] + Execs([]);
    assert Execs(pair) == [] + Execs(pair[1..]);
  }

  /** Creating an output directory starts no command and raises nothing. */
  lemma MakeDirsThen(o: OutputName, tail: seq<Event>)
    ensures Execs(MakeDirs(o) + tail) == Execs(tail)
    ensures forall e | e in MakeDirs(o) + tail :: e.MakeDir? || e in tail
  {
    ExecsAppend(MakeDirs(o), tail);
  }

  /** The command `compile_debug` starts for a file whose profile is known. */
  function DxcCommand(p: Planned, dxc: string, flag: string): Command
    requires p.stage.Value?
  {
    Dxc(dxc, p.stage.value, p.file, p.output.path, flag)
  }

  lemma DebugStepExecs(p: Planned, dxc: string, flag: string)
    ensures DebugStep(p, dxc, flag).1 <==> p.stage.Raised?
    ensures p.stage.Value? ==> Execs(DebugStep(p, dxc, flag).0) == [DxcCommand(p, dxc, flag)]
    ensures p.stage.Value? ==> forall e | e in DebugStep(p, dxc, flag).0 :: !e.Raise?
    ensures p.stage.Raised? ==> Execs(DebugStep(p, dxc, flag).0) == []
    ensures p.stage.Raised? ==> DebugStep(p, dxc, flag).0 != [] && Last(DebugStep(p, dxc, flag).0) == Raise(p.stage.error)
  {
    match p.stage
    case Raised(m) =>
      MakeDirsThen(p.output, [Raise(m)]);
    case Value(t) =>
      var tail := [Say(Compiling(p.file, p.output.path)), Exec(Dxc(dxc, t, p.file, p.output.path, flag))];
      MakeDirsThen(p.output, tail);
      ExecsOfAnnounced(Compiling(p.file, p.output.path), Dxc(dxc, t, p.file, p.output.path, flag));
  }

  /**
   * `compile_debug` runs dxc with each file's profile, in file order, for every file before
   * the first one whose stage is unknown (index `k`); that file's raise ends the run. When
   * no stage is unknown (`k == |plans|`) every file is compiled and nothing raises.
   */
  lemma {:induction false} DebugCompilesUpToFirstUnknownStage(plans: seq<Planned>, dxc: string, flag: string, k: nat)
    requires k <= |plans|
    requires forall j :: 0 <= j < k ==> plans[j].stage.Value?
    requires k < |plans| ==> plans[k].stage.Raised?
    ensures |Execs(DebugTrace(plans, dxc, flag))| == k
    ensures forall j | 0 <= j < k :: Execs(DebugTrace(plans, dxc, flag))[j] == DxcCommand(plans[j], dxc, flag)
    ensures k < |plans| ==> DebugTrace(plans, dxc, flag) != [] && Last(DebugTrace(plans, dxc, flag)) == Raise(plans[k].stage.error)
    ensures k == |plans| ==> forall e | e in DebugTrace(plans, dxc, flag) :: !e.Raise?
  {
    if plans != [] {
      DebugStepExecs(plans[0], dxc, flag);
      var (events, raised) := DebugStep(plans[0], dxc, flag);
      if k == 0 {
        assert DebugTrace(plans, dxc, flag) == events;
      } else {
        var rest := DebugTrace(plans[1..], dxc, flag);
        DebugCompilesUpToFirstUnknownStage(plans[1..], dxc, flag, k - 1);
        assert DebugTrace(plans, dxc, flag) == events + rest;
        ExecsAppend(events, rest);
        forall j | 0 <= j < k
          ensures Execs(DebugTrace(plans, dxc, flag))[j] == DxcCommand(plans[j], dxc, flag)
        {
          if j > 0 {
            assert plans[1..][j - 1] == plans[j];
          }
        }
      }
    }
  }

  /** The two commands `compile_msl` starts for one source. */
  function MetalCommands(t: MetalTargets): seq<Command> {
    [Metal("macosx", t.output.path, t.file), Metal("iphoneos", t.outputIos.path, t.file)]
  }

  lemma MslStepExecs(t: MetalTargets)
    ensures Execs(MslStep(t)) == MetalCommands(t)
    ensures forall e | e in MslStep(t) :: !e.Raise?
  {
    var cmd := Metal("macosx", t.output.path, t.file);
    var cmd1 := Metal("iphoneos", t.outputIos.path, t.file);
    var first := [Say(CompilingWith(t.file, t.output.path, cmd)), Exec(cmd)];
    var second := [Say(CompilingWith(t.file, t.outputIos.path, cmd1)), Exec(cmd1)];
    var tail := first + second;
    assert MslStep(t) == MakeDirs(t.output) + (MakeDirs(t.outputIos) + tail);
    MakeDirsThen(t.output, MakeDirs(t.outputIos) + tail);
    MakeDirsThen(t.outputIos, tail);
    ExecsAppend(first, second);
    ExecsOfAnnounced(CompilingWith(t.file, t.output.path, cmd), cmd);
    ExecsOfAnnounced(CompilingWith(t.file, t.outputIos.path, cmd1), cmd1);
  }

  /**
   * `compile_msl` compiles every Metal source twice, in file order: the macOS library at
   * index `2i` and the iOS library at `2i + 1`; nothing raises.
   */
  lemma {:induction false} MslCompilesEveryFileTwice(targets: seq<MetalTargets>)
    ensures |Execs(MslTrace(targets))| == 2 * |targets|
    ensures forall i | 0 <= i < |targets| ::
      Execs(MslTrace(targets))[2 * i] == Metal("macosx", targets[i].output.path, targets[i].file)
      && Execs(MslTrace(targets))[2 * i + 1] == Metal("iphoneos", targets[i].outputIos.path, targets[i].file)
    ensures forall e | e in MslTrace(targets) :: !e.Raise?
  {
    if targets != [] {
      MslStepExecs(targets[0]);
      MslCompilesEveryFileTwice(targets[1..]);
      ExecsAppend(MslStep(targets[0]), MslTrace(targets[1..]));
      var all := Execs(MslTrace(targets));
      assert all == MetalCommands(targets[0]) + Execs(MslTrace(targets[1..]));
      forall i | 0 < i < |targets|
        ensures all[2 * i] == Metal("macosx", targets[i].output.path, targets[i].file)
        ensures all[2 * i + 1] == Metal("iphoneos", targets[i].outputIos.path, targets[i].file)
      {
        assert targets[1..][i - 1] == targets[i];
        assert 2 * i == 2 * (i - 1) + 2;
      }
    }
  }

  /** Both Metal outputs of a source go to the Metal directory, as `.metallib` and `_ios.metallib`. */
  lemma MetalOutputsNamed(files: seq<string>, i: nat)
    requires i < |files|
    ensures IsPrefix(MetalDir + "/", MetalPlans(files)[i].output.path)
    ensures IsSuffix(".metallib", MetalPlans(files)[i].output.path)
    ensures IsPrefix(MetalDir + "/", MetalPlans(files)[i].outputIos.path)
    ensures IsSuffix("_ios.metallib", MetalPlans(files)[i].outputIos.path)
  {
    OutputNamed(files[i], MetalDir, ".metallib");
    OutputNamed(files[i], MetalDir, "_ios.metallib");
  }

  /** `output_file_create_name` puts its result below `dir` and ends it with `extension`. */
  lemma OutputNamed(file: string, dir: string, extension: string)
    ensures IsPrefix(dir + "/", OutputFileCreateName(file, dir, extension).path)
    ensures IsSuffix(extension, OutputFileCreateName(file, dir, extension).path)
  {
    var leaf := Leaf(file, extension);
    LeafEndsWith(file, extension);
    hide Leaf, SubPath, Split, Basename, Contains, CountChar, At, Interpolate, FamilyRoot, RemoveFirst;
    if CountChar(SubPath(file), '/') > 1 {
      var kept := Interpolate(At(Split(SubPath(file), '/'), 1));
      assert (kept + "/" + leaf)[|kept + "/" + leaf| - |extension|..] == leaf[|leaf| - |extension|..];
      JoinedBelow(dir + "/", kept + "/" + leaf, extension);
    } else {
      JoinedBelow(dir + "/", leaf, extension);
    }
  }

  lemma LeafEndsWith(file: string, extension: string)
    ensures IsSuffix(extension, Leaf(file, extension))
  {
    var parts := Split(Basename(file), '.');
    var stem := if Contains(file, ".metal") then Interpolate(At(parts, 0))
      else Interpolate(At(parts, 0)) + "." + Interpolate(At(parts, 1));
    assert Leaf(file, extension) == stem + extension;
    assert (stem + extension)[|stem|..] == extension;
  }

  /** A path `head + rest` starts with `head` and ends with whatever `rest` ends with. */
  lemma JoinedBelow(head: string, rest: string, leaf: string)
    requires IsSuffix(leaf, rest)
    ensures IsPrefix(head, head + rest)
    ensures IsSuffix(leaf, head + rest)
  {
    assert (head + rest)[..|head|] == head;
    assert (head + rest)[|head + rest| - |leaf|..] == rest[|rest| - |leaf|..];
  }

  /** The command the first `compile_glsl` loop starts for one file. */
  function ValidatorCommand(t: Target, flag: string): Command {
    GlslangValidator(t.file, t.output.path, flag)
  }

  lemma GlslDebugStepExecs(t: Target, flag: string)
    ensures Execs(GlslDebugStep(t, flag)) == [ValidatorCommand(t, flag)]
    ensures forall e | e in GlslDebugStep(t, flag) :: !e.Raise? && !e.Exit?
  {
    var cmd := ValidatorCommand(t, flag);
    var tail := [Say(CompilingWith(t.file, t.output.path, cmd)), Exec(cmd)];
    MakeDirsThen(t.output, tail);
    ExecsOfAnnounced(CompilingWith(t.file, t.output.path, cmd), cmd);
  }

  /** The first `compile_glsl` loop runs glslangValidator once per file, in file order, and never stops early. */
  lemma {:induction false} GlslDebugCompilesEveryFile(targets: seq<Target>, flag: string)
    ensures |Execs(GlslDebugTrace(targets, flag))| == |targets|
    ensures forall i | 0 <= i < |targets| :: Execs(GlslDebugTrace(targets, flag))[i] == ValidatorCommand(targets[i], flag)
    ensures forall e | e in GlslDebugTrace(targets, flag) :: !e.Raise? && !e.Exit?
  {
    if targets != [] {
      GlslDebugStepExecs(targets[0], flag);
      GlslDebugCompilesEveryFile(targets[1..], flag);
      ExecsAppend(GlslDebugStep(targets[0], flag), GlslDebugTrace(targets[1..], flag));
      forall i | 0 < i < |targets|
        ensures Execs(GlslDebugTrace(targets, flag))[i] == ValidatorCommand(targets[i], flag)
      {
        assert targets[1..][i - 1] == targets[i];
      }
    }
  }
}
