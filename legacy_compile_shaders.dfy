/**
 * The older shader build script assets/shaders/compile_shaders.rb: it compiles the
 * top-level HLSL files of one directory with dxc, choosing the profile from the file
 * name, and supports the verbs `clean` and `compile`.
 *
 * As for the newer script, the run is a trace of events and `system` calls are
 * `Exec` events whose exit status is never read.
 */
module LegacyCompileShaders {
  import opened VenomError
  import opened Strings
  import opened RubyText

  const HlslDir := "./assets/shaders/hlsl"
  const CompiledDir := "./assets/shaders/compiled"
  const DxcPath := "./cmake_build/Release/bin/dxc"

  datatype Message =
    | Cleaning
    | Usage
    | Compiling(file: string, output: string)
    | UnknownShaderType(file: string)

  /** `"#{dxc_path} -T #{type} -spirv #{file} -Fo #{output_file}"`; a nil type interpolates as "". */
  datatype Command = Dxc(profile: string, file: string, output: string)

  datatype Event =
    | MakeDir(path: string)
    | RemoveTree(path: string)
    | Say(message: Message)
    | Exec(command: Command)
    | Exit
    | Raise(error: Message)

  /** A Ruby value or an unrescued exception. */
  datatype Outcome<T> = Value(value: T) | Raised(error: Message)

  /** An entry name the `*.hlsl` glob of the HLSL directory matches: in the directory itself, not hidden. */
  predicate GlobMatches(entry: string) {
    '/' !in entry && IsSuffix(".hlsl", entry) && !(|entry| > 0 && entry[0] == '.')
  }

  /**
   * The glob over the entries of the HLSL directory (relative to it, in the order `Dir.glob`
   * returns them, which Ruby 3 sorts): only the top-level `.hlsl` files, with the directory prefixed.
   */
  function Glob(entries: seq<string>): (r: seq<string>)
    ensures |r| <= |entries|
    ensures forall k | 0 <= k < |r| :: IsPrefix(HlslDir + "/", r[k]) && IsSuffix(".hlsl", r[k])
  {
    if entries == [] then []
    else if GlobMatches(entries[0]) then [HlslDir + "/" + entries[0]] + Glob(entries[1..])
    else Glob(entries[1..])
  }

  lemma {:induction false} GlobExactly(entries: seq<string>)
    ensures forall e | e in entries && GlobMatches(e) :: HlslDir + "/" + e in Glob(entries)
    ensures forall f | f in Glob(entries) :: exists e | e in entries :: GlobMatches(e) && f == HlslDir + "/" + e
  {
    if entries != [] {
      GlobExactly(entries[1..]);
    }
  }

  /** Nothing in a sub-directory of the HLSL directory is collected. */
  lemma OnlyTopLevel(entries: seq<string>, f: string)
    requires f in Glob(entries)
    ensures exists e | e in entries :: '/' !in e && IsSuffix(".hlsl", e) && f == HlslDir + "/" + e
  {
    GlobExactly(entries);
  }

  /**
   * `shader_type(file)`: a `case` on the basename whose first matching `when` wins; the
   * `when /vs_/`, `when /ps_/` and `when /cs_/` branches are empty and give nil.
   */
  function ShaderType(file: string): Outcome<Option<string>> {
    var name := Basename(file);
    if Contains(name, "vs_") then Value(None)
    else if Contains(name, "vertex_") then Value(Some("vs_6_0"))
    else if Contains(name, "ps_") then Value(None)
    else if Contains(name, "pixel_") then Value(Some("ps_6_0"))
    else if Contains(name, "cs_") then Value(None)
    else if Contains(name, "compute_") then Value(Some("cs_6_0"))
    else Raised(UnknownShaderType(file))
  }

  /** The six patterns of the `case`, in order, and what each `when` evaluates to. */
  const Patterns: seq<string> := ["vs_", "vertex_", "ps_", "pixel_", "cs_", "compute_"]
  const Profiles: seq<Option<string>> := [None, Some("vs_6_0"), None, Some("ps_6_0"), None, Some("cs_6_0")]

  /** The index of the first pattern that occurs in `name`. */
  function FirstMatch(name: string, patterns: seq<string>): (r: Option<nat>)
    ensures r.Some? ==> r.value < |patterns| && Contains(name, patterns[r.value])
  {
    if patterns == [] then None
    else if Contains(name, patterns[0]) then Some(0)
    else match FirstMatch(name, patterns[1..])
      case None => None
      case Some(k) => Some(k + 1)
  }

  lemma {:induction false} FirstMatchIsFirst(name: string, patterns: seq<string>)
    ensures FirstMatch(name, patterns).None? ==> forall p | p in patterns :: !Contains(name, p)
    ensures FirstMatch(name, patterns).Some? ==> forall j :: 0 <= j < FirstMatch(name, patterns).value ==> !Contains(name, patterns[j])
  {
    if patterns != [] && !Contains(name, patterns[0]) {
      FirstMatchIsFirst(name, patterns[1..]);
    }
  }

  /** `shader_type` is the `case` semantics: the first matching `when` decides, no match raises. */
  lemma ShaderTypeIsFirstMatch(file: string)
    ensures ShaderType(file) ==
      match FirstMatch(Basename(file), Patterns)
      case None => Raised(UnknownShaderType(file))
      case Some(k) => Value(Profiles[k])
  {
    var name := Basename(file);
    assert Patterns[1..][1..][1..][1..][1..][1..] == [];
    var m5 := FirstMatch(name, Patterns[1..][1..][1..][1..][1..]);
    var m4 := FirstMatch(name, Patterns[1..][1..][1..][1..]);
    var m3 := FirstMatch(name, Patterns[1..][1..][1..]);
    var m2 := FirstMatch(name, Patterns[1..][1..]);
    var m1 := FirstMatch(name, Patterns[1..]);
  }

  /** A name matching none of the patterns raises; one containing `vs_` compiles with an empty profile. */
  lemma ShaderTypeRaises(file: string)
    ensures ShaderType(file).Raised? <==> (forall p | p in Patterns :: !Contains(Basename(file), p))
    ensures Contains(Basename(file), "vs_") ==> ShaderType(file) == Value(None)
  {
    ShaderTypeIsFirstMatch(file);
    FirstMatchIsFirst(Basename(file), Patterns);
  }

  /** `File.basename(path, suffix)`: the suffix is removed unless it is the whole name. */
  function BasenameWithout(path: string, suffix: string): (r: string)
    ensures |r| <= |Basename(path)|
  {
    var name := Basename(path);
    if IsSuffix(suffix, name) && |name| > |suffix| then name[..|name| - |suffix|] else name
  }

  /** `"#{compiled_dir}/#{File.basename(file, '.hlsl')}.spv"`. */
  function OutputFile(file: string): string {
    CompiledDir + "/" + BasenameWithout(file, ".hlsl") + ".spv"
  }

  /** A collected file `dir/stem.hlsl` compiles to `compiled_dir/stem.spv`. */
  lemma OutputFileOfGlobbed(stem: string)
    requires stem != "" && '/' !in stem
    ensures OutputFile(HlslDir + "/" + stem + ".hlsl") == CompiledDir + "/" + stem + ".spv"
  {
    var name := stem + ".hlsl";
    assert HlslDir + "/" + stem + ".hlsl" == HlslDir + "/" + name;
    BasenameAfterSlash(HlslDir, name);
    assert name[..|name| - |".hlsl"|] == stem;
  }

  /** What one iteration of the compile loop computes before it prints or runs anything. */
  datatype Planned = Planned(file: string, output: string, profile: Outcome<Option<string>>)

  function Plans(files: seq<string>): seq<Planned> {
    seq(|files|, i requires 0 <= i < |files| => Planned(files[i], OutputFile(files[i]), ShaderType(files[i])))
  }

  /** The events of one iteration and whether it raised. */
  function Step(p: Planned): (seq<Event>, bool) {
    match p.profile
    case Raised(m) => ([Raise(m)], true)
    case Value(t) => ([Say(Compiling(p.file, p.output)), Exec(Dxc(Interpolate(t), p.file, p.output))], false)
  }

  function CompileTrace(plans: seq<Planned>): seq<Event> {
    if plans == [] then []
    else
      var (events, raised) := Step(plans[0]);
      events + if raised then [] else CompileTrace(plans[1..])
  }

  /** The whole run for `ARGV[0]`, given what the directory holds. */
  function Script(verb: Option<string>, entries: seq<string>): seq<Event> {
    [MakeDir(CompiledDir)] +
      if verb == Some("clean") then [Say(Cleaning), RemoveTree(CompiledDir), Exit]
      else if verb == Some("compile") then CompileTrace(Plans(Glob(entries)))
      else [Say(Usage), Exit]
  }

  /** `hlsl_files.each do |file| … end`. */
  method Compile(plans: seq<Planned>) returns (trace: seq<Event>)
    ensures trace == CompileTrace(plans)
  {
    trace := [];
    var i := 0;
    while i < |plans|
      invariant 0 <= i <= |plans|
      invariant trace + CompileTrace(plans[i..]) == CompileTrace(plans)
    {
      var (events, raised) := Step(plans[i]);
      CompileTraceAt(plans, i);
      if raised {
        trace := trace + events;
        return;
      }
      assert trace + (events + CompileTrace(plans[i + 1..])) == (trace + events) + CompileTrace(plans[i + 1..]);
      trace := trace + events;
      i := i + 1;
    }
  }

  lemma CompileTraceAt(plans: seq<Planned>, i: nat)
    requires i < |plans|
    ensures CompileTrace(plans[i..]) == Step(plans[i]).0 + if Step(plans[i]).1 then [] else CompileTrace(plans[i + 1..])
  {
    assert plans[i..][0] == plans[i] && plans[i..][1..] == plans[i + 1..];
  }

  method Run(verb: Option<string>, entries: seq<string>) returns (trace: seq<Event>)
    ensures trace == Script(verb, entries)
  {
    trace := [MakeDir(CompiledDir)];
    var files := Glob(entries);
    if verb == Some("clean") {
      trace := trace + [Say(Cleaning), RemoveTree(CompiledDir), Exit];
    } else if verb == Some("compile") {
      var rest := Compile(Plans(files));
      trace := trace + rest;
    } else {
      trace := trace + [Say(Usage), Exit];
    }
  }

  function ExecCount(events: seq<Event>): nat {
    if events == [] then 0 else (if events[0].Exec? then 1 else 0) + ExecCount(events[1..])
  }

  lemma {:induction false} ExecCountAppend(a: seq<Event>, b: seq<Event>)
    ensures ExecCount(a + b) == ExecCount(a) + ExecCount(b)
  {
    if a != [] {
      assert (a + b)[1..] == a[1..] + b;
      ExecCountAppend(a[1..], b);
    } else {
      assert a + b == b;
    }
  }

  /**
   * The first file whose name matches no pattern ends the run with its exception: the
   * files before it were each compiled once, the ones after it never.
   */
  lemma {:induction false} CompileStopsAtUnknown(plans: seq<Planned>, k: nat)
    requires k < |plans| && plans[k].profile.Raised?
    requires forall j :: 0 <= j < k ==> plans[j].profile.Value?
    ensures ExecCount(CompileTrace(plans)) == k
    ensures CompileTrace(plans) != [] && CompileTrace(plans)[|CompileTrace(plans)| - 1] == Raise(plans[k].profile.error)
  {
    var (events, raised) := Step(plans[0]);
    if k == 0 {
      assert CompileTrace(plans) == events == [Raise(plans[0].profile.error)];
    } else {
      var say := Say(Compiling(plans[0].file, plans[0].output));
      var exec := Exec(Dxc(Interpolate(plans[0].profile.value), plans[0].file, plans[0].output));
      assert events == [say] + [exec];
      ExecCountAppend([say], [exec]);
      assert ExecCount([exec]) == 1 + ExecCount([exec][1..]);
      CompileStopsAtUnknown(plans[1..], k - 1);
      assert CompileTrace(plans) == events + CompileTrace(plans[1..]);
      ExecCountAppend(events, CompileTrace(plans[1..]));
    }
  }

  /** The compiled directory is created before the verb is looked at, whatever the verb. */
  lemma MakeDirFirst(verb: Option<string>, entries: seq<string>)
    ensures Script(verb, entries)[0] == MakeDir(CompiledDir)
    ensures verb != Some("clean") && verb != Some("compile") ==> Script(verb, entries) == [MakeDir(CompiledDir), Say(Usage), Exit]
  {
  }
}
