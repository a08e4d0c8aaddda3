/** The build-and-run script main.py as pure decisions over an explicit
    host: artifact naming, compiler selection, the skip-if-built rule,
    the three-key merge, the solver invocation and the two flows. Child
    processes are abstracted to the exit code they return. */
module Runner {
  import opened Wrappers
  import opened Json
  import opened Host
  import Generator

  const MainSource: Path := ["ccp", "subproblem", "main.c"]
  const IncVar: string := "CPLEX_INC"
  const LibVar: string := "CPLEX_LIB"

  /** The solver artifact, named by platform at start-up. */
  function Binary(p: Platform): (b: Path)
    ensures |b| == 2 && b[0] == "ccp"
    ensures EndsWith(b[1], ".exe") <==> p == Windows
    ensures p != Windows ==> EndsWith(b[1], ".out")
  {
    ["ccp", if p == Windows then "subproblem.exe" else "subproblem.out"]
  }

  datatype BuildFailure = CompilerMissing | SdkUnset

  /** The compiler `build_subproblem` finds: MSVC's `cl` on Windows,
      `clang` on macOS, elsewhere gcc's location, else clang's. */
  function FoundCompiler(h: Host): Option<string>
  {
    match h.platform
    case Windows => if Which(h, "cl").Some? then Some("cl") else None
    case Darwin => if Which(h, "clang").Some? then Some("clang") else None
    case Other => if Which(h, "gcc").Some? then Which(h, "gcc") else Which(h, "clang")
  }

  /** The compile command `build_subproblem` would spawn, split into its
      words, or why it gives up: the compiler is looked for first, the two
      SDK variables after. The command names the compiler, passes
      CPLEX_INC as the include directory and CPLEX_LIB as the library
      directory (both quoted), compiles the quoted source into the quoted
      output and links CPLEX. */
  function CompileCommand(h: Host, src: Path, out: Path): (r: Result<seq<string>, BuildFailure>)
    ensures r == Err(CompilerMissing) <==> FoundCompiler(h).None?
    ensures r == Err(SdkUnset) <==>
      FoundCompiler(h).Some? && (EnvValue(h, IncVar).None? || EnvValue(h, LibVar).None?)
    ensures r.Ok? ==>
      var inc := EnvValue(h, IncVar).value;
      var lib := EnvValue(h, LibVar).value;
      && FoundCompiler(h).Some? && EnvValue(h, IncVar).Some? && EnvValue(h, LibVar).Some?
      && |r.value| >= 2 && r.value[0] == FoundCompiler(h).value
      && Quote(PathText(src)) in r.value
      && (h.platform == Windows ==>
            && "/I" + Quote(inc) in r.value
            && "/Fe:" + Quote(PathText(out)) in r.value
            && "/LIBPATH:" + Quote(lib) in r.value
            && r.value[|r.value| - 1] == "cplex*.lib")
      && (h.platform != Windows ==>
            && "-I" + Quote(inc) in r.value
            && "-L" + Quote(lib) in r.value && "-lcplex" in r.value
            && r.value[|r.value| - 2] == "-o" && r.value[|r.value| - 1] == Quote(PathText(out)))
    ensures r.Ok? && h.platform == Windows ==>
      r.value == ["cl", "/nologo", "/O2", "/MD", "/I" + Quote(EnvValue(h, IncVar).value), Quote(PathText(src)),
                  "/Fe:" + Quote(PathText(out)), "/link", "/LIBPATH:" + Quote(EnvValue(h, LibVar).value), "cplex*.lib"]
    ensures r.Ok? && h.platform != Windows ==>
      r.value == [FoundCompiler(h).value, "-O2", "-I" + Quote(EnvValue(h, IncVar).value), Quote(PathText(src)),
                  "-L" + Quote(EnvValue(h, LibVar).value), "-lcplex", "-lm", "-lpthread", "-o", Quote(PathText(out))]
  {
    var inc := EnvValue(h, IncVar);
    var lib := EnvValue(h, LibVar);
    match h.platform
    case Windows =>
      if Which(h, "cl").None? then Err(CompilerMissing)
      else if inc.None? || lib.None? then Err(SdkUnset)
      else Ok(["cl", "/nologo", "/O2", "/MD", "/I" + Quote(inc.value), Quote(PathText(src)),
               "/Fe:" + Quote(PathText(out)), "/link", "/LIBPATH:" + Quote(lib.value), "cplex*.lib"])
    case Darwin =>
      if Which(h, "clang").None? then Err(CompilerMissing)
      else if inc.None? || lib.None? then Err(SdkUnset)
      else Ok(["clang", "-O2", "-I" + Quote(inc.value), Quote(PathText(src)), "-L" + Quote(lib.value),
               "-lcplex", "-lm", "-lpthread", "-o", Quote(PathText(out))])
    case Other =>
      var cc := if Which(h, "gcc").Some? then Which(h, "gcc") else Which(h, "clang");
      if cc.None? then Err(CompilerMissing)
      else if inc.None? || lib.None? then Err(SdkUnset)
      else Ok([cc.value, "-O2", "-I" + Quote(inc.value), Quote(PathText(src)), "-L" + Quote(lib.value),
               "-lcplex", "-lm", "-lpthread", "-o", Quote(PathText(out))])
  }

  /** Whether a build succeeded and which compile commands were spawned. */
  datatype BuildRun = BuildRun(ok: bool, compiles: seq<seq<string>>)

  /** `build_subproblem`: spawn the command, if any, and succeed iff its
      exit code is 0. */
  function BuildSubproblem(h: Host, src: Path, out: Path, exitCode: int): (r: BuildRun)
    ensures |r.compiles| == 1 <==> CompileCommand(h, src, out).Ok?
    ensures |r.compiles| == 1 ==> r.compiles[0] == CompileCommand(h, src, out).value
    ensures |r.compiles| != 1 ==> r.compiles == []
    ensures r.ok <==> CompileCommand(h, src, out).Ok? && exitCode == 0
  {
    match CompileCommand(h, src, out)
    case Err(_) => BuildRun(false, [])
    case Ok(argv) => BuildRun(exitCode == 0, [argv])
  }

  /** The compiler on Windows and macOS is looked for before the SDK
      variables: a missing compiler is the reported cause whatever the
      environment holds. */
  lemma CompilerCheckedFirst(h: Host, src: Path, out: Path)
    ensures h.platform == Windows && Which(h, "cl").None? ==> CompileCommand(h, src, out) == Err(CompilerMissing)
    ensures h.platform == Darwin && Which(h, "clang").None? ==> CompileCommand(h, src, out) == Err(CompilerMissing)
    ensures CompileCommand(h, src, out) == Err(SdkUnset) ==> EnvValue(h, IncVar).None? || EnvValue(h, LibVar).None?
  {
  }

  /** On other platforms the compiler is gcc's location when gcc is on
      PATH, else clang's, and the build fails when neither is. */
  lemma OtherPlatformCompiler(h: Host, src: Path, out: Path)
    requires h.platform == Other
    ensures Which(h, "gcc").None? && Which(h, "clang").None? <==> CompileCommand(h, src, out) == Err(CompilerMissing)
    ensures CompileCommand(h, src, out).Ok? ==>
      CompileCommand(h, src, out).value[0] ==
        if "gcc" in h.tools then h.tools["gcc"] else h.tools["clang"]
  {
  }

  /** With either SDK variable unset or empty nothing is compiled and the
      build fails, on every platform. */
  lemma SdkUnsetNeverSpawns(h: Host, src: Path, out: Path, exitCode: int)
    requires EnvValue(h, IncVar).None? || EnvValue(h, LibVar).None?
    ensures BuildSubproblem(h, src, out, exitCode) == BuildRun(false, [])
  {
  }

  /** A build spawns at most one compile, and succeeds iff the command
      could be formed and the compiler exited with 0. */
  lemma BuildOkIffExitZero(h: Host, src: Path, out: Path, exitCode: int)
    ensures var r := BuildSubproblem(h, src, out, exitCode);
      && |r.compiles| <= 1
      && (r.ok <==> |r.compiles| == 1 && exitCode == 0)
      && (|r.compiles| == 1 <==>
            && (Which(h, CompilerName(h.platform)).Some? || (h.platform == Other && "clang" in h.tools))
            && EnvValue(h, IncVar).Some? && EnvValue(h, LibVar).Some?)
  {
  }

  /** The compiler each platform looks for first. */
  function CompilerName(p: Platform): string
  {
    match p
    case Windows => "cl"
    case Darwin => "clang"
    case Other => "gcc"
  }

  /** `ensure_built`: nothing is built when the artifact exists. */
  function EnsureBuilt(h: Host, exitCode: int): (r: BuildRun)
    ensures Binary(h.platform) in h.files ==> r == BuildRun(true, [])
    ensures !r.ok ==> Binary(h.platform) !in h.files && !BuildSubproblem(h, MainSource, Binary(h.platform), exitCode).ok
    ensures Binary(h.platform) !in h.files ==> r == BuildSubproblem(h, MainSource, Binary(h.platform), exitCode)
  {
    if Binary(h.platform) in h.files then BuildRun(true, [])
    else BuildSubproblem(h, MainSource, Binary(h.platform), exitCode)
  }

  /** The merged document handed to the solver. */
  function Merge(base: Json, subp: Json, dem: Json): (m: Json)
    ensures m.JObj? && m.fields.Keys == {"base", "subproblem", "demand"}
  {
    JObj(map["base" := base, "subproblem" := subp, "demand" := dem])
  }

  /** Merging loses nothing: each part is found unchanged under its key. */
  lemma MergeKeepsParts(base: Json, subp: Json, dem: Json)
    ensures Get(Merge(base, subp, dem), "base") == Some(base)
    ensures Get(Merge(base, subp, dem), "subproblem") == Some(subp)
    ensures Get(Merge(base, subp, dem), "demand") == Some(dem)
    ensures forall k :: k !in {"base", "subproblem", "demand"} ==> Get(Merge(base, subp, dem), k) == None
  {
  }

  /** How a child process ended. */
  datatype Outcome = Exited(code: int) | TimedOut

  datatype Run = Run(merged: Json, mergedPath: Path, argv: seq<string>, ok: bool)

  /** `run_binary_with_config`: write the merged document next to the
      binary, run the binary on it, report success iff it exited with 0. */
  function RunBinaryWithConfig(bin: Path, base: Json, subp: Json, dem: Json, outcome: Outcome): (r: Run)
    ensures r.merged == Merge(base, subp, dem)
    ensures |r.argv| == 2 && r.argv[0] == PathText(bin) && r.argv[1] == PathText(r.mergedPath)
    ensures |r.mergedPath| >= 1 && Parent(r.mergedPath) == Parent(bin) && r.mergedPath[|r.mergedPath| - 1] == "merged.json"
    ensures r.ok <==> outcome == Exited(0)
  {
    var mergedPath := Parent(bin) + ["merged.json"];
    Run(Merge(base, subp, dem), mergedPath, [PathText(bin), PathText(mergedPath)], outcome == Exited(0))
  }

  /** `2 ** n`. */
  function Pow2(n: nat): (r: nat)
    ensures r >= 1
  {
    if n == 0 then 1 else 2 * Pow2(n - 1)
  }

  /** Powers of two, characterised by halving. */
  predicate IsPowerOfTwo(n: int)
    decreases if n < 0 then 0 else n
  {
    n == 1 || (n > 1 && n % 2 == 0 && IsPowerOfTwo(n / 2))
  }

  lemma {:induction false} Pow2IsPowerOfTwo(k: nat)
    ensures IsPowerOfTwo(Pow2(k))
  {
    if k > 0 {
      Pow2IsPowerOfTwo(k - 1);
      assert Pow2(k) / 2 == Pow2(k - 1);
    }
  }

  lemma {:induction false} Pow2Monotone(a: nat, b: nat)
    requires a <= b
    ensures Pow2(a) <= Pow2(b)
    decreases b
  {
    if a < b {
      Pow2Monotone(a, b - 1);
    }
  }

  /** The request count the flows draw: `2 ** random.randint(0, 10)`. */
  function DemandCount(d: nat): (n: int)
    ensures IsPowerOfTwo(n) && 1 <= n <= 1024
  {
    var k := Generator.RandInt(0, 10, d);
    Pow2IsPowerOfTwo(k);
    Pow2Monotone(k, 10);
    Pow2(k)
  }

  datatype FlowRun = FlowRun(
    ok: bool,
    build: BuildRun,
    scenario: Option<Json>,
    demand: Option<Json>,
    run: Option<Run>)

  /** `master_flow` and `fake_master_flow`: ensure the binary, generate a
      two-shuttle scenario, draw the request count, generate the demand,
      and run the solver on the merge with the base configuration. */
  function Flow(h: Host, s: Generator.Stream, pos: nat, base: Json, exitCode: int, outcome: Outcome): (r: FlowRun)
    ensures r.build == EnsureBuilt(h, exitCode)
    ensures !r.build.ok ==> !r.ok && r.scenario == None && r.demand == None && r.run == None
    ensures r.build.ok ==> r.scenario.Some? && r.demand.Some? && r.run.Some?
    ensures r.ok <==> r.build.ok && outcome == Exited(0)
    ensures r.demand.Some? ==>
      IsNum(Get(r.demand.value, "nreq"))
      && IsPowerOfTwo(Get(r.demand.value, "nreq").value.n)
      && 1 <= Get(r.demand.value, "nreq").value.n <= 1024
    ensures r.run.Some? ==>
      r.run.value.merged == Merge(base, r.scenario.value, r.demand.value)
      && |r.run.value.argv| == 2 && r.run.value.argv[0] == PathText(Binary(h.platform))
    ensures r.run.Some? ==>
      r.run.value == RunBinaryWithConfig(Binary(h.platform), base, r.scenario.value, r.demand.value, outcome)
  {
    var b := EnsureBuilt(h, exitCode);
    if !b.ok then FlowRun(false, b, None, None, None)
    else
      var (subp, p1) := Generator.WriteFakeInput(s, pos, Generator.DefaultShuttles);
      var demand := DemandCount(s(p1));
      var (dem, p2) := Generator.WriteDemandFiles(s, p1 + 1, demand);
      assert Get(dem, "nreq") == At(dem, ["nreq"]);
      var run := RunBinaryWithConfig(Binary(h.platform), base, subp, dem, outcome);
      FlowRun(run.ok, b, Some(subp), Some(dem), Some(run))
  }

  /** The document a flow hands to the solver is the base merged with the
      two-shuttle scenario and the demand set the flow drew: the scenario
      from the first draws, one draw for the request count, then the
      requests. */
  lemma FlowMergesDraws(h: Host, s: Generator.Stream, pos: nat, base: Json, exitCode: int, outcome: Outcome)
    ensures var f := Flow(h, s, pos, base, exitCode, outcome);
      var p1 := Generator.WriteFakeInput(s, pos, Generator.DefaultShuttles).1;
      f.run.Some? ==>
        f.run.value.merged == Merge(base, Generator.ScenarioJson(Generator.GenerateScenario(s, pos, Generator.DefaultShuttles).0),
                                    Generator.DemandJson(Generator.GenerateDemand(s, p1 + 1, DemandCount(s(p1))).0))
  {
    FlowScenarioDrawn(h, s, pos, base, exitCode, outcome);
    FlowDemandDrawn(h, s, pos, base, exitCode, outcome);
  }

  lemma FlowScenarioDrawn(h: Host, s: Generator.Stream, pos: nat, base: Json, exitCode: int, outcome: Outcome)
    ensures var f := Flow(h, s, pos, base, exitCode, outcome);
      f.scenario.Some? ==> f.scenario.value == Generator.ScenarioJson(Generator.GenerateScenario(s, pos, Generator.DefaultShuttles).0)
  {
    FlowScenarioDocument(h, s, pos, base, exitCode, outcome);
    Generator.WriteFakeInputIsScenario(s, pos, Generator.DefaultShuttles);
  }

  lemma FlowDemandDrawn(h: Host, s: Generator.Stream, pos: nat, base: Json, exitCode: int, outcome: Outcome)
    ensures var f := Flow(h, s, pos, base, exitCode, outcome);
      var p1 := Generator.WriteFakeInput(s, pos, Generator.DefaultShuttles).1;
      f.demand.Some? ==> f.demand.value == Generator.DemandJson(Generator.GenerateDemand(s, p1 + 1, DemandCount(s(p1))).0)
  {
    FlowDemandDocument(h, s, pos, base, exitCode, outcome);
    DemandDocumentDrawn(s, Generator.WriteFakeInput(s, pos, Generator.DefaultShuttles).1);
  }

  /** The scenario a flow keeps is the document `write_fake_input` wrote. */
  lemma FlowScenarioDocument(h: Host, s: Generator.Stream, pos: nat, base: Json, exitCode: int, outcome: Outcome)
    ensures var f := Flow(h, s, pos, base, exitCode, outcome);
      f.scenario.Some? ==> f.scenario.value == Generator.WriteFakeInput(s, pos, Generator.DefaultShuttles).0
  {
  }

  /** The demand a flow keeps is the document `write_demand_files` wrote
      right after the scenario draws. */
  lemma FlowDemandDocument(h: Host, s: Generator.Stream, pos: nat, base: Json, exitCode: int, outcome: Outcome)
    ensures var f := Flow(h, s, pos, base, exitCode, outcome);
      var p1 := Generator.WriteFakeInput(s, pos, Generator.DefaultShuttles).1;
      f.demand.Some? ==> f.demand.value == Generator.WriteDemandFiles(s, p1 + 1, DemandCount(s(p1))).0
  {
  }

  /** The demand document drawn after position `p1` holds the requests drawn
      with the count read at `p1`. */
  lemma DemandDocumentDrawn(s: Generator.Stream, p1: nat)
    ensures Generator.WriteDemandFiles(s, p1 + 1, DemandCount(s(p1))).0
         == Generator.DemandJson(Generator.GenerateDemand(s, p1 + 1, DemandCount(s(p1))).0)
  {
    Generator.WriteDemandFilesIsDemand(s, p1 + 1, DemandCount(s(p1)));
  }

  datatype Mode = Build | Master | SubproblemMode

  /** The process exit status of the script in each mode. The build mode
      calls `build_subproblem` directly, so it compiles even when the
      artifact exists. */
  function ExitStatus(mode: Mode, h: Host, s: Generator.Stream, pos: nat, base: Json, exitCode: int, outcome: Outcome): (code: int)
    ensures code == 0 || code == 1
    ensures mode == Build ==> (code == 0 <==> BuildSubproblem(h, MainSource, Binary(h.platform), exitCode).ok)
    ensures mode != Build ==> (code == 0 <==> Flow(h, s, pos, base, exitCode, outcome).ok)
  {
    var ok := if mode == Build then BuildSubproblem(h, MainSource, Binary(h.platform), exitCode).ok
              else Flow(h, s, pos, base, exitCode, outcome).ok;
    if ok then 0 else 1
  }
}
