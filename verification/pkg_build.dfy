/** The Windows-only build-and-run helpers of the Python package
    (src/mobauto2_decomp/__init__.py): library discovery, a forced or
    skipped MSVC build, and running the solver with extra arguments.
    Raised `RuntimeError`s become `Err` values. */
module PkgBuild {
  import opened Wrappers
  import opened Host

  const Src: Path := ["c_cplex", "subproblem.c"]
  const Exe: Path := ["c_cplex", "subproblem.exe"]

  datatype PkgError =
    | LibDirUnset
    | NoLibrary(dir: string)
    | ClMissing
    | VarUnset(name: string)
    | CompileFailed

  /** Python's `<=` on `str`: lexicographic by code point. */
  predicate LexLe(a: string, b: string)
  {
    |a| == 0 || (|b| > 0 && (a[0] < b[0] || (a[0] == b[0] && LexLe(a[1..], b[1..]))))
  }

  lemma {:induction false} LexLeTotal(a: string, b: string)
    ensures LexLe(a, b) || LexLe(b, a)
    decreases |a|
  {
    if |a| > 0 && |b| > 0 && a[0] == b[0] {
      LexLeTotal(a[1..], b[1..]);
    }
  }

  lemma {:induction false} LexLeTransitive(a: string, b: string, c: string)
    requires LexLe(a, b) && LexLe(b, c)
    ensures LexLe(a, c)
    decreases |a|
  {
    if |a| > 0 && a[0] == b[0] && b[0] == c[0] {
      LexLeTransitive(a[1..], b[1..], c[1..]);
    }
  }

  /** The greatest name of a non-empty list: `sorted(xs)[-1]`. */
  function MaxName(xs: seq<string>): (r: string)
    requires |xs| > 0
    ensures r in xs
    ensures forall x :: x in xs ==> LexLe(x, r)
    decreases |xs|
  {
    if |xs| == 1 then
      LexLeTotal(xs[0], xs[0]);
      xs[0]
    else
      var m := MaxName(xs[1..]);
      assert xs == [xs[0]] + xs[1..];
      LexLeTotal(xs[0], m);
      if LexLe(xs[0], m) then m
      else
        forall x | x in xs[1..]
          ensures LexLe(x, xs[0])
        {
          LexLeTransitive(x, m, xs[0]);
        }
        LexLeTotal(xs[0], xs[0]);
        xs[0]
  }

  /** The glob pattern "cplex*.lib". */
  predicate MatchesCplexLib(name: string)
  {
    |name| >= 9 && name[..5] == "cplex" && name[|name| - 4..] == ".lib"
  }

  /** The entries of a listing that match the pattern, in listing order. */
  function CplexLibs(names: seq<string>): (r: seq<string>)
    ensures forall x :: x in r <==> x in names && MatchesCplexLib(x)
  {
    if |names| == 0 then []
    else if MatchesCplexLib(names[0]) then [names[0]] + CplexLibs(names[1..])
    else CplexLibs(names[1..])
  }

  /** The entries of the directory named by CPLEX_LIB (none when it is
      not a directory). */
  function LibListing(h: Host, dir: string): seq<string>
  {
    if dir in h.listing then h.listing[dir] else []
  }

  /** `_find_cplex_libname`. */
  function FindCplexLibname(h: Host): (r: Result<string, PkgError>)
    ensures EnvValue(h, "CPLEX_LIB").None? <==> r == Err(LibDirUnset)
    ensures r.Err? && EnvValue(h, "CPLEX_LIB").Some? ==>
      r == Err(NoLibrary(EnvValue(h, "CPLEX_LIB").value))
      && forall x :: x in LibListing(h, EnvValue(h, "CPLEX_LIB").value) ==> !MatchesCplexLib(x)
    ensures r.Ok? ==>
      var names := LibListing(h, EnvValue(h, "CPLEX_LIB").value);
      && r.value in names && MatchesCplexLib(r.value)
      && forall x :: x in names && MatchesCplexLib(x) ==> LexLe(x, r.value)
  {
    match EnvValue(h, "CPLEX_LIB")
    case None => Err(LibDirUnset)
    case Some(dir) =>
      var candidates := CplexLibs(LibListing(h, dir));
      if |candidates| == 0 then
        Err(NoLibrary(dir))
      else Ok(MaxName(candidates))
  }

  /** The compile command, word by word. The two directories can be read
      back from their switches, and the chosen library comes last. */
  function CompileArgv(inc: string, lib: string, libname: string): (r: seq<string>)
    ensures |r| == 7 && r[0] == "cl" && r[4] == "/link" && r[6] == libname
    ensures |r[1]| >= 2 && r[1][..2] == "/I" && r[1][2..] == Quote(inc)
    ensures r[2] == PathText(Src)
    ensures |r[3]| >= 4 && r[3][..4] == "/Fe:" && r[3][4..] == PathText(Exe)
    ensures |r[5]| >= 9 && r[5][..9] == "/LIBPATH:" && r[5][9..] == Quote(lib)
  {
    ["cl", "/I" + Quote(inc), PathText(Src), "/Fe:" + PathText(Exe), "/link", "/LIBPATH:" + Quote(lib), libname]
  }

  /** What the compiler process did: its exit code and the files that
      exist once it has finished. */
  datatype Compile = Compile(exitCode: int, filesAfter: set<Path>)

  /** The outcome of a build call, the compiles it spawned and the files
      that exist afterwards. */
  datatype PkgBuildRun = PkgBuildRun(result: Result<Path, PkgError>, compiles: seq<seq<string>>, files: set<Path>)

  /** `build_c_subproblem(force)`. */
  function BuildCSubproblem(h: Host, force: bool, c: Compile): (r: PkgBuildRun)
    ensures Exe in h.files && !force ==> r == PkgBuildRun(Ok(Exe), [], h.files)
    ensures (Exe !in h.files || force) ==>
      && (Which(h, "cl").None? ==> r.result == Err(ClMissing))
      && (Which(h, "cl").Some? && EnvValue(h, "CPLEX_INC").None? ==> r.result == Err(VarUnset("CPLEX_INC")))
      && (Which(h, "cl").Some? && EnvValue(h, "CPLEX_INC").Some? && EnvValue(h, "CPLEX_LIB").None? ==>
            r.result == Err(VarUnset("CPLEX_LIB")))
    ensures |r.compiles| <= 1
    ensures |r.compiles| == 1 ==>
      && EnvValue(h, "CPLEX_INC").Some? && FindCplexLibname(h).Ok?
      && r.compiles[0] == CompileArgv(EnvValue(h, "CPLEX_INC").value, EnvValue(h, "CPLEX_LIB").value, FindCplexLibname(h).value)
    ensures |r.compiles| == 1 ==> (r.result.Ok? <==> c.exitCode == 0 && Exe in c.filesAfter)
    ensures r.result.Ok? ==> r.result.value == Exe && Exe in r.files
    ensures |r.compiles| == 1 ==> r.files == c.filesAfter && (r.result.Err? ==> r.result.error == CompileFailed)
    ensures |r.compiles| == 0 ==> r.files == h.files
    ensures r.result.Err? ==> r.result.error != LibDirUnset
    ensures (Exe !in h.files || force) && Which(h, "cl").Some?
            && EnvValue(h, "CPLEX_INC").Some? && EnvValue(h, "CPLEX_LIB").Some? ==>
      && (FindCplexLibname(h).Ok? <==> |r.compiles| == 1)
      && (FindCplexLibname(h).Err? ==> r.result == Err(FindCplexLibname(h).error))
  {
    if Exe in h.files && !force then PkgBuildRun(Ok(Exe), [], h.files)
    else if Which(h, "cl").None? then PkgBuildRun(Err(ClMissing), [], h.files)
    else if EnvValue(h, "CPLEX_INC").None? then PkgBuildRun(Err(VarUnset("CPLEX_INC")), [], h.files)
    else if EnvValue(h, "CPLEX_LIB").None? then PkgBuildRun(Err(VarUnset("CPLEX_LIB")), [], h.files)
    else
      match FindCplexLibname(h)
      case Err(e) => PkgBuildRun(Err(e), [], h.files)
      case Ok(libname) =>
        var argv := CompileArgv(EnvValue(h, "CPLEX_INC").value, EnvValue(h, "CPLEX_LIB").value, libname);
        if c.exitCode != 0 || Exe !in c.filesAfter then PkgBuildRun(Err(CompileFailed), [argv], c.filesAfter)
        else PkgBuildRun(Ok(Exe), [argv], c.filesAfter)
  }

  /** The compile command has seven words: the compiler, the quoted include
      directory, the source, the output, the linker switch, the quoted
      library directory and the chosen library. */
  lemma CompileArgvShape(h: Host, force: bool, c: Compile)
    requires |BuildCSubproblem(h, force, c).compiles| == 1
    ensures var argv := BuildCSubproblem(h, force, c).compiles[0];
      var inc := h.vars["CPLEX_INC"];
      var lib := h.vars["CPLEX_LIB"];
      && |argv| == 7
      && argv[0] == "cl" && argv[1] == "/I\"" + inc + "\"" && argv[2] == PathText(Src)
      && argv[3] == "/Fe:" + PathText(Exe) && argv[4] == "/link" && argv[5] == "/LIBPATH:\"" + lib + "\""
      && argv[6] in LibListing(h, lib) && MatchesCplexLib(argv[6])
  {
  }

  /** Building twice without forcing compiles at most once: after a
      successful build the executable exists, so the second call skips. */
  lemma BuildTwiceCompilesOnce(h: Host, c1: Compile, c2: Compile)
    requires BuildCSubproblem(h, false, c1).result.Ok?
    ensures var h2 := h.(files := BuildCSubproblem(h, false, c1).files);
      BuildCSubproblem(h2, false, c2) == PkgBuildRun(Ok(Exe), [], h2.files)
  {
  }

  /** `args` or nothing: `if args:` treats None and [] alike. */
  function ExtraArgs(args: Option<seq<string>>): seq<string>
  {
    if args.Some? then args.value else []
  }

  /** `run_c_subproblem`: ensure the build (forced when `rebuild`), then run
      the executable with the extra arguments and return its exit code
      unchanged; a build error propagates. */
  function RunCSubproblem(h: Host, args: Option<seq<string>>, rebuild: bool, c: Compile, childExit: int):
    (r: Result<(seq<string>, int), PkgError>)
    ensures r.Ok? <==> BuildCSubproblem(h, rebuild, c).result.Ok?
    ensures r.Err? ==> r.error == BuildCSubproblem(h, rebuild, c).result.error
    ensures r.Ok? ==> r.value.0 == [PathText(Exe)] + ExtraArgs(args) && r.value.1 == childExit
  {
    var b := BuildCSubproblem(h, rebuild, c);
    match b.result
    case Err(e) => Err(e)
    case Ok(exe) =>
      var runCmd := [PathText(exe)] + (if args.Some? && |args.value| > 0 then args.value else []);
      Ok((runCmd, childExit))
  }
}
