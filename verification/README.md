# mobauto2-decomp orchestration core in Dafny

This project models the orchestration pipeline around an external shuttle-scheduling
solver. The solver itself is an opaque native program and is not modelled. The pipeline has
three parts:

- **Instance generator** (`subproblem.py`). It draws two documents from a closed catalogue
  of 25 task sequences over NUL/OUT/RET/CRG. The scenario document holds shuttles `S0..S{n-1}`
  with `seq`, `soc0`, `prev_task` and `delay`. The demand document holds `nreq` and requests
  with `dir` and `time`. Randomness is an explicit stream of draws (`Generator.Stream`), so
  both generators are pure functions.
- **Merged-document reader** (`ccp/subproblem/jsonio.c` over the records of
  `ccp/subproblem/params.h`). It walks an already-parsed JSON tree (`Json.Json`) and fills
  `Params`, `Fleet` and `DemandPool`. Each `die(msg)` becomes `Err(msg)`. C's fixed
  character buffers (`prev[8]`, `dir[4]`) and `strncpy`/`strcpy` are modelled byte by byte
  (`Params.StrNCpy`, `Params.CString`). A JSON string reaches C as its UTF-8 bytes
  (`Params.Utf8`), so the buffer limits count bytes, not characters.
- **Build and run decisions** (`main.py`, `src/mobauto2_decomp/__init__.py`). These are pure
  functions over an explicit host (`Host.Host`). The host gives the platform family, the
  programs on PATH, the environment variables, the existing files and the directory
  listings. Child processes are replaced by the exit code they return.

The main cross-file result is `Pipeline.MergedDocumentParses`. Take any well-formed base
configuration and merge it with generated scenario and demand documents, as `main.py` does.
The C reader accepts the result. The fleet size equals the scenario's `nbr_shuttles`, each
sequence is unchanged, and each request's `ready` equals its `time`.
`Flows.FlowInputParses` proves the same for the document a flow actually hands to the
solver, read back against the scenario and demand set the flow drew.

Modules: `Wrappers`, `Json`, `ShuttleKeys`, `Catalogue`, `Generator` (subproblem.py),
`Params` (params.h), `JsonIO` (jsonio.c), `Host`, `Runner` (main.py), `PkgBuild`
(src/mobauto2_decomp/__init__.py), `Pipeline` (cross-file lemmas), `Flows` (whole runs of
`main.py`).

Facts about the code that the model follows:

- `main.py` never passes a timeout, so its timeout branch cannot be taken. `Runner.Outcome`
  still has a `TimedOut` case so that branch can be stated.
- `build_subproblem` reports a missing SDK variable only by returning false, and only after
  the compiler check has passed.
- Errors are not typed. `main.py` prints and returns false; the package raises `RuntimeError`.
- The `build` mode of `main.py` calls `build_subproblem` directly, so it recompiles even
  when the artifact exists.

## Model

| member | source | states |
|---|---|---|
| Catalogue.CatalogueShape | subproblem.py:5-31 | the catalogue has 25 entries; each has 1 to 5 tasks, contains NUL only as the singleton [NUL], and obeys the succession rule (OUT then RET, RET then OUT or CRG, CRG then OUT) |
| Catalogue.CatalogueDistinct | subproblem.py:5-31 | the 25 entries are pairwise different, proved from their strict shortlex order |
| Catalogue.CatalogueOmitsCrgOut | subproblem.py:5-31 | the catalogue is a strict subset of the grammar: [CRG, OUT] is well shaped but not a candidate |
| Catalogue.Name | subproblem.py:6-30 | each task symbol is written as a three-letter upper-case name |
| ShuttleKeys.NatToString | ccp/subproblem/jsonio.c:77 | the decimal text of an index (as `f"S{i}"` and `snprintf("S%d")` print it) is non-empty, all digits, and one character long exactly below 10 |
| ShuttleKeys.NatToStringInjective | subproblem.py:42 | different indices print differently |
| ShuttleKeys.ShuttleKeyInjective | subproblem.py:42 | the names "S<i>" of different shuttle indices differ, so no shuttle overwrites another |
| Generator.Pick | subproblem.py:37 | `random.choice` returns an element of the list it is given |
| Generator.RandInt | subproblem.py:39 | `random.randint(lo, hi)` returns a value in [lo, hi] |
| Generator.DrawShuttle | subproblem.py:37-47 | a drawn shuttle has a catalogue sequence, soc0 in {30,60,90,120,150}, prev_task in {OUT,RET,CRG} and delay in [0,30]; the delay is 0 and no delay draw is consumed whenever the coin draw picks a 0 |
| Generator.DrawShuttles | subproblem.py:36-47 | one shuttle per loop iteration, each within the value sets above |
| Generator.GenerateScenario | subproblem.py:33-47 | the scenario keeps the argument as nbr_shuttles and has max(0, n) shuttles, all within the value sets |
| Generator.ShuttlesMap | subproblem.py:42-47 | the shuttles object has exactly the keys S0..S{n-1}, and key S<i> holds the i-th shuttle |
| Generator.WriteFakeInput | subproblem.py:33-50 | the document's nbr_shuttles is the argument; its shuttle keys are exactly S0..S{n-1}; each shuttle block has exactly the keys seq/soc0/prev_task/delay |
| Generator.DrawRequests | subproblem.py:53-56 | one request per iteration, two draws each; dir is OUT or RET and time is in [0,120] |
| Generator.GenerateDemand | subproblem.py:52-57 | nreq equals the argument; there are max(0, demand) requests, each within the value sets |
| Generator.WriteDemandFiles | subproblem.py:52-60 | the document's nreq equals the number of requests (for non-negative demand); every request is an object with dir "OUT" or "RET" and a numeric time in [0,120] |
| Generator.DrawShuttlesDeterministic | subproblem.py:36-47 | two streams that agree on the draws consumed give the same shuttles |
| Generator.WriteFakeInputDeterministic | subproblem.py:33-50 | same draws and argument give an identical scenario document, whatever the stream holds beyond them |
| Generator.DrawRequestsDeterministic | subproblem.py:53-56 | two streams that agree on the 2·count draws consumed give the same requests |
| Generator.WriteDemandFilesDeterministic | subproblem.py:52-60 | same draws and count give an identical demand document |
| Params.CString | ccp/subproblem/jsonio.c:89-91 | the text C sees in a buffer is its prefix before the first NUL and contains no NUL |
| Params.Utf8NulFree | ccp/subproblem/jsonio.c:89-91 | the UTF-8 bytes C receives contain a zero byte exactly when the JSON string contains U+0000, so `strcpy` stops only there |
| Params.Utf8Ascii | ccp/subproblem/jsonio.c:95-96 | ASCII text reaches C byte for character, so byte limits and character limits agree on it |
| Params.StrNCpy | ccp/subproblem/jsonio.c:113 | `strncpy(dst, src, n)` writes exactly n bytes: byte k is the source's byte k while k is below the source's C-string length, and NUL after it |
| Params.FixedCopy | ccp/subproblem/jsonio.c:95-97 | a zeroed buffer of `size` bytes after `strncpy(buf, src, size - 1)`: the last byte is NUL and the others are the source's bytes up to its terminator, then NULs |
| Params.StrNCpyReadsBack | ccp/subproblem/jsonio.c:113 | `strncpy(dst, src, n)` fills exactly n bytes and reads back as the first n bytes of the source's C string |
| Params.FixedCopyReadsBack | ccp/subproblem/jsonio.c:95-97 | the 8-byte prev buffer (and the 4-byte dir buffer) is always terminated and holds at most the first 7 (resp. 3) bytes of the source's C string |
| Params.FreeShuttle | ccp/subproblem/jsonio.c:17-22 | freeing a shuttle empties its tokens and sets T to 0, leaving soc0, delay and prev as they were |
| Params.FreeFleet | ccp/subproblem/jsonio.c:23-27 | after free_fleet the fleet is empty with n == 0, hence valid |
| Params.FreeDemand | ccp/subproblem/jsonio.c:28-31 | after free_demand the pool is empty with n == 0, hence valid |
| JsonIO.ReqObj | ccp/subproblem/jsonio.c:34-38 | succeeds iff the member is an object and returns it; otherwise dies with the key |
| JsonIO.ReqInt | ccp/subproblem/jsonio.c:39-43 | succeeds iff the member is a number and returns it; otherwise dies with the key |
| JsonIO.ReqStr | ccp/subproblem/jsonio.c:44-48 | succeeds iff the member is a string and returns it; otherwise dies with the key |
| JsonIO.ParseShuttle | ccp/subproblem/jsonio.c:77-97 | one loop iteration dies only with one of its six messages (missing shuttle block, seq, seq token, soc0, delay, prev_task), and a shuttle it reads has T equal to its token count and a terminated 8-byte prev buffer |
| JsonIO.ParseShuttleSpec | ccp/subproblem/jsonio.c:76-98 | shuttle i is read iff S<i> is an object whose seq is an array of strings and whose soc0, delay and prev_task are numbers and a string; T is the token count and tokens are copied in order |
| JsonIO.ParseShuttles | ccp/subproblem/jsonio.c:74-98 | the shuttle loop succeeds iff every block below the count is acceptable, and then yields one shuttle per index (none for a negative count), each read from its own block |
| JsonIO.ParseParamsSpec | ccp/subproblem/jsonio.c:55-64 | the base section parses iff base, time, fleet and operation are objects holding the five numbers; each Params member equals its number |
| JsonIO.ParseFleetSpec | ccp/subproblem/jsonio.c:66-98 | the subproblem section parses iff nbr_shuttles is a number, shuttles an object and every block acceptable; F.n is subproblem.nbr_shuttles |
| JsonIO.ParseDemandSpec | ccp/subproblem/jsonio.c:100-119 | the demand section parses iff demand.requests is an array of objects; D.n equals its length and request j is read from element j |
| JsonIO.ParseParamsAndFleet | ccp/subproblem/jsonio.c:51-119 | every failure is reported with one of the reader's die messages (a base, subproblem, shuttle or demand key) |
| JsonIO.ParseChecksInOrder | ccp/subproblem/jsonio.c:55-109 | the sections are checked in order: a bad base section is reported with a base message whatever follows, a bad subproblem section (with a good base) with a subproblem or shuttle message, and a bad demand section only when both others are good |
| JsonIO.ParseOkIffAccepts | ccp/subproblem/jsonio.c:51-123 | the reader succeeds exactly on the documents the declarative `Accepts` describes |
| JsonIO.ParseReadsDocument | ccp/subproblem/jsonio.c:55-119 | on success all Params members, the fleet and every request are the values found in the document |
| JsonIO.ParseFillsValidRecords | ccp/subproblem/params.h:12-33 | filled records have the documented shape: T counts the tokens, prev and dir are terminated buffers, n matches the array length (for the fleet, whenever its count is not negative) |
| JsonIO.ReadRequest | ccp/subproblem/jsonio.c:107-118 | a request's dir is a terminated 4-byte buffer, and its ready is 0 unless "ready" or "time" is a number |
| JsonIO.ReadRequestDefaults | ccp/subproblem/jsonio.c:110-118 | dir defaults to "OUT" when absent or not a string, else is the string's UTF-8 bytes cut to 3; ready is "ready", else "time", else 0 |
| JsonIO.DirCutCountsBytes | ccp/subproblem/jsonio.c:113 | the 3-byte cut counts bytes: a dir of "ÉTÉ" is read as the bytes C3 89 54, i.e. "ÉT" |
| JsonIO.CountMismatchOnlyWarns | ccp/subproblem/jsonio.c:64-74 | replacing base.fleet.nbr_shuttles by any number still parses, with the same fleet and demand; only the warning depends on it |
| JsonIO.ReadyRangeUnchecked | ccp/subproblem/params.h:27 | the documented [0, horizon] range of ready is not enforced: a request timed beyond the horizon is accepted |
| Runner.Binary | main.py:10-14 | the artifact name ends in ".exe" exactly on Windows and in ".out" otherwise |
| Runner.CompileCommand | main.py:21-47 | the build gives up for a missing compiler exactly when none is found (cl on Windows, clang on macOS, gcc else clang elsewhere) and for the SDK exactly when a compiler is found but a variable is unset or empty; otherwise the command is exactly main.py's word list for the platform: on Windows `cl /nologo /O2 /MD /I"inc" "src" /Fe:"out" /link /LIBPATH:"lib" cplex*.lib`, elsewhere the found compiler followed by `-O2 -I"inc" "src" -L"lib" -lcplex -lm -lpthread -o "out"` |
| Runner.BuildSubproblem | main.py:16-50 | a build spawns one compile exactly when the command can be formed, that compile is the command, and the build succeeds iff it exits with 0 |
| Runner.CompilerCheckedFirst | main.py:21-36 | on Windows (cl) and macOS (clang) a missing compiler is reported whatever the environment holds; a missing SDK variable is reported only when one is unset |
| Runner.OtherPlatformCompiler | main.py:39-43 | elsewhere the compiler is gcc's location if gcc is on PATH, else clang's; with neither the build fails |
| Runner.SdkUnsetNeverSpawns | main.py:25-27 | with CPLEX_INC or CPLEX_LIB unset or empty, build_subproblem fails and spawns no compile |
| Runner.BuildOkIffExitZero | main.py:49-50 | a build spawns at most one compile and succeeds iff that compile exits with 0 |
| Runner.EnsureBuilt | main.py:52-58 | an existing artifact means no build and success; an absent one means exactly the build `build_subproblem` does, with its outcome |
| Runner.Merge | main.py:70-74 | the merged document has exactly the keys base, subproblem and demand |
| Runner.MergeKeepsParts | main.py:70-74 | each merged part is found unchanged under its key, and no other key is present |
| Runner.RunBinaryWithConfig | main.py:76-92 | the solver argv is exactly [bin, merged_path], with merged.json beside the binary; the run succeeds iff the child exits with 0 |
| Runner.Pow2IsPowerOfTwo | main.py:106 | 2^k is a power of two |
| Runner.DemandCount | main.py:106 | the drawn demand count is a power of two in [1, 1024] |
| Runner.Flow | main.py:94-123 | a failed build short-circuits before generation and running; otherwise the flow generates, merges and runs the solver as `run_binary_with_config` does, on the merged document written beside the binary, and succeeds iff the solver exits with 0; the demand count is a power of two in [1,1024] |
| Runner.ExitStatus | main.py:126-145 | the script exits with 0 or 1; 0 iff the build (build mode) or the flow (other modes) succeeds |
| PkgBuild.MaxName | src/mobauto2_decomp/__init__.py:19 | the last of the sorted names is one of them and lexicographically at least every other |
| PkgBuild.CplexLibs | src/mobauto2_decomp/__init__.py:15 | the glob keeps exactly the listing's names matching cplex*.lib |
| PkgBuild.FindCplexLibname | src/mobauto2_decomp/__init__.py:10-19 | fails iff CPLEX_LIB is unset/empty or no cplex*.lib exists there; otherwise returns a matching library lexicographically greatest among them |
| PkgBuild.BuildCSubproblem | src/mobauto2_decomp/__init__.py:21-54 | with the EXE present and no force: EXE, no checks, no compile; else cl, then CPLEX_INC, then CPLEX_LIB, the first missing reported; with all three present it compiles exactly when a library is found and otherwise reports the library lookup's error; at most one compile, which succeeds iff it exits with 0 and the EXE then exists, fails with the compile error otherwise, and leaves the files the compiler left; when nothing is compiled the file set is unchanged |
| PkgBuild.CompileArgv | src/mobauto2_decomp/__init__.py:40-48 | the command has seven words: cl, an /I switch whose argument is the quoted include directory, the source, an /Fe: switch naming EXE, /link, a /LIBPATH: switch whose argument is the quoted library directory, and the library name last |
| PkgBuild.CompileArgvShape | src/mobauto2_decomp/__init__.py:40-48 | the compile argv is exactly [cl, /I"inc", SRC, /Fe:EXE, /link, /LIBPATH:"lib", libname], the library one of the directory's cplex*.lib files |
| PkgBuild.BuildTwiceCompilesOnce | src/mobauto2_decomp/__init__.py:23-24 | after a successful build, a second unforced build compiles nothing and returns EXE |
| PkgBuild.RunCSubproblem | src/mobauto2_decomp/__init__.py:56-63 | runs [exe] followed by the arguments (none for None or []) and returns the child's exit code unchanged; build errors propagate |
| Pipeline.MergedDocumentParses | ccp/subproblem/jsonio.c:51-119 | a well-formed base merged with a scenario and a demand document parses: F.n is the scenario count, sequences unchanged, each request keeps its direction and is ready at its time |
| Pipeline.GeneratedMergeParses | main.py:102-109 | the generators' output merged with a well-formed base parses with n shuttles whose sequences are catalogue entries and demand requests ready in [0,120] |
| Runner.FlowMergesDraws | main.py:102-111 | whenever a flow runs the solver, the merged document is the base merged with the two-shuttle scenario drawn first and the demand set drawn after one more draw for its count |
| Flows.FlowInputParses | main.py:102-123 | for the scenario and demand set a flow draws, the document it hands the solver is their merge with the base, and that document parses and reads back as in MergedDocumentParses |
| Pipeline.GeneratedReadyWithinHorizon | ccp/subproblem/params.h:27 | with a horizon of at least 120 minutes, generated requests satisfy the documented ready range |

## Left out

- File I/O is not modelled: `write_text`, `slurp`, YAML loading, and cJSON's text parsing.
  The model starts from parsed trees and assumes that writing a document and reading it
  back gives the same tree. The errors "cannot read merged.json" and "invalid JSON" are
  therefore not modelled, and neither is the unused YAML read at the start of `master_flow`.
- JSON objects are maps, so duplicate keys (where cJSON returns the first match) are not
  modelled. Paths are component lists joined with "/". The absolute root prefix and the
  Windows separator are not modelled.
- Process spawning is abstracted to the child's exit code (`exitCode`, `Outcome`,
  `childExit`). Shell quoting and splitting are not modelled: a command is the list of words
  of the shell string, with quotes kept literally. `perf_counter` timing and log printing
  are not modelled.
- Generator.DrawShuttle: models only the support of the draws, not their probabilities
  (150's double weight, the two-in-three chance of zero delay, uniform choice).
- JsonIO.ReqInt: JSON numbers are integers. The `(int)` conversion from double and
  32-bit overflow are not modelled.
- PkgBuild.FindCplexLibname: the glob "cplex*.lib" is case-sensitive here. On Windows,
  Python's glob ignores case. The CPLEX_LIB directory is also looked up literally, whereas
  `glob.glob` treats glob characters (`*`, `?`, `[`) in it as a pattern: a directory named
  like `libs[x64]` finds no library in Python but may find one here.
- Params.FreeShuttle, Params.FreeFleet, Params.FreeDemand: a NULL record pointer, which the
  C functions ignore, is not modelled. Memory release is not modelled; a released array is
  the empty sequence.
- ccp/subproblem/main.c and src/mobauto2_decomp/subproblem/subproblem.c are not part of this
  model: they make foreign CPLEX calls and compute floating-point objectives.
- src/__init__.py (an import-time build script with a hard-coded library) is not part of
  this model. Neither is src/mobauto2_decomp/cli.py (argument parsing and printing only).
- `master_flow` and `fake_master_flow` are one function, `Runner.Flow`. The only difference
  between them is the unused YAML read. The flows always generate 2 shuttles, the default of
  `write_fake_input`.
