/** The environment the build and run decisions consult, passed in
    explicitly: platform family, programs on PATH, environment variables,
    existing files and directory listings. */
module Host {
  import opened Wrappers

  /** `platform.system()`, lower-cased, folded into three families. */
  datatype Platform = Windows | Darwin | Other

  /** A path as its components below the repository root. */
  type Path = seq<string>

  datatype Host = Host(
    platform: Platform,
    tools: map<string, string>,            // program name -> resolved location
    vars: map<string, string>,             // environment variables
    files: set<Path>,                      // files that exist
    listing: map<string, seq<string>>)     // directory -> names of its entries

  /** `shutil.which(tool)`. */
  function Which(h: Host, tool: string): Option<string>
  {
    if tool in h.tools then Some(h.tools[tool]) else None
  }

  /** An environment variable as Python's truth test sees it: unset and
      empty both count as missing. */
  function EnvValue(h: Host, name: string): (r: Option<string>)
    ensures r.Some? ==> r.value != ""
  {
    if name in h.vars && h.vars[name] != "" then Some(h.vars[name]) else None
  }

  /** `str(path)`, with "/" as separator. */
  function PathText(p: Path): string
  {
    if |p| == 0 then "" else if |p| == 1 then p[0] else p[0] + "/" + PathText(p[1..])
  }

  /** `path.parent`. */
  function Parent(p: Path): Path
  {
    if |p| == 0 then p else p[..|p| - 1]
  }

  predicate EndsWith(s: string, suffix: string)
  {
    |suffix| <= |s| && s[|s| - |suffix|..] == suffix
  }

  function Quote(s: string): string
  {
    "\"" + s + "\""
  }
}
