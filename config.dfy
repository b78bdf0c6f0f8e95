/** The parsed command line of the build script and the values derived from
    it and from the environment: which components a run enables, where the
    framework is installed and built, and the debug variants of names. */
module Config {
  import opened Shell

  /** A caller-supplied library or theme: its directory name under
      `Libraries/` and the letter of its generated command-line flag. */
  datatype Component = Component(name: string, shortArg: string)

  /** The record `OptionParser.parse_args` returns. Store-true flags that were
      not given are false (Python's `None`); flags generated for caller-supplied
      components are in `generated`, keyed by their destination name. */
  datatype Options = Options(
    cappuccino: bool,
    tnkit: bool,
    bambou: bool,
    nukit: bool,
    project: bool,
    all: bool,
    everything: bool,
    libraries: bool,
    generateWar: bool,
    verbose: bool,
    buildVersion: Option<string>,
    clean: bool,
    clobber: bool,
    installDir: Option<string>,
    buildDir: Option<string>,
    noManifest: bool,
    debug: bool,
    generated: map<string, bool>)

  const DefaultInstallDir: string := "/usr/local/narwhal"
  const DefaultBuildDir: string := "/usr/local/cappuccino"
  const LocalDistrib: string := "/usr/local/cappuccino-base/current"
  const DebugKey: string := "ARCHITECT_BUILD_DEBUG"
  const NoManifestKey: string := "CAPP_NOMANIFEST"

  /** Python truthiness of an optional string: absent and empty are false. */
  predicate Truthy(v: Option<string>) {
    v.Some? && v.value != ""
  }

  /** `str.lower`, on ASCII letters. */
  function LowerChar(c: char): char {
    if 'A' <= c <= 'Z' then (c as int + 32) as char else c
  }

  function Lower(s: string): (r: string)
    ensures |r| == |s|
    ensures forall i :: 0 <= i < |r| ==> !('A' <= r[i] <= 'Z')
    ensures forall i :: 0 <= i < |s| && !('A' <= s[i] <= 'Z') ==> r[i] == s[i]
    ensures forall i :: 0 <= i < |s| && 'A' <= s[i] <= 'Z' ==> r[i] as int - s[i] as int == 'a' as int - 'A' as int
  {
    seq(|s|, i requires 0 <= i < |s| => LowerChar(s[i]))
  }

  /** `getattr(options, dest)` for the boolean destinations. */
  function Attr(o: Options, dest: string): bool {
    if dest == "cappuccino" then o.cappuccino
    else if dest == "tnkit" then o.tnkit
    else if dest == "bambou" then o.bambou
    else if dest == "nukit" then o.nukit
    else if dest == "project" then o.project
    else if dest == "all" then o.all
    else if dest == "everything" then o.everything
    else if dest == "libraries" then o.libraries
    else if dest == "generatewar" then o.generateWar
    else if dest == "verbose" then o.verbose
    else if dest == "buildversion" then Truthy(o.buildVersion)
    else if dest == "clean" then o.clean
    else if dest == "clobber" then o.clobber
    else if dest == "nomanifest" then o.noManifest
    else if dest == "debug" then o.debug
    else dest in o.generated && o.generated[dest]
  }

  /** The destination name of the flag generated for a component. */
  function Dest(c: Component): string {
    Lower(c.name)
  }

  // The enabling conditions of the build path, one per kind of component.

  predicate CappuccinoEnabled(o: Options) {
    o.everything || o.cappuccino
  }

  predicate LibraryEnabled(o: Options, flag: bool) {
    o.everything || o.all || flag || o.libraries
  }

  predicate ComponentEnabled(o: Options, c: Component) {
    LibraryEnabled(o, Attr(o, Dest(c)))
  }

  predicate ProjectEnabled(o: Options) {
    o.everything || o.all || o.project
  }

  predicate WarEnabled(o: Options) {
    o.everything || o.all || o.generateWar
  }

  /** `--cappinstalldir`, with the parser's default. */
  function ParsedInstallDir(o: Options): string {
    match o.installDir
    case Some(d) => d
    case None => DefaultInstallDir
  }

  /** The build directory before home expansion: the flag if it is non-empty,
      else a non-empty `CAPP_BUILD`, else the fixed fallback. The two steps
      are those of the script: take `CAPP_BUILD` when the flag is falsy, then
      fall back when the result is still falsy. */
  function ResolveBuildDir(flag: Option<string>, env: map<string, string>): (r: string)
    ensures r != ""
    ensures Truthy(flag) ==> r == flag.value
    ensures !Truthy(flag) && "CAPP_BUILD" in env && env["CAPP_BUILD"] != "" ==> r == env["CAPP_BUILD"]
    ensures !Truthy(flag) && !("CAPP_BUILD" in env && env["CAPP_BUILD"] != "") ==> r == DefaultBuildDir
  {
    var first := if !Truthy(flag) && "CAPP_BUILD" in env then Some(env["CAPP_BUILD"]) else flag;
    if Truthy(first) then first.value else DefaultBuildDir
  }

  /** `s.split("/")[-1]`: what follows the last slash, or all of `s`. */
  function LastSegment(s: string): string
    decreases |s|
  {
    if s == [] || s[|s| - 1] == '/' then [] else LastSegment(s[..|s| - 1]) + [s[|s| - 1]]
  }

  /** The last segment is a slash-free suffix, preceded by a slash unless it
      is the whole string. */
  lemma {:induction false} LastSegmentIsLast(s: string)
    ensures var r := LastSegment(s);
      && '/' !in r
      && |r| <= |s| && s[|s| - |r|..] == r
      && (|r| < |s| ==> s[|s| - |r| - 1] == '/')
    decreases |s|
  {
    if s != [] && s[|s| - 1] != '/' {
      var init := s[..|s| - 1];
      var r' := LastSegment(init);
      LastSegmentIsLast(init);
      assert s == init + [s[|s| - 1]];
      assert s[|s| - |r'| - 1..] == init[|init| - |r'|..] + [s[|s| - 1]];
    }
  }

  /** `"%s" % v`: Python prints a missing version as `None`. */
  function VersionText(v: Option<string>): string {
    match v
    case Some(s) => s
    case None => "None"
  }

  function ProjectVersion(v: Option<string>, env: map<string, string>): string {
    if DebugKey in env then VersionText(v) + "-debug" else VersionText(v)
  }

  function WarName(name: string, env: map<string, string>): string {
    if DebugKey in env then name + "-debug" else name
  }

  function WarTarget(env: map<string, string>): string {
    if DebugKey in env then "Debug" else "Deployment"
  }

  /** The stamp `build_project` writes for a branch, a revision and a version. */
  function Stamp(branch: string, rev: string, version: string): VersionStamp {
    VersionStamp(branch + "-" + rev, version)
  }

  /** The two lines of `Resources/app-version.js` that hold a stamp. */
  function RenderStamp(stamp: VersionStamp): string {
    "APP_GITVERSION = '" + stamp.gitVersion + "'\nAPP_BUILDVERSION='" + stamp.buildVersion + "'\n"
  }
}
