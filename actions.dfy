/** The build and clean actions of the script. Each action is the list of
    primitive instructions its Python function performs, computed from the
    state the action starts in (the directory it saves, the variables it
    inspects). */
module Actions {
  import opened Shell
  import opened Config

  datatype Action =
    | Init(installDir: string, buildDir: string)
    | BuildLibrary(name: string, custom: Option<string>)
    | CleanLibrary(name: string)
    | BuildTheme(name: string)
    | CleanTheme(name: string)
    | InstallCappuccino(installDir: string, localDistrib: string)
    | CleanCappuccino(installDir: string, buildDir: string)
    | BuildWar(name: string)
    | CleanWar
    | BuildProject(version: Option<string>)
    | CleanProject
    | SetVariable(key: string, value: string)
    | Quit(code: int)

  predicate IsClean(a: Action) {
    a.CleanLibrary? || a.CleanTheme? || a.CleanCappuccino? || a.CleanWar? || a.CleanProject?
  }

  predicate IsBuild(a: Action) {
    a.BuildLibrary? || a.BuildTheme? || a.InstallCappuccino? || a.BuildWar? || a.BuildProject?
  }

  const IncludeKey: string := "OBJJ_INCLUDE_PATHS"
  const WarArchive: string := "/var/archive/supplement/visualization_framework/build.zip"
  const WarCleanLine: string := "rm -rf Application.js *.environment Frameworks Info.plist Resources index.html"
  const VersionFile: string := "Resources/app-version.js"

  /** The variables `init` always writes (before it reads `PATH`). */
  const InitKeys: set<string> := {"JAVA_OPTS", "CAPP_BUILD", "CAPP_NOSUDO", "PATH", "NARWHAL_ENGINE"}

  function LibraryDir(dir: string, name: string): string {
    Join(dir, "Libraries/" + name)
  }

  function WebappDir(dir: string): string {
    Join(dir, "./webapp")
  }

  function LibraryBuildLine(custom: Option<string>): string {
    match custom
    case None => "jake release; jake debug"
    case Some(c) => c
  }

  function LibraryGenLine(name: string): string {
    "capp gen -fl --force -F " + name + " ."
  }

  function ThemeGenLine(name: string): string {
    "capp gen -fl --force -T " + name + " ."
  }

  function BootstrapLine(h: Host, installDir: string, localDistrib: string): string {
    if h.pathExists(localDistrib) then
      "./bootstrap.sh --noprompt --directory " + installDir + " --copy-local " + localDistrib
    else
      "./bootstrap.sh --noprompt --directory " + installDir
  }

  function JarLine(name: string, env: map<string, string>): string {
    "jar -cf " + WarName(name, env) + ".war ."
  }

  function MoveWarLine(name: string, env: map<string, string>): string {
    "mv " + WarName(name, env) + ".war ../Build/" + WarTarget(env) + "/"
  }

  function DeployLine(env: map<string, string>): string {
    if DebugKey in env then "jake devdeploy" else "jake deploy"
  }

  function VersionContent(h: Host, version: Option<string>, env: map<string, string>): VersionStamp {
    Stamp(LastSegment(h.gitRef), h.gitRev, ProjectVersion(version, env))
  }

  /** `build_project` once the version stamp and the deploy command are known. */
  function ProjectScript(content: VersionStamp, deploy: string): seq<Instr> {
    [WriteFile(VersionFile, content), Run("capp gen -fl . --force", 0), Run(deploy, 0)]
  }

  /** What the action's Python function does, starting in state `m`. */
  function Script(h: Host, m: Machine, a: Action): seq<Instr> {
    var here := m.cwd;
    match a
    case Init(installDir, buildDir) =>
      [SetEnv("JAVA_OPTS", "-Xmx1024M"), SetEnv("CAPP_BUILD", buildDir), SetEnv("CAPP_NOSUDO", "1")]
      + if "PATH" in m.env then
          [SetEnv("PATH", m.env["PATH"] + ":" + installDir + "/bin")]
          + if "NARWHAL_ENGINE" in m.env then []
            else [SetEnv("NARWHAL_ENGINE", if h.isDarwin then "jsc" else "rhino")]
        else [Raise("KeyError")]
    case BuildLibrary(name, custom) =>
      [SetEnv(IncludeKey, h.root + "/Frameworks"), Chdir(LibraryDir(here, name)),
       Run(LibraryBuildLine(custom), 0), Chdir(here), Run(LibraryGenLine(name), 0)]
    case CleanLibrary(name) =>
      [Chdir(LibraryDir(here, name)), Run("jake clean", 0), Chdir(here)]
    case BuildTheme(name) =>
      [SetEnv(IncludeKey, h.root + "/Frameworks"), Chdir(LibraryDir(here, name)),
       Run("jake build", 0), Chdir(here), Run(ThemeGenLine(name), 0)]
    case CleanTheme(name) =>
      [Chdir(LibraryDir(here, name)), Run("rm -rf Build", 0), Chdir(here)]
    case InstallCappuccino(installDir, localDistrib) =>
      [Chdir(LibraryDir(here, "Cappuccino")), Run("rm -rf " + installDir, 0),
       Run(BootstrapLine(h, installDir, localDistrib), 0), Run("jake install", 0), Chdir(here)]
    case CleanCappuccino(installDir, buildDir) =>
      [Run("jake clobber-theme; jake clobber", 0), Run("rm -rf '" + installDir + "'", 0),
       Run("rm -rf '" + buildDir + "'", 0)]
    case BuildWar(name) =>
      [Chdir(WebappDir(here)), Run("unzip " + WarArchive, 0), Rename("build", "reports"),
       Run(JarLine(name, m.env), 0), Run(MoveWarLine(name, m.env), 0), Chdir(here)]
    case CleanWar =>
      [Chdir(WebappDir(here)), Run(WarCleanLine, 0), Chdir(here)]
    case BuildProject(version) =>
      ProjectScript(VersionContent(h, version, m.env), DeployLine(m.env))
    case CleanProject =>
      [Run("rm -rf Build", 0)]
    case SetVariable(key, value) =>
      [SetEnv(key, value)]
    case Quit(code) =>
      [Exit(code)]
  }

  function RunAction(h: Host, m: Machine, a: Action): Machine {
    Exec(h, m, Script(h, m, a))
  }

  /** A sequence of actions, one after the other. */
  function ExecPlan(h: Host, m: Machine, plan: seq<Action>): Machine
    decreases |plan|
  {
    if plan == [] then m else ExecPlan(h, RunAction(h, m, plan[0]), plan[1..])
  }

  /** Whether action `a` writes the environment variable `key`. */
  predicate ActionSets(a: Action, key: string) {
    || (a.Init? && key in InitKeys)
    || ((a.BuildLibrary? || a.BuildTheme?) && key == IncludeKey)
    || (a.SetVariable? && a.key == key)
  }

  // What each action does when nothing in it fails, read off the trace.

  /** `init`: four variables always, `PATH` extended by the install
      directory's `bin`, `NARWHAL_ENGINE` only when it is unset; without
      `PATH` the script dies with a `KeyError`. Nothing else changes. */
  lemma InitEffect(h: Host, m: Machine, installDir: string, buildDir: string)
    requires m.status.Running?
    ensures var r := RunAction(h, m, Init(installDir, buildDir));
      && r.trace == m.trace && r.cwd == m.cwd
      && "JAVA_OPTS" in r.env && "CAPP_BUILD" in r.env && "CAPP_NOSUDO" in r.env
      && r.env["JAVA_OPTS"] == "-Xmx1024M"
      && r.env["CAPP_BUILD"] == buildDir
      && r.env["CAPP_NOSUDO"] == "1"
      && ("PATH" !in m.env ==>
            && r.status == Raised("KeyError")
            && "PATH" !in r.env
            && ("NARWHAL_ENGINE" in r.env <==> "NARWHAL_ENGINE" in m.env)
            && ("NARWHAL_ENGINE" in m.env ==> r.env["NARWHAL_ENGINE"] == m.env["NARWHAL_ENGINE"]))
      && ("PATH" in m.env ==>
            && r.status.Running?
            && "PATH" in r.env && "NARWHAL_ENGINE" in r.env
            && r.env["PATH"] == m.env["PATH"] + ":" + installDir + "/bin"
            && r.env["NARWHAL_ENGINE"] ==
                 if "NARWHAL_ENGINE" in m.env then m.env["NARWHAL_ENGINE"]
                 else if h.isDarwin then "jsc" else "rhino")
      && forall k :: k !in InitKeys ==>
           (k in r.env <==> k in m.env) && (k in m.env ==> r.env[k] == m.env[k])
  {
    var s1, s2, s3 := SetEnv("JAVA_OPTS", "-Xmx1024M"), SetEnv("CAPP_BUILD", buildDir), SetEnv("CAPP_NOSUDO", "1");
    if "PATH" in m.env {
      var s4 := SetEnv("PATH", m.env["PATH"] + ":" + installDir + "/bin");
      if "NARWHAL_ENGINE" in m.env {
        assert Script(h, m, Init(installDir, buildDir)) == [s1, s2, s3, s4];
        Exec4(h, m, s1, s2, s3, s4);
      } else {
        var s5 := SetEnv("NARWHAL_ENGINE", if h.isDarwin then "jsc" else "rhino");
        assert Script(h, m, Init(installDir, buildDir)) == [s1, s2, s3, s4, s5];
        Exec5(h, m, s1, s2, s3, s4, s5);
      }
    } else {
      assert Script(h, m, Init(installDir, buildDir)) == [s1, s2, s3, Raise("KeyError")];
      Exec4(h, m, s1, s2, s3, Raise("KeyError"));
    }
  }

  /** `build_library`: the build command runs inside `Libraries/<name>`, and
      `capp gen` runs after the directory is restored. */
  lemma LibraryBuildEffect(h: Host, m: Machine, name: string, custom: Option<string>)
    ensures var r := RunAction(h, m, BuildLibrary(name, custom));
      r.status.Running? ==>
        && r.cwd == m.cwd
        && r.env == m.env[IncludeKey := h.root + "/Frameworks"]
        && r.trace == m.trace + [Ran(LibraryBuildLine(custom), LibraryDir(m.cwd, name), 0),
                                 Ran(LibraryGenLine(name), m.cwd, 0)]
  {
    var s := Script(h, m, BuildLibrary(name, custom));
    Exec5(h, m, s[0], s[1], s[2], s[3], s[4]);
  }

  /** The restoration is not guarded: when the build command fails the
      process stops inside the library's directory, and `capp gen` never runs. */
  lemma LibraryBuildFailure(h: Host, m: Machine, name: string, custom: Option<string>)
    requires m.status.Running?
    requires h.oracle(Invocation(|m.trace|, LibraryBuildLine(custom), LibraryDir(m.cwd, name),
                                 m.env[IncludeKey := h.root + "/Frameworks"])) != 0
    ensures var r := RunAction(h, m, BuildLibrary(name, custom));
      && r.status == Exited(FailureStatus)
      && r.cwd == LibraryDir(m.cwd, name) && r.cwd != m.cwd
      && r.trace == m.trace + [Ran(LibraryBuildLine(custom), LibraryDir(m.cwd, name),
                                   h.oracle(Invocation(|m.trace|, LibraryBuildLine(custom), LibraryDir(m.cwd, name),
                                                       m.env[IncludeKey := h.root + "/Frameworks"])))]
  {
    var s := Script(h, m, BuildLibrary(name, custom));
    Exec5(h, m, s[0], s[1], s[2], s[3], s[4]);
  }

  lemma LibraryCleanEffect(h: Host, m: Machine, name: string)
    ensures var r := RunAction(h, m, CleanLibrary(name));
      r.status.Running? ==>
        && r.cwd == m.cwd && r.env == m.env
        && r.trace == m.trace + [Ran("jake clean", LibraryDir(m.cwd, name), 0)]
  {
    var s := Script(h, m, CleanLibrary(name));
    Exec3(h, m, s[0], s[1], s[2]);
  }

  /** `build_theme`: as for a library, with the fixed `jake build` and
      `capp gen -T`. */
  lemma ThemeBuildEffect(h: Host, m: Machine, name: string)
    ensures var r := RunAction(h, m, BuildTheme(name));
      r.status.Running? ==>
        && r.cwd == m.cwd
        && r.env == m.env[IncludeKey := h.root + "/Frameworks"]
        && r.trace == m.trace + [Ran("jake build", LibraryDir(m.cwd, name), 0),
                                 Ran(ThemeGenLine(name), m.cwd, 0)]
  {
    var s := Script(h, m, BuildTheme(name));
    Exec5(h, m, s[0], s[1], s[2], s[3], s[4]);
  }

  lemma ThemeCleanEffect(h: Host, m: Machine, name: string)
    ensures var r := RunAction(h, m, CleanTheme(name));
      r.status.Running? ==>
        && r.cwd == m.cwd && r.env == m.env
        && r.trace == m.trace + [Ran("rm -rf Build", LibraryDir(m.cwd, name), 0)]
  {
    var s := Script(h, m, CleanTheme(name));
    Exec3(h, m, s[0], s[1], s[2]);
  }

  /** `install_cappuccino`: remove the old install, bootstrap (from the local
      archive when it exists), install, all inside `Libraries/Cappuccino`. */
  lemma CappuccinoInstallEffect(h: Host, m: Machine, installDir: string, localDistrib: string)
    ensures var r := RunAction(h, m, InstallCappuccino(installDir, localDistrib));
      var dir := LibraryDir(m.cwd, "Cappuccino");
      r.status.Running? ==>
        && r.cwd == m.cwd && r.env == m.env
        && r.trace == m.trace + [Ran("rm -rf " + installDir, dir, 0),
                                 Ran(BootstrapLine(h, installDir, localDistrib), dir, 0),
                                 Ran("jake install", dir, 0)]
        && (h.pathExists(localDistrib) <==>
              BootstrapLine(h, installDir, localDistrib)
                == "./bootstrap.sh --noprompt --directory " + installDir + " --copy-local " + localDistrib)
  {
    var s := Script(h, m, InstallCappuccino(installDir, localDistrib));
    Exec5(h, m, s[0], s[1], s[2], s[3], s[4]);
    var p := "./bootstrap.sh --noprompt --directory " + installDir;
    if !h.pathExists(localDistrib) {
      assert |p + " --copy-local " + localDistrib| > |p|;
    }
  }

  lemma CappuccinoCleanEffect(h: Host, m: Machine, installDir: string, buildDir: string)
    ensures var r := RunAction(h, m, CleanCappuccino(installDir, buildDir));
      r.status.Running? ==>
        && r.cwd == m.cwd && r.env == m.env
        && r.trace == m.trace + [Ran("jake clobber-theme; jake clobber", m.cwd, 0),
                                 Ran("rm -rf '" + installDir + "'", m.cwd, 0),
                                 Ran("rm -rf '" + buildDir + "'", m.cwd, 0)]
  {
    var s := Script(h, m, CleanCappuccino(installDir, buildDir));
    Exec3(h, m, s[0], s[1], s[2]);
  }

  /** `build_war`: unpack, rename, archive and move inside `webapp`; with
      `ARCHITECT_BUILD_DEBUG` set the archive is `<name>-debug.war` and goes
      to `Build/Debug`, otherwise `<name>.war` to `Build/Deployment`. */
  lemma WarBuildEffect(h: Host, m: Machine, name: string)
    ensures var r := RunAction(h, m, BuildWar(name));
      var dir := WebappDir(m.cwd);
      r.status.Running? ==>
        && r.cwd == m.cwd && r.env == m.env
        && r.trace == m.trace + [Ran("unzip " + WarArchive, dir, 0),
                                 Renamed("build", "reports", dir),
                                 Ran(JarLine(name, m.env), dir, 0),
                                 Ran(MoveWarLine(name, m.env), dir, 0)]
  {
    var s := Script(h, m, BuildWar(name));
    Exec6(h, m, s[0], s[1], s[2], s[3], s[4], s[5]);
  }

  /** `build_war` under `ARCHITECT_BUILD_DEBUG` archives `<name>-debug.war`
      and moves it to `../Build/Debug/`; otherwise it archives `<name>.war`
      and moves it to `../Build/Deployment/`. */
  lemma WarBuildNaming(h: Host, m: Machine, name: string)
    ensures var r := RunAction(h, m, BuildWar(name));
      var dir := WebappDir(m.cwd);
      var unpack := [Ran("unzip " + WarArchive, dir, 0), Renamed("build", "reports", dir)];
      r.status.Running? ==>
        && (DebugKey in m.env ==>
              r.trace == m.trace + unpack + [Ran("jar -cf " + name + "-debug.war .", dir, 0),
                                             Ran("mv " + name + "-debug.war ../Build/Debug/", dir, 0)])
        && (DebugKey !in m.env ==>
              r.trace == m.trace + unpack + [Ran("jar -cf " + name + ".war .", dir, 0),
                                             Ran("mv " + name + ".war ../Build/Deployment/", dir, 0)])
  {
    WarBuildEffect(h, m, name);
    var dir := WebappDir(m.cwd);
    var unpack := [Ran("unzip " + WarArchive, dir, 0), Renamed("build", "reports", dir)];
    var jar, mv := Ran(JarLine(name, m.env), dir, 0), Ran(MoveWarLine(name, m.env), dir, 0);
    assert m.trace + [unpack[0], unpack[1], jar, mv] == m.trace + unpack + [jar, mv];
    if DebugKey in m.env {
      JarLineDebug(name, m.env);
      MoveWarLineDebug(name, m.env);
    } else {
      MoveWarLineRelease(name, m.env);
    }
  }

  /** The archive's command lines under `ARCHITECT_BUILD_DEBUG`. */
  lemma JarLineDebug(name: string, env: map<string, string>)
    requires DebugKey in env
    ensures JarLine(name, env) == "jar -cf " + name + "-debug.war ."
  {
    JarDebugRegroup(name);
    DebugWarTails();
  }

  lemma MoveWarLineDebug(name: string, env: map<string, string>)
    requires DebugKey in env
    ensures MoveWarLine(name, env) == "mv " + name + "-debug.war ../Build/Debug/"
  {
    calc {
      MoveWarLine(name, env);
      "mv " + (name + "-debug") + ".war ../Build/" + "Debug" + "/";
      { MoveDebugRegroup(name); }
      "mv " + name + ("-debug" + ".war ../Build/" + "Debug" + "/");
      { DebugWarTails(); }
      "mv " + name + "-debug.war ../Build/Debug/";
    }
  }

  /** The move of the release archive. */
  lemma MoveWarLineRelease(name: string, env: map<string, string>)
    requires DebugKey !in env
    ensures MoveWarLine(name, env) == "mv " + name + ".war ../Build/Deployment/"
  {
    calc {
      MoveWarLine(name, env);
      "mv " + name + ".war ../Build/" + "Deployment" + "/";
      { MoveReleaseRegroup(name); }
      "mv " + name + (".war ../Build/" + "Deployment" + "/");
      { ReleaseMoveTail(); }
      "mv " + name + ".war ../Build/Deployment/";
    }
  }

  /** The archive and move lines regrouped so that their literal tails meet. */
  lemma JarDebugRegroup(name: string)
    ensures "jar -cf " + (name + "-debug") + ".war ." == "jar -cf " + name + ("-debug" + ".war .")
  {
  }

  lemma MoveDebugRegroup(name: string)
    ensures "mv " + (name + "-debug") + ".war ../Build/" + "Debug" + "/"
         == "mv " + name + ("-debug" + ".war ../Build/" + "Debug" + "/")
  {
  }

  lemma MoveReleaseRegroup(name: string)
    ensures "mv " + name + ".war ../Build/" + "Deployment" + "/"
         == "mv " + name + (".war ../Build/" + "Deployment" + "/")
  {
  }

  /** The literal tails of the debug archive's lines, joined. */
  lemma DebugWarTails()
    ensures "-debug" + ".war ." == "-debug.war ."
    ensures "-debug" + ".war ../Build/" + "Debug" + "/" == "-debug.war ../Build/Debug/"
  {
  }

  /** The literal tail of the release archive's move, joined. */
  lemma ReleaseMoveTail()
    ensures ".war ../Build/" + "Deployment" + "/" == ".war ../Build/Deployment/"
  {
  }


  lemma WarCleanEffect(h: Host, m: Machine)
    ensures var r := RunAction(h, m, CleanWar);
      r.status.Running? ==>
        && r.cwd == m.cwd && r.env == m.env
        && r.trace == m.trace + [Ran(WarCleanLine, WebappDir(m.cwd), 0)]
  {
    var s := Script(h, m, CleanWar);
    Exec3(h, m, s[0], s[1], s[2]);
  }

  /** `build_project`: the version file is written before `capp gen` and the
      deploy; with `ARCHITECT_BUILD_DEBUG` set the version carries `-debug`
      and the deploy is `jake devdeploy`. */
  lemma ProjectBuildEffect(h: Host, m: Machine, version: Option<string>)
    ensures var r := RunAction(h, m, BuildProject(version));
      r.status.Running? ==>
        && r.cwd == m.cwd && r.env == m.env
        && r.trace == m.trace + [Wrote(VersionFile, m.cwd, VersionContent(h, version, m.env)),
                                 Ran("capp gen -fl . --force", m.cwd, 0),
                                 Ran(DeployLine(m.env), m.cwd, 0)]
  {
    ProjectScriptEffect(h, m, VersionContent(h, version, m.env), DeployLine(m.env));
  }

  /** The project script with its two computed strings left abstract. */
  lemma ProjectScriptEffect(h: Host, m: Machine, content: VersionStamp, deploy: string)
    ensures var r := Exec(h, m, ProjectScript(content, deploy));
      r.status.Running? ==>
        && r.cwd == m.cwd && r.env == m.env
        && r.trace == m.trace + [Wrote(VersionFile, m.cwd, content),
                                 Ran("capp gen -fl . --force", m.cwd, 0),
                                 Ran(deploy, m.cwd, 0)]
  {
    Exec3(h, m, WriteFile(VersionFile, content), Run("capp gen -fl . --force", 0), Run(deploy, 0));
  }

  /** `build_project` under `ARCHITECT_BUILD_DEBUG` stamps the version with
      `-debug` and deploys with `jake devdeploy`; otherwise it stamps the
      version as given and deploys with `jake deploy`. The git version is
      always `<branch>-<revision>`. */
  lemma ProjectBuildNaming(h: Host, m: Machine, version: Option<string>)
    ensures var r := RunAction(h, m, BuildProject(version));
      var git := LastSegment(h.gitRef) + "-" + h.gitRev;
      var gen := Ran("capp gen -fl . --force", m.cwd, 0);
      r.status.Running? ==>
        && (DebugKey in m.env ==>
              r.trace == m.trace + [Wrote(VersionFile, m.cwd, VersionStamp(git, VersionText(version) + "-debug")),
                                    gen, Ran("jake devdeploy", m.cwd, 0)])
        && (DebugKey !in m.env ==>
              r.trace == m.trace + [Wrote(VersionFile, m.cwd, VersionStamp(git, VersionText(version))),
                                    gen, Ran("jake deploy", m.cwd, 0)])
  {
    ProjectBuildEffect(h, m, version);
  }

  lemma ProjectCleanEffect(h: Host, m: Machine)
    ensures var r := RunAction(h, m, CleanProject);
      r.status.Running? ==>
        && r.cwd == m.cwd && r.env == m.env
        && r.trace == m.trace + [Ran("rm -rf Build", m.cwd, 0)]
  {
    Exec1(h, m, Run("rm -rf Build", 0));
  }

  /** Every action that completes leaves the working directory where it
      found it. */
  lemma ActionRestoresCwd(h: Host, m: Machine, a: Action)
    ensures var r := RunAction(h, m, a);
      r.status.Running? ==> r.cwd == m.cwd
  {
    match a
    case Init(i, b) =>
      if m.status.Running? { InitEffect(h, m, i, b); } else { ExecStopped(h, m, Script(h, m, a)); }
    case BuildLibrary(n, c) => LibraryBuildEffect(h, m, n, c);
    case CleanLibrary(n) => LibraryCleanEffect(h, m, n);
    case BuildTheme(n) => ThemeBuildEffect(h, m, n);
    case CleanTheme(n) => ThemeCleanEffect(h, m, n);
    case InstallCappuccino(i, d) => CappuccinoInstallEffect(h, m, i, d);
    case CleanCappuccino(i, b) => CappuccinoCleanEffect(h, m, i, b);
    case BuildWar(n) => WarBuildEffect(h, m, n);
    case CleanWar => WarCleanEffect(h, m);
    case BuildProject(v) => ProjectBuildEffect(h, m, v);
    case CleanProject => ProjectCleanEffect(h, m);
    case SetVariable(k, v) => Exec1(h, m, SetEnv(k, v));
    case Quit(c) => Exec1(h, m, Exit(c));
  }

  /** An action changes only the variables it is declared to write. */
  lemma ActionKeepsKey(h: Host, m: Machine, a: Action, key: string)
    requires !ActionSets(a, key)
    ensures var r := RunAction(h, m, a);
      (key in r.env <==> key in m.env) && (key in m.env ==> r.env[key] == m.env[key])
  {
    ExecKeepsKey(h, m, Script(h, m, a), key);
  }

  lemma {:induction false} ExecPlanStopped(h: Host, m: Machine, plan: seq<Action>)
    requires !m.status.Running?
    ensures ExecPlan(h, m, plan) == m
    decreases |plan|
  {
    if plan != [] {
      ExecStopped(h, m, Script(h, m, plan[0]));
      ExecPlanStopped(h, RunAction(h, m, plan[0]), plan[1..]);
    }
  }

  lemma {:induction false} ExecPlanAppend(h: Host, m: Machine, p: seq<Action>, q: seq<Action>)
    ensures ExecPlan(h, m, p + q) == ExecPlan(h, ExecPlan(h, m, p), q)
    decreases |p|
  {
    if p == [] {
      assert p + q == q;
    } else {
      assert (p + q)[0] == p[0];
      assert (p + q)[1..] == p[1..] + q;
      ExecPlanAppend(h, RunAction(h, m, p[0]), p[1..], q);
    }
  }

  /** A run of actions that is still going is back in its starting directory. */
  lemma {:induction false} ExecPlanRestoresCwd(h: Host, m: Machine, plan: seq<Action>)
    ensures var r := ExecPlan(h, m, plan);
      r.status.Running? ==> r.cwd == m.cwd
    decreases |plan|
  {
    if plan != [] {
      var m' := RunAction(h, m, plan[0]);
      if m'.status.Running? {
        ActionRestoresCwd(h, m, plan[0]);
        ExecPlanRestoresCwd(h, m', plan[1..]);
      } else {
        ExecPlanStopped(h, m', plan[1..]);
      }
    }
  }

  /** A variable no action of the plan writes keeps its presence and value. */
  lemma {:induction false} ExecPlanKeepsKey(h: Host, m: Machine, plan: seq<Action>, key: string)
    requires forall a :: a in plan ==> !ActionSets(a, key)
    ensures var r := ExecPlan(h, m, plan);
      (key in r.env <==> key in m.env) && (key in m.env ==> r.env[key] == m.env[key])
    decreases |plan|
  {
    if plan != [] {
      assert plan[0] in plan;
      ActionKeepsKey(h, m, plan[0], key);
      assert forall a :: a in plan[1..] ==> a in plan;
      ExecPlanKeepsKey(h, RunAction(h, m, plan[0]), plan[1..], key);
    }
  }

  /** Only `Quit` ends the process with a status of its own choosing. */
  lemma ActionOrdinary(h: Host, m: Machine, a: Action)
    requires !a.Quit? && Ordinary(m.status)
    ensures Ordinary(RunAction(h, m, a).status)
  {
    ExecOrdinary(h, m, Script(h, m, a));
  }

  lemma {:induction false} ExecPlanOrdinary(h: Host, m: Machine, plan: seq<Action>)
    requires Ordinary(m.status)
    requires forall a :: a in plan ==> !a.Quit?
    ensures Ordinary(ExecPlan(h, m, plan).status)
    decreases |plan|
  {
    if plan != [] {
      assert plan[0] in plan;
      ActionOrdinary(h, m, plan[0]);
      assert forall a :: a in plan[1..] ==> a in plan;
      ExecPlanOrdinary(h, RunAction(h, m, plan[0]), plan[1..]);
    }
  }

  lemma ExecPlan1(h: Host, m: Machine, a: Action)
    ensures ExecPlan(h, m, [a]) == RunAction(h, m, a)
  {
    assert [a][1..] == [];
  }

  /** A plan that ends in `sys.exit(code)`: the process stops with `code`
      when everything before went through, and otherwise stays as the
      earlier failure left it. */
  lemma ExecPlanThenQuit(h: Host, m: Machine, pre: seq<Action>, code: int)
    ensures var before := ExecPlan(h, m, pre);
      var r := ExecPlan(h, m, pre + [Quit(code)]);
      && !r.status.Running?
      && (before.status.Running? ==> r == before.(status := Exited(code)))
      && (!before.status.Running? ==> r == before)
  {
    ExecPlanAppend(h, m, pre, [Quit(code)]);
    var before := ExecPlan(h, m, pre);
    ExecPlan1(h, before, Quit(code));
    if before.status.Running? {
      Exec1(h, before, Exit(code));
    } else {
      ExecStopped(h, before, [Exit(code)]);
    }
  }

  /** Running one more action after a plan. */
  lemma ExecPlanSnoc(h: Host, m: Machine, p: seq<Action>, a: Action)
    ensures ExecPlan(h, m, p + [a]) == RunAction(h, ExecPlan(h, m, p), a)
  {
    ExecPlanAppend(h, m, p, [a]);
    ExecPlan1(h, ExecPlan(h, m, p), a);
  }

  /** An action run only when `cond` holds, as a guarded call in the script. */
  function RunIf(h: Host, m: Machine, cond: bool, a: Action): Machine {
    if cond then RunAction(h, m, a) else m
  }

  lemma ExecPlanSnocIf(h: Host, m: Machine, p: seq<Action>, cond: bool, a: Action)
    ensures ExecPlan(h, m, p + (if cond then [a] else [])) == RunIf(h, ExecPlan(h, m, p), cond, a)
  {
    if cond {
      ExecPlanSnoc(h, m, p, a);
    } else {
      assert p + [] == p;
    }
  }

  lemma ExecPlanIf(h: Host, m: Machine, cond: bool, a: Action)
    ensures ExecPlan(h, m, if cond then [a] else []) == RunIf(h, m, cond, a)
  {
    if cond {
      ExecPlan1(h, m, a);
    }
  }

  lemma ExecPlan2(h: Host, m: Machine, a: Action, b: Action)
    ensures ExecPlan(h, m, [a, b]) == RunAction(h, RunAction(h, m, a), b)
  {
    ExecPlan1(h, m, a);
    ExecPlanSnoc(h, m, [a], b);
    assert [a] + [b] == [a, b];
  }

  lemma ExecPlan3(h: Host, m: Machine, a: Action, b: Action, c: Action)
    ensures ExecPlan(h, m, [a, b, c]) == RunAction(h, RunAction(h, RunAction(h, m, a), b), c)
  {
    ExecPlan2(h, m, a, b);
    ExecPlanSnoc(h, m, [a, b], c);
    assert [a, b] + [c] == [a, b, c];
  }

  lemma QuitStep(h: Host, m: Machine, code: int)
    ensures RunAction(h, m, Quit(code)) == Step(h, m, Exit(code))
  {
    Exec1(h, m, Exit(code));
  }
}
