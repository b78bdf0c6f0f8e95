/** The script as it runs: one process whose environment, working directory,
    log of outside effects and status the functions of `build.py` update in
    place. Every method is proved to leave the process in the state its
    action's specification (`RunAction`, `ExecPlan`) describes. */
module Build {
  import opened Shell
  import opened Config
  import opened Actions
  import opened Dispatch

  class Process {
    const host: Host
    var env: map<string, string>
    var cwd: string
    var trace: seq<Event>
    var status: Status

    function State(): Machine
      reads this
    {
      Machine(env, cwd, trace, status)
    }

    /** A fresh process with the caller's environment and directory. */
    constructor (host: Host, env: map<string, string>, cwd: string)
      ensures this.host == host
      ensures State() == Machine(env, cwd, [], Running)
    {
      this.host := host;
      this.env := env;
      this.cwd := cwd;
      this.trace := [];
      this.status := Running;
    }

    // The primitives. Once the process has stopped they do nothing.

    /** `command`: runs `line`, logs it and calls `sys.exit(-1)` unless
        `os.system` returns `expected`. */
    method Command(line: string, expected: int) returns (ret: int)
      modifies this
      ensures State() == Step(host, old(State()), Run(line, expected))
      ensures old(status).Running? ==> ret == ExitCode(host, old(State()), line)
    {
      ret := 0;
      if status.Running? {
        ret := host.oracle(Invocation(|trace|, line, cwd, env));
        trace := trace + [Ran(line, cwd, ret)];
        if ret != expected {
          status := Exited(FailureStatus);
        }
      }
    }

    /** `os.chdir`. */
    method ChangeDir(dir: string)
      modifies this
      ensures State() == Step(host, old(State()), Chdir(dir))
    {
      if status.Running? {
        cwd := dir;
      }
    }

    /** An assignment to `os.environ`. */
    method Export(key: string, value: string)
      modifies this
      ensures State() == Step(host, old(State()), SetEnv(key, value))
    {
      if status.Running? {
        env := env[key := value];
      }
    }

    /** Writing a version file. */
    method Write(path: string, content: VersionStamp)
      modifies this
      ensures State() == Step(host, old(State()), WriteFile(path, content))
    {
      if status.Running? {
        trace := trace + [Wrote(path, cwd, content)];
      }
    }

    /** `os.rename`. */
    method Move(source: string, target: string)
      modifies this
      ensures State() == Step(host, old(State()), Rename(source, target))
    {
      if status.Running? {
        trace := trace + [Renamed(source, target, cwd)];
      }
    }

    /** `sys.exit(code)`. */
    method Stop(code: int)
      modifies this
      ensures State() == Step(host, old(State()), Exit(code))
    {
      if status.Running? {
        status := Exited(code);
      }
    }

    /** An uncaught exception. */
    method Fail(error: string)
      modifies this
      ensures State() == Step(host, old(State()), Raise(error))
    {
      if status.Running? {
        status := Raised(error);
      }
    }

    // The functions of the script.

    method Init(installDir: string, buildDir: string)
      modifies this
      ensures State() == RunAction(host, old(State()), Action.Init(installDir, buildDir))
    {
      ghost var m := State();
      Export("JAVA_OPTS", "-Xmx1024M");
      Export("CAPP_BUILD", buildDir);
      Export("CAPP_NOSUDO", "1");
      ghost var s1, s2, s3 := SetEnv("JAVA_OPTS", "-Xmx1024M"), SetEnv("CAPP_BUILD", buildDir), SetEnv("CAPP_NOSUDO", "1");
      if "PATH" in env {
        var path := env["PATH"] + ":" + installDir + "/bin";
        assert "PATH" in m.env && path == m.env["PATH"] + ":" + installDir + "/bin";
        Export("PATH", path);
        if "NARWHAL_ENGINE" !in env {
          if !host.isDarwin {
            Export("NARWHAL_ENGINE", "rhino");
          } else {
            Export("NARWHAL_ENGINE", "jsc");
          }
          ghost var s5 := SetEnv("NARWHAL_ENGINE", if host.isDarwin then "jsc" else "rhino");
          assert Script(host, m, Action.Init(installDir, buildDir)) == [s1, s2, s3, SetEnv("PATH", path), s5];
          Exec5(host, m, s1, s2, s3, SetEnv("PATH", path), s5);
        } else {
          assert Script(host, m, Action.Init(installDir, buildDir)) == [s1, s2, s3, SetEnv("PATH", path)];
          Exec4(host, m, s1, s2, s3, SetEnv("PATH", path));
        }
      } else {
        Fail("KeyError");
        assert Script(host, m, Action.Init(installDir, buildDir)) == [s1, s2, s3, Raise("KeyError")];
        Exec4(host, m, s1, s2, s3, Raise("KeyError"));
      }
    }

    method BuildLibrary(name: string, custom: Option<string>)
      modifies this
      ensures State() == RunAction(host, old(State()), Action.BuildLibrary(name, custom))
    {
      ghost var m := State();
      Export(IncludeKey, host.root + "/Frameworks");
      var currentPath := cwd;
      ChangeDir(LibraryDir(currentPath, name));
      var ret := Command(LibraryBuildLine(custom), 0);
      ChangeDir(currentPath);
      ret := Command(LibraryGenLine(name), 0);
      ghost var s := Script(host, m, Action.BuildLibrary(name, custom));
      Exec5(host, m, s[0], s[1], s[2], s[3], s[4]);
    }

    method CleanLibrary(name: string)
      modifies this
      ensures State() == RunAction(host, old(State()), Action.CleanLibrary(name))
    {
      ghost var m := State();
      var currentPath := cwd;
      ChangeDir(LibraryDir(currentPath, name));
      var ret := Command("jake clean", 0);
      ChangeDir(currentPath);
      ghost var s := Script(host, m, Action.CleanLibrary(name));
      Exec3(host, m, s[0], s[1], s[2]);
    }

    method BuildTheme(name: string)
      modifies this
      ensures State() == RunAction(host, old(State()), Action.BuildTheme(name))
    {
      ghost var m := State();
      Export(IncludeKey, host.root + "/Frameworks");
      var currentPath := cwd;
      ChangeDir(LibraryDir(currentPath, name));
      var ret := Command("jake build", 0);
      ChangeDir(currentPath);
      ret := Command(ThemeGenLine(name), 0);
      ghost var s := Script(host, m, Action.BuildTheme(name));
      Exec5(host, m, s[0], s[1], s[2], s[3], s[4]);
    }

    method CleanTheme(name: string)
      modifies this
      ensures State() == RunAction(host, old(State()), Action.CleanTheme(name))
    {
      ghost var m := State();
      var currentPath := cwd;
      ChangeDir(LibraryDir(currentPath, name));
      var ret := Command("rm -rf Build", 0);
      ChangeDir(currentPath);
      ghost var s := Script(host, m, Action.CleanTheme(name));
      Exec3(host, m, s[0], s[1], s[2]);
    }

    method InstallCappuccino(installDir: string, localDistrib: string)
      modifies this
      ensures State() == RunAction(host, old(State()), Action.InstallCappuccino(installDir, localDistrib))
    {
      ghost var m := State();
      var currentPath := cwd;
      ChangeDir(LibraryDir(currentPath, "Cappuccino"));
      var ret := Command("rm -rf " + installDir, 0);
      if host.pathExists(localDistrib) {
        ret := Command("./bootstrap.sh --noprompt --directory " + installDir + " --copy-local " + localDistrib, 0);
      } else {
        ret := Command("./bootstrap.sh --noprompt --directory " + installDir, 0);
      }
      ret := Command("jake install", 0);
      ChangeDir(currentPath);
      ghost var s := Script(host, m, Action.InstallCappuccino(installDir, localDistrib));
      Exec5(host, m, s[0], s[1], s[2], s[3], s[4]);
    }

    method CleanCappuccino(installDir: string, buildDir: string)
      modifies this
      ensures State() == RunAction(host, old(State()), Action.CleanCappuccino(installDir, buildDir))
    {
      ghost var m := State();
      var ret := Command("jake clobber-theme; jake clobber", 0);
      ret := Command("rm -rf '" + installDir + "'", 0);
      ret := Command("rm -rf '" + buildDir + "'", 0);
      ghost var s := Script(host, m, Action.CleanCappuccino(installDir, buildDir));
      Exec3(host, m, s[0], s[1], s[2]);
    }

    method BuildWar(name: string)
      modifies this
      ensures State() == RunAction(host, old(State()), Action.BuildWar(name))
    {
      ghost var m := State();
      var warName, target := name, "Deployment";
      if DebugKey in env {
        warName, target := name + "-debug", "Debug";
      }
      assert warName == WarName(name, m.env) && target == WarTarget(m.env);
      var currentPath := cwd;
      ChangeDir(WebappDir(currentPath));
      var ret := Command("unzip " + WarArchive, 0);
      Move("build", "reports");
      ret := Command("jar -cf " + warName + ".war .", 0);
      ret := Command("mv " + warName + ".war ../Build/" + target + "/", 0);
      ChangeDir(currentPath);
      ghost var s := Script(host, m, Action.BuildWar(name));
      Exec6(host, m, s[0], s[1], s[2], s[3], s[4], s[5]);
    }

    method CleanWar()
      modifies this
      ensures State() == RunAction(host, old(State()), Action.CleanWar)
    {
      ghost var m := State();
      var currentPath := cwd;
      ChangeDir(WebappDir(currentPath));
      var ret := Command(WarCleanLine, 0);
      ChangeDir(currentPath);
      ghost var s := Script(host, m, Action.CleanWar);
      Exec3(host, m, s[0], s[1], s[2]);
    }

    method BuildProject(buildVersion: Option<string>)
      modifies this
      ensures State() == RunAction(host, old(State()), Action.BuildProject(buildVersion))
    {
      ghost var m := State();
      var gitRev := host.gitRev;
      var gitBranch := LastSegment(host.gitRef);
      var version := VersionText(buildVersion);
      if DebugKey in env {
        version := version + "-debug";
      }
      ghost var content := VersionContent(host, buildVersion, m.env);
      assert Stamp(gitBranch, gitRev, version) == content;
      Write(VersionFile, Stamp(gitBranch, gitRev, version));
      var ret := Command("capp gen -fl . --force", 0);
      if DebugKey in env {
        ret := Command("jake devdeploy", 0);
      } else {
        ret := Command("jake deploy", 0);
      }
      ghost var deploy := DeployLine(m.env);
      assert Script(host, m, Action.BuildProject(buildVersion)) == ProjectScript(content, deploy);
      Exec3(host, m, WriteFile(VersionFile, content), Run("capp gen -fl . --force", 0), Run(deploy, 0));
    }

    method CleanProject()
      modifies this
      ensures State() == RunAction(host, old(State()), Action.CleanProject)
    {
      ghost var m := State();
      var ret := Command("rm -rf Build", 0);
      Exec1(host, m, Run("rm -rf Build", 0));
    }
 
    // `perform_build`.

    /** The loop over the extra libraries of the clean path. */
    method CleanEachLibrary(libs: seq<Component>)
      modifies this
      ensures State() == ExecPlan(host, old(State()), CleanLibraries(libs))
    {
      ghost var m0 := State();
      for i := 0 to |libs|
        invariant State() == ExecPlan(host, m0, CleanLibraries(libs[..i]))
      {
        assert libs[..i + 1] == libs[..i] + [libs[i]];
        CleanLibrariesAppend(libs[..i], [libs[i]]);
        assert CleanLibraries([libs[i]]) == [Action.CleanLibrary(libs[i].name)];
        ExecPlanSnoc(host, m0, CleanLibraries(libs[..i]), Action.CleanLibrary(libs[i].name));
        CleanLibrary(libs[i].name);
      }
      assert libs[..|libs|] == libs;
    }

    /** The loop over the themes of the clean path. */
    method CleanEachTheme(themes: seq<Component>)
      modifies this
      ensures State() == ExecPlan(host, old(State()), CleanThemes(themes))
    {
      ghost var m0 := State();
      for i := 0 to |themes|
        invariant State() == ExecPlan(host, m0, CleanThemes(themes[..i]))
      {
        assert themes[..i + 1] == themes[..i] + [themes[i]];
        CleanThemesAppend(themes[..i], [themes[i]]);
        assert CleanThemes([themes[i]]) == [Action.CleanTheme(themes[i].name)];
        ExecPlanSnoc(host, m0, CleanThemes(themes[..i]), Action.CleanTheme(themes[i].name));
        CleanTheme(themes[i].name);
      }
      assert themes[..|themes|] == themes;
    }

    /** One iteration of the build path's loop over the extra libraries. */
    method BuildLibraryIfEnabled(options: Options, library: Component)
      modifies this
      ensures State() == RunIf(host, old(State()), ComponentEnabled(options, library),
                               Action.BuildLibrary(library.name, None))
    {
      if options.everything || options.all || Attr(options, Lower(library.name)) || options.libraries {
        BuildLibrary(library.name, None);
      }
    }

    /** One iteration of the build path's loop over the themes. */
    method BuildThemeIfEnabled(options: Options, theme: Component)
      modifies this
      ensures State() == RunIf(host, old(State()), ComponentEnabled(options, theme),
                               Action.BuildTheme(theme.name))
    {
      if options.everything || options.all || Attr(options, Lower(theme.name)) || options.libraries {
        BuildTheme(theme.name);
      }
    }

    /** The loop over the extra libraries of the build path. */
    method BuildEachLibrary(options: Options, libs: seq<Component>)
      modifies this
      ensures State() == ExecPlan(host, old(State()), LibraryBuilds(options, libs))
    {
      ghost var m0 := State();
      for i := 0 to |libs|
        invariant State() == ExecPlan(host, m0, LibraryBuilds(options, libs[..i]))
      {
        LibraryBuildsSnoc(options, libs, i);
        ExecPlanSnocIf(host, m0, LibraryBuilds(options, libs[..i]), ComponentEnabled(options, libs[i]), Action.BuildLibrary(libs[i].name, None));
        BuildLibraryIfEnabled(options, libs[i]);
      }
      assert libs[..|libs|] == libs;
    }

    /** The loop over the themes of the build path. */
    method BuildEachTheme(options: Options, themes: seq<Component>)
      modifies this
      ensures State() == ExecPlan(host, old(State()), ThemeBuilds(options, themes))
    {
      ghost var m0 := State();
      for i := 0 to |themes|
        invariant State() == ExecPlan(host, m0, ThemeBuilds(options, themes[..i]))
      {
        ThemeBuildsSnoc(options, themes, i);
        ExecPlanSnocIf(host, m0, ThemeBuilds(options, themes[..i]), ComponentEnabled(options, themes[i]), Action.BuildTheme(themes[i].name));
        BuildThemeIfEnabled(options, themes[i]);
      }
      assert themes[..|themes|] == themes;
    }

    /** The three libraries the clean path starts with. */
    method CleanRequired()
      modifies this
      ensures State() == ExecPlan(host, old(State()), RequiredCleans)
    {
      ghost var s0 := State();
      CleanLibrary("NUKit");
      CleanLibrary("TNKit");
      CleanLibrary("Bambou");
      ExecPlan3(host, s0, Action.CleanLibrary("NUKit"), Action.CleanLibrary("TNKit"), Action.CleanLibrary("Bambou"));
    }

    /** The clean path: every library and theme, the project, the WAR,
        Cappuccino on `--clobber`, then `sys.exit(0)`. */
    method CleanAll(clobber: bool, libs: seq<Component>, themes: seq<Component>,
                    installDir: string, buildDir: string)
      modifies this
      ensures State() == ExecPlan(host, old(State()), CleanPlan(clobber, libs, themes, installDir, buildDir))
    {
      ghost var s0 := State();
      CleanRequired();
      ghost var s1 := State();
      CleanEachLibrary(libs);
      ghost var s2 := State();
      CleanEachTheme(themes);
      ghost var s3 := State();
      CleanProject();
      ghost var s4 := State();
      CleanWar();
      ghost var s5 := State();
      if clobber {
        CleanCappuccino(installDir, buildDir);
      }
      ghost var s6 := State();
      Stop(0);
      CleanPlanRun(host, s0, s1, s2, s3, s4, s5, s6, clobber, libs, themes, installDir, buildDir);
    }

    /** The "required libraries" block: Cappuccino, TNKit, Bambou, NUKit,
        each under its flags. */
    method BuildRequired(options: Options, installDir: string)
      modifies this
      ensures State() == ExecPlan(host, old(State()), RequiredBuilds(options, installDir))
    {
      ghost var s0 := State();
      if options.everything || options.cappuccino {
        InstallCappuccino(installDir, LocalDistrib);
      }
      ghost var s1 := State();
      if options.everything || options.all || options.tnkit || options.libraries {
        BuildLibrary("TNKit", None);
      }
      ghost var s2 := State();
      if options.everything || options.all || options.bambou || options.libraries {
        BuildLibrary("Bambou", None);
      }
      ghost var s3 := State();
      if options.everything || options.all || options.nukit || options.libraries {
        BuildLibrary("NUKit", None);
      }
      RequiredRun(host, options, installDir, s0, s1, s2, s3, State());
    }

    /** The build path: the two exports, then each enabled component in the
        fixed order. */
    method BuildAll(options: Options, libs: seq<Component>, themes: seq<Component>,
                    warName: string, installDir: string)
      modifies this
      ensures State() == ExecPlan(host, old(State()),
                                  EnvPlan(options) + Builds(options, libs, themes, warName, installDir))
    {
      ghost var s0 := State();
      if options.noManifest {
        Exec1(host, s0, SetEnv(NoManifestKey, "1"));
        Export(NoManifestKey, "1");
      }
      ghost var s1 := State();
      if options.debug {
        Exec1(host, s1, SetEnv(DebugKey, "1"));
        Export(DebugKey, "1");
      }
      ghost var s2 := State();
      BuildRequired(options, installDir);
      ghost var s3 := State();
      BuildEachLibrary(options, libs);
      ghost var s4 := State();
      BuildEachTheme(options, themes);
      ghost var s5 := State();
      if options.everything || options.all || options.project {
        BuildProject(options.buildVersion);
      }
      ghost var s6 := State();
      if options.everything || options.all || options.generateWar {
        BuildWar(warName);
      }
      BuildPlanRun(host, options, libs, themes, warName, installDir, s0, s1, s2, s3, s4, s5, s6, State());
    }

    /** `perform_build` after the command line is parsed: resolve the two
        directories, `init`, then one of the two paths. */
    method PerformBuild(options: Options, libs: seq<Component>, themes: seq<Component>, warName: string)
      modifies this
      ensures State() == ExecPlan(host, old(State()), Plan(host, options, old(env), libs, themes, warName))
    {
      ghost var m0 := State();
      var buildDirFlag := options.buildDir;
      if !Truthy(buildDirFlag) && "CAPP_BUILD" in env {
        buildDirFlag := Some(env["CAPP_BUILD"]);
      }
      if !Truthy(buildDirFlag) {
        buildDirFlag := Some(DefaultBuildDir);
      }
      var installDir := host.expand(ParsedInstallDir(options));
      var buildDir := host.expand(buildDirFlag.value);
      assert installDir == InstallDirOf(host, options) && buildDir == BuildDirOf(host, options, m0.env);
      ExecPlan1(host, m0, Action.Init(installDir, buildDir));
      Init(installDir, buildDir);
      ghost var afterInit := State();
      ghost var p := Plan(host, options, m0.env, libs, themes, warName);
      assert p == [Action.Init(installDir, buildDir)] + p[1..];
      ExecPlanAppend(host, m0, [Action.Init(installDir, buildDir)], p[1..]);
      PlanSplit(host, options, m0.env, libs, themes, warName);
      if options.clean || options.clobber {
        CleanAll(options.clobber, libs, themes, installDir, buildDir);
        return;
      }
      BuildAll(options, libs, themes, warName, installDir);
    }
  }
}
