# NUKit build script, modelled in Dafny

`Tools/nukit/build.py` is the command-line driver that builds a NUKit-based
web application. It parses a fixed set of flags, plus one generated flag per
caller-supplied library or theme. It settles the Cappuccino install and build
directories, prepares the environment (`init`), and then takes one of two
paths:

- the **clean path** (`--clean` / `--clobber`) cleans every library, every
  theme, the project and the WAR, removes Cappuccino on `--clobber`, and exits
  with status 0;
- the **build path** optionally exports `CAPP_NOMANIFEST` and
  `ARCHITECT_BUILD_DEBUG`. It then builds, in a fixed order, every component
  whose enabling flags are set: Cappuccino, TNKit, Bambou, NUKit, the extra
  libraries, the themes, the project and the WAR archive.

Every `os.system` call goes through `command`, which calls `sys.exit(-1)` when
the value `os.system` returns is not the expected one (the process then exits
with status 255). The model treats that value as opaque: it comes from a host
oracle and stands for whatever `os.system` returns, which under Python 2 on
POSIX is a wait status rather than the command's exit code.

The model is layered like the script:

- **`Shell`** (`shell.dfy`) is the process state: the environment, the
  working directory, a trace of externally visible events (commands run,
  files written, files renamed) and a status (running, exited, raised). It
  defines the primitive instructions and their meaning (`Step`, `Exec`), and
  the fail-fast rule: a stopped process does nothing more. Exit codes of
  shell commands come from that host oracle. The oracle sees the command line,
  the directory, the environment and the command's position in the trace.
- **`Config`** (`config.dfy`) holds the parsed options, the `getattr` lookup
  of flag destinations, the enabling condition of each component, the
  build-directory fallback chain and the debug variants of names.
- **`Actions`** (`actions.dfy`) turns each Python function of the script
  (`init`, `build_library`, `clean_library`, `build_theme`, `clean_theme`,
  `install_cappuccino`, `clean_cappuccino`, `build_war`, `clean_war`,
  `build_project`, `clean_project`) into the instruction list it performs.
  The list is computed from the state the function starts in.
- **`Dispatch`** (`dispatch.dfy`) is `perform_build` as a pure plan: the
  ordered list of actions a command line leads to. It also holds the lemmas
  about the plan and about running it.
- **`Build`** (`build.dfy`) is the script written imperatively in `class
  Process`. The class has one method per Python function, statement by
  statement. Each method's postcondition ties the new state to the
  specification above (`RunAction`, `ExecPlan`, `Plan`). The action methods
  save the working directory and restore it exactly as the script does.

`--setversion` not given is Python's `None`, and `build_project` then writes
the version `None` (or `None-debug`). The model does the same (`VersionText`).

## Model

| member | source | states |
|---|---|---|
| Shell.Step | Tools/nukit/build.py:38-63 | definition: one primitive instruction on a running process (a `command` with its return value from the host, `chdir`, an environment write, a file write, a rename, `sys.exit`, a raised error); a stopped process is left as it is |
| Shell.Exec | Tools/nukit/build.py:38-63 | definition: a list of instructions run one after the other |
| Shell.CommandFails | Tools/nukit/build.py:55-59 | when the host's return value is not the expected one, the command is logged with its directory and value and the process ends with `sys.exit(-1)`; nothing after it runs or is logged |
| Shell.CommandSucceeds | Tools/nukit/build.py:55-63 | when the return value is the expected one, the command is logged and the rest runs from there, in the same directory and environment |
| Shell.FailFast | Tools/nukit/build.py:55-59 | once a script has stopped the process, anything appended to it has no effect and is not logged |
| Shell.ExecStopped | Tools/nukit/build.py:57-59 | a stopped process stays exactly as it is whatever is left to run |
| Shell.ExecExtendsTrace | Tools/nukit/build.py:55 | the log of commands only grows: the old trace is a prefix of the new one |
| Shell.ExecCwd | Tools/nukit/build.py:97-105 | a run that ends still running stands in the directory of the last `chdir` of the script |
| Shell.ExecKeepsKey | Tools/nukit/build.py:74-83 | a variable the script never sets keeps its presence and value |
| Shell.ExecOrdinary | Tools/nukit/build.py:55-59 | without an explicit exit, a script ends running, stopped with status -1, or stopped by a `KeyError` |
| Config.Lower | Tools/nukit/build.py:393-400 | `str.lower` on ASCII: the length is kept, no upper-case letter is left, every upper-case letter becomes its lower-case partner and every other character is unchanged |
| Config.Attr | Tools/nukit/build.py:393-400 | definition: `getattr(options, dest)` for the boolean destinations — a fixed flag's own field, else the generated flag of that name, else false |
| Config.Truthy | Tools/nukit/build.py:346-349 | definition: Python truthiness of an optional string flag, the `not options.x` tests; absent and empty are false |
| Config.CappuccinoEnabled | Tools/nukit/build.py:382 | definition: Cappuccino is installed under `--everything` or `--cappuccino` |
| Config.LibraryEnabled | Tools/nukit/build.py:385-390 | definition: a library builds under `--everything`, `--all`, its own flag or `--libraries` |
| Config.ComponentEnabled | Tools/nukit/build.py:394-399 | definition: an extra library or theme builds under `--everything`, `--all`, the generated flag of its lower-cased name or `--libraries` |
| Config.ProjectEnabled | Tools/nukit/build.py:402 | definition: the project builds under `--everything`, `--all` or `--project` |
| Config.WarEnabled | Tools/nukit/build.py:405 | definition: the archive builds under `--everything`, `--all` or `--war` |
| Config.ResolveBuildDir | Tools/nukit/build.py:346-349 | the build directory is the flag if non-empty, else a non-empty `CAPP_BUILD`, else `/usr/local/cappuccino`; never empty |
| Config.LastSegmentIsLast | Tools/nukit/build.py:234 | the branch name is the slash-free suffix of the ref, preceded by a slash unless it is the whole ref |
| Config.LastSegment | Tools/nukit/build.py:234 | definition: `ref.split("/")[-1]`, the branch name; its meaning is stated by `Config.LastSegmentIsLast` |
| Config.VersionText | Tools/nukit/build.py:236-239 | definition: `"%s" % version`, with a missing `--setversion` printed as `None` |
| Config.ProjectVersion | Tools/nukit/build.py:236-239 | definition: the version with `-debug` appended when `ARCHITECT_BUILD_DEBUG` is set; used through `Actions.ProjectBuildNaming` |
| Config.RenderStamp | Tools/nukit/build.py:239-241 | definition: the two lines of `Resources/app-version.js` for a stamp |
| Config.WarName | Tools/nukit/build.py:198-202 | definition: the archive name, with `-debug` appended when `ARCHITECT_BUILD_DEBUG` is set; used through `Actions.WarBuildNaming` |
| Config.WarTarget | Tools/nukit/build.py:198-209 | definition: the target directory, `Debug` when `ARCHITECT_BUILD_DEBUG` is set, else `Deployment` |
| Actions.BootstrapLine | Tools/nukit/build.py:167-170 | definition: the bootstrap command, with `--copy-local <distrib>` exactly when the local distribution exists |
| Actions.DeployLine | Tools/nukit/build.py:244-247 | definition: `jake devdeploy` when `ARCHITECT_BUILD_DEBUG` is set, else `jake deploy` |
| Actions.Script | Tools/nukit/build.py:66-254 | definition: one case per action function, the instructions it performs from the state it starts in |
| Actions.RunAction | Tools/nukit/build.py:66-254 | definition: one call of an action function |
| Actions.ExecPlan | Tools/nukit/build.py:356-406 | definition: calls of action functions one after the other |
| Actions.InitEffect | Tools/nukit/build.py:66-83 | `init` sets `JAVA_OPTS`, `CAPP_BUILD`, `CAPP_NOSUDO`; appends the install `bin` to `PATH`; sets `NARWHAL_ENGINE` (jsc on darwin, rhino otherwise) only when unset; dies with `KeyError` without `PATH`; no other variable, directory or log entry changes |
| Actions.LibraryBuildEffect | Tools/nukit/build.py:88-106 | `build_library` sets `OBJJ_INCLUDE_PATHS`, runs the build command inside `Libraries/<name>`, restores the directory and runs `capp gen -F <name>` in it |
| Actions.LibraryBuildFailure | Tools/nukit/build.py:98-105 | when the build command fails the process stops with `sys.exit(-1)` inside the library directory, and the only event logged is that build command with its return value, so `capp gen` never runs |
| Actions.LibraryCleanEffect | Tools/nukit/build.py:109-119 | `clean_library` runs `jake clean` inside `Libraries/<name>` and comes back; environment untouched |
| Actions.ThemeBuildEffect | Tools/nukit/build.py:124-136 | `build_theme` sets `OBJJ_INCLUDE_PATHS`, runs `jake build` inside the theme, then `capp gen -T <name>` back in the starting directory |
| Actions.ThemeCleanEffect | Tools/nukit/build.py:139-149 | `clean_theme` runs `rm -rf Build` inside the theme and comes back |
| Actions.CappuccinoInstallEffect | Tools/nukit/build.py:154-173 | `install_cappuccino` removes the install directory, bootstraps, and runs `jake install`, all inside `Libraries/Cappuccino`; it uses `--copy-local` exactly when the local archive exists |
| Actions.CappuccinoCleanEffect | Tools/nukit/build.py:176-186 | `clean_cappuccino` runs the clobber, removes the quoted install directory, then the quoted build directory |
| Actions.WarBuildEffect | Tools/nukit/build.py:191-210 | `build_war` unzips, renames `build` to `reports`, archives and moves, inside `webapp`, then comes back |
| Actions.WarBuildNaming | Tools/nukit/build.py:198-209 | a completed `build_war` logs the unzip, the rename, then `jar -cf <name>-debug.war .` and `mv <name>-debug.war ../Build/Debug/` when `ARCHITECT_BUILD_DEBUG` is set, and `jar -cf <name>.war .` and `mv <name>.war ../Build/Deployment/` otherwise |
| Actions.WarCleanEffect | Tools/nukit/build.py:213-221 | `clean_war` removes the generated files inside `webapp` and comes back |
| Actions.ProjectBuildEffect | Tools/nukit/build.py:226-247 | `build_project` writes the version stamp before `capp gen` and the deploy, all in the current directory |
| Actions.ProjectScriptEffect | Tools/nukit/build.py:239-247 | the write, the generation and the deploy happen in that order, with environment and directory unchanged |
| Actions.ProjectBuildNaming | Tools/nukit/build.py:233-247 | a completed `build_project` writes the stamp `<branch>-<rev>` / `<version>-debug` and runs `jake devdeploy` when `ARCHITECT_BUILD_DEBUG` is set, and writes `<branch>-<rev>` / `<version>` and runs `jake deploy` otherwise, with `capp gen` between |
| Actions.ProjectCleanEffect | Tools/nukit/build.py:250-254 | `clean_project` runs `rm -rf Build` where it stands |
| Actions.ActionRestoresCwd | Tools/nukit/build.py:97-221 | every action that completes leaves the working directory where it found it |
| Actions.ActionKeepsKey | Tools/nukit/build.py:74-96 | an action changes only the variables it is declared to write |
| Actions.ExecPlanStopped | Tools/nukit/build.py:57-59 | after the process has stopped, no later action has any effect |
| Actions.ExecPlanAppend | Tools/nukit/build.py:257-406 | running two plans one after the other is running their concatenation |
| Actions.ExecPlanRestoresCwd | Tools/nukit/build.py:356-406 | a sequence of completed actions ends in the directory it started in |
| Actions.ExecPlanKeepsKey | Tools/nukit/build.py:356-406 | a sequence of actions none of which writes a variable leaves it as it was |
| Actions.ExecPlanOrdinary | Tools/nukit/build.py:381-406 | actions without an explicit exit end running, failed with -1, or stopped by `KeyError` |
| Actions.ExecPlanThenQuit | Tools/nukit/build.py:373 | `sys.exit(code)` after a plan stops a running process with that code and leaves a stopped one as it was |
| Dispatch.InstallDirOf | Tools/nukit/build.py:346-352 | definition: the install directory flag or `/usr/local/narwhal`, after home expansion |
| Dispatch.BuildDirOf | Tools/nukit/build.py:346-352 | definition: the resolved build directory after home expansion; its fallback chain is stated by `Config.ResolveBuildDir` |
| Dispatch.CleanLibraries | Tools/nukit/build.py:361-362 | definition: one `clean_library` per extra library, in the caller's order |
| Dispatch.CleanThemes | Tools/nukit/build.py:364-365 | definition: one `clean_theme` per theme, in the caller's order |
| Dispatch.CleanPlan | Tools/nukit/build.py:356-373 | definition: the clean path's calls, ending in `sys.exit(0)`; its shape is stated by `Dispatch.CleanOrder` |
| Dispatch.EnvPlan | Tools/nukit/build.py:375-379 | definition: the exports of the build path; stated by `Dispatch.EnvPlanExports` |
| Dispatch.RequiredBuilds | Tools/nukit/build.py:381-390 | definition: the required-libraries block, each call under its condition |
| Dispatch.LibraryBuilds | Tools/nukit/build.py:393-395 | definition: the loop over extra libraries; stated by `Dispatch.LibraryBuildsSelect` |
| Dispatch.ThemeBuilds | Tools/nukit/build.py:398-400 | definition: the loop over themes; stated by `Dispatch.ThemeBuildsSelect` |
| Dispatch.Builds | Tools/nukit/build.py:381-406 | definition: the build path's calls in order; stated by `Dispatch.BuildsAreSelection` |
| Dispatch.Plan | Tools/nukit/build.py:351-354 | the plan always starts with `init` on the expanded install and build directories |
| Dispatch.InitArguments | Tools/nukit/build.py:328-354 | `init` gets the expanded install flag or `/usr/local/narwhal`, and the expanded build flag, else `CAPP_BUILD`, else `/usr/local/cappuccino` |
| Dispatch.InitFirstOnly | Tools/nukit/build.py:354 | `init` is the first action and occurs nowhere else in the plan |
| Dispatch.CleanOrder | Tools/nukit/build.py:356-373 | the clean path in order: NUKit, TNKit, Bambou, every extra library, every theme, project, WAR, Cappuccino only with `--clobber`, and the exit with 0 last |
| Dispatch.ClobberExtendsClean | Tools/nukit/build.py:370-373 | `--clobber` is `--clean` with Cappuccino's removal inserted before the exit |
| Dispatch.CleanOnlyCleans | Tools/nukit/build.py:357-371 | every action before the exit on the clean path is a clean action |
| Dispatch.CleanPathShape | Tools/nukit/build.py:356-373 | the clean path builds nothing, exports nothing and ends with `sys.exit(0)` |
| Dispatch.BuildPathShape | Tools/nukit/build.py:375-406 | the build path cleans nothing and never exits on its own |
| Dispatch.SelectEmpty | Tools/nukit/build.py:381-406 | a selection is empty exactly when no position is enabled |
| Dispatch.BuildsAreSelection | Tools/nukit/build.py:381-406 | the build path is exactly the fixed full order filtered by each component's enabling flags |
| Dispatch.LibraryBuildsSelect | Tools/nukit/build.py:393-395 | the extra libraries built are the enabled ones, in the caller's order |
| Dispatch.ThemeBuildsSelect | Tools/nukit/build.py:398-400 | the themes built are the enabled ones, in the caller's order |
| Dispatch.LibraryBuildsEmpty | Tools/nukit/build.py:393-395 | no extra library is built exactly when none is enabled |
| Dispatch.ThemeBuildsEmpty | Tools/nukit/build.py:398-400 | no theme is built exactly when none is enabled |
| Dispatch.EverythingBuildsAll | Tools/nukit/build.py:382-406 | `--everything` builds every component, Cappuccino first |
| Dispatch.AllOmitsOnlyCappuccino | Tools/nukit/build.py:382-406 | `--all` builds what `--everything` builds, except Cappuccino, which needs `--cappuccino` |
| Dispatch.LibrariesOnly | Tools/nukit/build.py:385-400 | `--libraries` alone builds the three fixed libraries, every extra library and every theme, and nothing else |
| Dispatch.NothingToBuild | Tools/nukit/build.py:381-406 | the build path builds nothing exactly when no enabling flag is given, fixed or generated |
| Dispatch.BuildsAreBuildActions | Tools/nukit/build.py:381-406 | the build path holds only build actions, none with a custom command |
| Dispatch.EnvPlanExports | Tools/nukit/build.py:375-379 | the export block writes at most `CAPP_NOMANIFEST` and `ARCHITECT_BUILD_DEBUG`, each as `1` and exactly when its flag is given |
| Dispatch.EnvPlanEffect | Tools/nukit/build.py:375-379 | after the exports each variable is `1` when its flag is given, or keeps its earlier presence; nothing else changes and nothing is logged |
| Dispatch.CleanRunExits | Tools/nukit/build.py:356-373 | a clean run always stops: with status 0 exactly when every clean action went through, otherwise in the state the failure left |
| Dispatch.CleanIgnoresExportFlags | Tools/nukit/build.py:356-379 | `--nomanifest` and `--debug` have no effect on a clean run: with `--clean` or `--clobber` the plan is the same whatever the two flags are |
| Dispatch.CleanRunKeepsExports | Tools/nukit/build.py:356-379 | a clean run leaves `CAPP_NOMANIFEST` and `ARCHITECT_BUILD_DEBUG` with the presence and value the caller gave them |
| Dispatch.BuildRun | Tools/nukit/build.py:354-406 | a build run is `init`, then the exports, then the builds, and ends without an explicit exit |
| Dispatch.DebugReachesBuilds | Tools/nukit/build.py:375-390 | after `init` and the exports, `ARCHITECT_BUILD_DEBUG` is set exactly when `--debug` is given or it was already set |
| Dispatch.BuildsKeepDebug | Tools/nukit/build.py:381-406 | no build action writes `ARCHITECT_BUILD_DEBUG`: before each build of the build path it is present, with the same value, exactly when it was after the exports |
| Dispatch.DebugNamesWar | Tools/nukit/build.py:375-406 | with `--war` (or `--all`/`--everything`), the archive is built last, and as `<name>-debug.war` in `../Build/Debug/` exactly when `--debug` is given or the caller had set `ARCHITECT_BUILD_DEBUG`, else as `<name>.war` in `../Build/Deployment/` |
| Dispatch.ProjectPosition | Tools/nukit/build.py:402-406 | with `--project`, the project build is the last action of the build path, or the one before the archive build, and carries the `--setversion` argument |
| Dispatch.DebugDeploysProject | Tools/nukit/build.py:375-406 | on the build path the project build stamps `<version>-debug` and runs `jake devdeploy` exactly when `--debug` is given or the caller had set `ARCHITECT_BUILD_DEBUG`, else stamps the version and runs `jake deploy` |
| Dispatch.NukitOnlyPlan | Tools/nukit/build.py:344-390 | `-k` alone: `init` with the default directories, then NUKit's build, and nothing else |
| Dispatch.CleanPlanRun | Tools/nukit/build.py:356-373 | the clean path taken call by call is the run of the clean plan |
| Dispatch.RequiredRun | Tools/nukit/build.py:381-390 | the required-libraries block taken call by call is the run of its four conditional actions |
| Dispatch.BuildPlanRun | Tools/nukit/build.py:375-406 | the build path taken call by call is the run of the exports followed by the builds |
| Build.Process.constructor | Tools/nukit/build.py:259 | the process `perform_build` starts in: the caller-supplied environment and directory, an empty log, running |
| Build.Process.Command | Tools/nukit/build.py:38-63 | one `command` call; while running, returns the host's exit code |
| Build.Process.ChangeDir | Tools/nukit/build.py:97-105 | the new state is that of one `os.chdir` |
| Build.Process.Export | Tools/nukit/build.py:74-76 | the new state is that of one write to `os.environ` |
| Build.Process.Write | Tools/nukit/build.py:239-241 | the new state is that of writing the version file |
| Build.Process.Move | Tools/nukit/build.py:207 | the new state is that of one `os.rename` |
| Build.Process.Stop | Tools/nukit/build.py:373 | the new state is that of `sys.exit(code)` |
| Build.Process.Fail | Tools/nukit/build.py:77 | the new state is that of the uncaught `KeyError` |
| Build.Process.Init | Tools/nukit/build.py:66-83 | the new state is `init`'s run from the old one |
| Build.Process.BuildLibrary | Tools/nukit/build.py:88-106 | the new state is `build_library`'s run |
| Build.Process.CleanLibrary | Tools/nukit/build.py:109-119 | the new state is `clean_library`'s run |
| Build.Process.BuildTheme | Tools/nukit/build.py:124-136 | the new state is `build_theme`'s run |
| Build.Process.CleanTheme | Tools/nukit/build.py:139-149 | the new state is `clean_theme`'s run |
| Build.Process.InstallCappuccino | Tools/nukit/build.py:154-173 | the new state is `install_cappuccino`'s run |
| Build.Process.CleanCappuccino | Tools/nukit/build.py:176-186 | the new state is `clean_cappuccino`'s run |
| Build.Process.BuildWar | Tools/nukit/build.py:191-210 | the new state is `build_war`'s run |
| Build.Process.CleanWar | Tools/nukit/build.py:213-221 | the new state is `clean_war`'s run |
| Build.Process.BuildProject | Tools/nukit/build.py:226-247 | the new state is `build_project`'s run |
| Build.Process.CleanProject | Tools/nukit/build.py:250-254 | the new state is `clean_project`'s run |
| Build.Process.CleanEachLibrary | Tools/nukit/build.py:361-362 | the loop leaves the state of cleaning every extra library in order |
| Build.Process.CleanEachTheme | Tools/nukit/build.py:364-365 | the loop leaves the state of cleaning every theme in order |
| Build.Process.BuildEachLibrary | Tools/nukit/build.py:393-395 | the loop leaves the state of building exactly the enabled extra libraries in order |
| Build.Process.BuildEachTheme | Tools/nukit/build.py:398-400 | the loop leaves the state of building exactly the enabled themes in order |
| Build.Process.BuildLibraryIfEnabled | Tools/nukit/build.py:394-395 | one iteration: the library is built exactly when `--everything`, `--all`, its own flag or `--libraries` is given |
| Build.Process.BuildThemeIfEnabled | Tools/nukit/build.py:399-400 | one iteration: the theme is built exactly when `--everything`, `--all`, its own flag or `--libraries` is given |
| Build.Process.CleanRequired | Tools/nukit/build.py:357-359 | the state after cleaning NUKit, TNKit and Bambou |
| Build.Process.CleanAll | Tools/nukit/build.py:356-373 | the new state is the run of the clean plan, exit included |
| Build.Process.BuildRequired | Tools/nukit/build.py:381-390 | the state after the required-libraries block |
| Build.Process.BuildAll | Tools/nukit/build.py:375-406 | the new state is the run of the exports and the builds |
| Build.Process.PerformBuild | Tools/nukit/build.py:344-406 | the new state is the run of `Plan` for these options, the starting environment and the components |

## Left out

- Parsing of the command line (`OptionParser`, lines 263-344) is not modelled. The parsed record is the input `Options`. Flag clashes between generated and fixed flags, help and usage errors are therefore outside the model.
- `Config.Attr`: a generated destination equal to a fixed boolean one shares that flag's single value in the parsed record, so `getattr` returns the fixed field. `buildversion` is read by its truthiness. A component whose lower-cased name is `cappuccinoinstalldir` or `cappuccinobuilddir` is looked up among the generated flags, not in the string-valued directory options.
- `str.lower` is modelled on ASCII letters only.
- `Config.Component.shortArg` only records the letter of a component's generated flag; since option parsing is not modelled, nothing reads it.
- Printing (titles, colours, the `SUCCESS`/`ERROR` lines, help texts) is left out: it changes no state the script depends on. `--verbose` is parsed but never read by the script, so it has no effect in the model either.
- `os.system` is a host oracle from the invocation to an exit code. The shell commands themselves (jake, capp, bootstrap, unzip, jar, mv, rm) are not modelled; they run in the directory and environment recorded in the trace.
- `os.makedirs` in `init` is left out: it ignores every error and changes no state the script reads.
- `os.chdir` is modelled as appending a relative path to the current directory. The model has no path normalisation and treats `chdir` as never failing: a missing directory (an `OSError`) is not modelled.
- `os.rename` is an event in the trace that never fails: its `OSError` is not modelled.
- `os.path.expanduser` and `os.path.exists` are uninterpreted functions of the host. `sys.platform` is reduced to whether it names darwin.
- `ROOT_DIRECTORY` is a host constant.
- The two `git` queries of `build_project` run through `commands.getoutput`, not `command`: they are host values, and their exit status, which the script never checks, is not modelled.
- `perform_build`'s default arguments (line 259: no extra libraries, no themes, `war_name="ui"`) are not modelled: every caller of the model passes the libraries, the themes and the archive name.
- A command that never returns is not modelled: the oracle always answers, and the script itself has no time-out.
- The file written by `build_project` is a trace event holding a structured stamp. Its two-line text is `Config.RenderStamp`.
- Opening and writing `Resources/app-version.js` is assumed never to fail, like `os.rename`: an `IOError` there is not modelled.
- A `sys.exit` status is kept as the integer the script passes (`-1`, `0`); the reduction modulo 256 that makes the process exit with 255 is not modelled.
- `Build.Process.PerformBuild`: the script overwrites the two directory options in place (lines 346-352). The method keeps the options record unchanged and holds the resolved directories in locals. The clean and build paths, the required-library blocks and the component loops are helper methods of `Process` (`CleanAll`, `BuildAll`, `CleanRequired`, `BuildRequired`, `CleanEach…`, `BuildEach…`, `Build…IfEnabled`). The script writes them inline.
- The `KeyError` raised by `init` when `PATH` is unset is a process status (no exception is propagated).
- Process exit is a status of the model. Nothing runs after it, as after `sys.exit`.
- `build_library`'s `custom_command` is modelled, but the script never passes one, so every plan uses the default `jake release; jake debug`.
