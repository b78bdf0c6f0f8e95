/** `perform_build` as a plan: the ordered actions a parsed command line
    leads to. The clean path and the build path are exclusive; on the build
    path every component is selected on its own by an OR of flags, and the
    selected actions keep one fixed order. */
module Dispatch {
  import opened Shell
  import opened Config
  import opened Actions

  /** The install directory handed to `init`, after home expansion. */
  function InstallDirOf(h: Host, o: Options): string {
    h.expand(ParsedInstallDir(o))
  }

  /** The build directory handed to `init`, after home expansion. */
  function BuildDirOf(h: Host, o: Options, env: map<string, string>): string {
    h.expand(ResolveBuildDir(o.buildDir, env))
  }

  function CleanLibraries(libs: seq<Component>): seq<Action>
    decreases |libs|
  {
    if libs == [] then [] else [CleanLibrary(libs[0].name)] + CleanLibraries(libs[1..])
  }

  function CleanThemes(themes: seq<Component>): seq<Action>
    decreases |themes|
  {
    if themes == [] then [] else [CleanTheme(themes[0].name)] + CleanThemes(themes[1..])
  }

  lemma {:induction false} CleanLibrariesAppend(a: seq<Component>, b: seq<Component>)
    ensures CleanLibraries(a + b) == CleanLibraries(a) + CleanLibraries(b)
    decreases |a|
  {
    if a == [] {
      assert a + b == b;
    } else {
      assert (a + b)[1..] == a[1..] + b;
      CleanLibrariesAppend(a[1..], b);
    }
  }

  lemma {:induction false} CleanThemesAppend(a: seq<Component>, b: seq<Component>)
    ensures CleanThemes(a + b) == CleanThemes(a) + CleanThemes(b)
    decreases |a|
  {
    if a == [] {
      assert a + b == b;
    } else {
      assert (a + b)[1..] == a[1..] + b;
      CleanThemesAppend(a[1..], b);
    }
  }

  /** The three libraries every clean run cleans first. */
  const RequiredCleans: seq<Action> := [CleanLibrary("NUKit"), CleanLibrary("TNKit"), CleanLibrary("Bambou")]

  /** The clean path up to its `sys.exit(0)`. */
  function CleanSteps(clobber: bool, libs: seq<Component>, themes: seq<Component>,
                      installDir: string, buildDir: string): seq<Action>
  {
    RequiredCleans
    + CleanLibraries(libs) + CleanThemes(themes)
    + [CleanProject, CleanWar]
    + (if clobber then [CleanCappuccino(installDir, buildDir)] else [])
  }

  function CleanPlan(clobber: bool, libs: seq<Component>, themes: seq<Component>,
                     installDir: string, buildDir: string): seq<Action>
  {
    CleanSteps(clobber, libs, themes, installDir, buildDir) + [Quit(0)]
  }

  /** The two variables the build path may export before building. */
  function EnvPlan(o: Options): seq<Action> {
    (if o.noManifest then [SetVariable(NoManifestKey, "1")] else [])
    + (if o.debug then [SetVariable(DebugKey, "1")] else [])
  }

  function LibraryBuilds(o: Options, libs: seq<Component>): seq<Action>
    decreases |libs|
  {
    if libs == [] then []
    else (if ComponentEnabled(o, libs[0]) then [BuildLibrary(libs[0].name, None)] else [])
         + LibraryBuilds(o, libs[1..])
  }

  function ThemeBuilds(o: Options, themes: seq<Component>): seq<Action>
    decreases |themes|
  {
    if themes == [] then []
    else (if ComponentEnabled(o, themes[0]) then [BuildTheme(themes[0].name)] else [])
         + ThemeBuilds(o, themes[1..])
  }

  lemma {:induction false} LibraryBuildsAppend(o: Options, a: seq<Component>, b: seq<Component>)
    ensures LibraryBuilds(o, a + b) == LibraryBuilds(o, a) + LibraryBuilds(o, b)
    decreases |a|
  {
    if a == [] {
      assert a + b == b;
    } else {
      var head := if ComponentEnabled(o, a[0]) then [BuildLibrary(a[0].name, None)] else [];
      assert (a + b)[0] == a[0];
      assert (a + b)[1..] == a[1..] + b;
      LibraryBuildsAppend(o, a[1..], b);
      calc {
        LibraryBuilds(o, a + b);
        head + LibraryBuilds(o, a[1..] + b);
        head + (LibraryBuilds(o, a[1..]) + LibraryBuilds(o, b));
        (head + LibraryBuilds(o, a[1..])) + LibraryBuilds(o, b);
      }
    }
  }

  lemma {:induction false} ThemeBuildsAppend(o: Options, a: seq<Component>, b: seq<Component>)
    ensures ThemeBuilds(o, a + b) == ThemeBuilds(o, a) + ThemeBuilds(o, b)
    decreases |a|
  {
    if a == [] {
      assert a + b == b;
    } else {
      var head := if ComponentEnabled(o, a[0]) then [BuildTheme(a[0].name)] else [];
      assert (a + b)[0] == a[0];
      assert (a + b)[1..] == a[1..] + b;
      ThemeBuildsAppend(o, a[1..], b);
      calc {
        ThemeBuilds(o, a + b);
        head + ThemeBuilds(o, a[1..] + b);
        head + (ThemeBuilds(o, a[1..]) + ThemeBuilds(o, b));
        (head + ThemeBuilds(o, a[1..])) + ThemeBuilds(o, b);
      }
    }
  }

  /** One more extra library, built when it is enabled. */
  lemma LibraryBuildsSnoc(o: Options, libs: seq<Component>, i: nat)
    requires i < |libs|
    ensures var c := libs[i];
      LibraryBuilds(o, libs[..i + 1])
        == LibraryBuilds(o, libs[..i]) + if ComponentEnabled(o, c) then [BuildLibrary(c.name, None)] else []
  {
    var c := libs[i];
    assert libs[..i + 1] == libs[..i] + [c];
    LibraryBuildsAppend(o, libs[..i], [c]);
    assert [c][1..] == [];
  }

  /** One more theme, built when it is enabled. */
  lemma ThemeBuildsSnoc(o: Options, themes: seq<Component>, i: nat)
    requires i < |themes|
    ensures var c := themes[i];
      ThemeBuilds(o, themes[..i + 1])
        == ThemeBuilds(o, themes[..i]) + if ComponentEnabled(o, c) then [BuildTheme(c.name)] else []
  {
    var c := themes[i];
    assert themes[..i + 1] == themes[..i] + [c];
    ThemeBuildsAppend(o, themes[..i], [c]);
    assert [c][1..] == [];
  }

  /** The "required libraries" block of the build path. */
  function RequiredBuilds(o: Options, installDir: string): seq<Action> {
    (if CappuccinoEnabled(o) then [InstallCappuccino(installDir, LocalDistrib)] else [])
    + (if LibraryEnabled(o, o.tnkit) then [BuildLibrary("TNKit", None)] else [])
    + (if LibraryEnabled(o, o.bambou) then [BuildLibrary("Bambou", None)] else [])
    + (if LibraryEnabled(o, o.nukit) then [BuildLibrary("NUKit", None)] else [])
  }

  /** The build path's actions, each under its own condition. */
  function Builds(o: Options, libs: seq<Component>, themes: seq<Component>,
                  warName: string, installDir: string): seq<Action>
  {
    RequiredBuilds(o, installDir)
    + LibraryBuilds(o, libs)
    + ThemeBuilds(o, themes)
    + (if ProjectEnabled(o) then [BuildProject(o.buildVersion)] else [])
    + (if WarEnabled(o) then [BuildWar(warName)] else [])
  }

  /** Everything `perform_build` does after parsing, given the environment
      it starts in; `init` always comes first. */
  function Plan(h: Host, o: Options, env: map<string, string>,
                libs: seq<Component>, themes: seq<Component>, warName: string): (p: seq<Action>)
    ensures |p| > 0 && p[0] == Init(InstallDirOf(h, o), BuildDirOf(h, o, env))
  {
    var installDir := InstallDirOf(h, o);
    var buildDir := BuildDirOf(h, o, env);
    [Init(installDir, buildDir)]
    + if o.clean || o.clobber then CleanPlan(o.clobber, libs, themes, installDir, buildDir)
      else EnvPlan(o) + Builds(o, libs, themes, warName, installDir)
  }

  // A reference for the build path: the full, fixed order of every build
  // action, and for each position the flags that enable it.

  function AllLibraryBuilds(libs: seq<Component>): seq<Action> {
    seq(|libs|, i requires 0 <= i < |libs| => BuildLibrary(libs[i].name, None))
  }

  function AllThemeBuilds(themes: seq<Component>): seq<Action> {
    seq(|themes|, i requires 0 <= i < |themes| => BuildTheme(themes[i].name))
  }

  function AllBuilds(libs: seq<Component>, themes: seq<Component>, warName: string,
                     installDir: string, version: Option<string>): seq<Action>
  {
    [InstallCappuccino(installDir, LocalDistrib)]
    + [BuildLibrary("TNKit", None)] + [BuildLibrary("Bambou", None)] + [BuildLibrary("NUKit", None)]
    + AllLibraryBuilds(libs) + AllThemeBuilds(themes)
    + [BuildProject(version)] + [BuildWar(warName)]
  }

  function ComponentMask(o: Options, cs: seq<Component>): seq<bool> {
    seq(|cs|, i requires 0 <= i < |cs| => ComponentEnabled(o, cs[i]))
  }

  function Mask(o: Options, libs: seq<Component>, themes: seq<Component>): seq<bool> {
    [CappuccinoEnabled(o)]
    + [LibraryEnabled(o, o.tnkit)] + [LibraryEnabled(o, o.bambou)] + [LibraryEnabled(o, o.nukit)]
    + ComponentMask(o, libs) + ComponentMask(o, themes)
    + [ProjectEnabled(o)] + [WarEnabled(o)]
  }

  /** The elements of `xs` whose position is marked in `mask`, in order. */
  function Select<T>(xs: seq<T>, mask: seq<bool>): seq<T>
    requires |xs| == |mask|
    decreases |xs|
  {
    if xs == [] then []
    else (if mask[0] then [xs[0]] else []) + Select(xs[1..], mask[1..])
  }

  lemma {:induction false} SelectAppend<T>(a: seq<T>, ma: seq<bool>, b: seq<T>, mb: seq<bool>)
    requires |a| == |ma| && |b| == |mb|
    ensures Select(a + b, ma + mb) == Select(a, ma) + Select(b, mb)
    decreases |a|
  {
    if a == [] {
      assert a + b == b && ma + mb == mb;
    } else {
      var ab, mab := a + b, ma + mb;
      var head := if ma[0] then [a[0]] else [];
      assert ab[0] == a[0] && mab[0] == ma[0];
      assert ab[1..] == a[1..] + b && mab[1..] == ma[1..] + mb;
      SelectAppend(a[1..], ma[1..], b, mb);
      calc {
        Select(ab, mab);
        head + Select(a[1..] + b, ma[1..] + mb);
        head + (Select(a[1..], ma[1..]) + Select(b, mb));
        (head + Select(a[1..], ma[1..])) + Select(b, mb);
      }
    }
  }

  lemma {:induction false} SelectAll<T>(xs: seq<T>, mask: seq<bool>)
    requires |xs| == |mask|
    requires forall i :: 0 <= i < |mask| ==> mask[i]
    ensures Select(xs, mask) == xs
    decreases |xs|
  {
    if xs != [] {
      SelectAll(xs[1..], mask[1..]);
    }
  }

  lemma {:induction false} SelectNone<T>(xs: seq<T>, mask: seq<bool>)
    requires |xs| == |mask|
    requires forall i :: 0 <= i < |mask| ==> !mask[i]
    ensures Select(xs, mask) == []
    decreases |xs|
  {
    if xs != [] {
      SelectNone(xs[1..], mask[1..]);
    }
  }

  lemma {:induction false} LibraryBuildsSelect(o: Options, libs: seq<Component>)
    ensures LibraryBuilds(o, libs) == Select(AllLibraryBuilds(libs), ComponentMask(o, libs))
    decreases |libs|
  {
    if libs != [] {
      assert AllLibraryBuilds(libs)[1..] == AllLibraryBuilds(libs[1..]);
      assert ComponentMask(o, libs)[1..] == ComponentMask(o, libs[1..]);
      LibraryBuildsSelect(o, libs[1..]);
    }
  }

  lemma {:induction false} ThemeBuildsSelect(o: Options, themes: seq<Component>)
    ensures ThemeBuilds(o, themes) == Select(AllThemeBuilds(themes), ComponentMask(o, themes))
    decreases |themes|
  {
    if themes != [] {
      assert AllThemeBuilds(themes)[1..] == AllThemeBuilds(themes[1..]);
      assert ComponentMask(o, themes)[1..] == ComponentMask(o, themes[1..]);
      ThemeBuildsSelect(o, themes[1..]);
    }
  }

  lemma SelectOne<T>(x: T, b: bool)
    ensures Select([x], [b]) == if b then [x] else []
  {
    assert [x][1..] == [] && [b][1..] == [];
  }

  lemma SelectEight<T>(a1: seq<T>, m1: seq<bool>, a2: seq<T>, m2: seq<bool>,
                       a3: seq<T>, m3: seq<bool>, a4: seq<T>, m4: seq<bool>,
                       a5: seq<T>, m5: seq<bool>, a6: seq<T>, m6: seq<bool>,
                       a7: seq<T>, m7: seq<bool>, a8: seq<T>, m8: seq<bool>)
    requires |a1| == |m1| && |a2| == |m2| && |a3| == |m3| && |a4| == |m4|
    requires |a5| == |m5| && |a6| == |m6| && |a7| == |m7| && |a8| == |m8|
    ensures Select(a1 + a2 + a3 + a4 + a5 + a6 + a7 + a8, m1 + m2 + m3 + m4 + m5 + m6 + m7 + m8)
         == Select(a1, m1) + Select(a2, m2) + Select(a3, m3) + Select(a4, m4)
            + Select(a5, m5) + Select(a6, m6) + Select(a7, m7) + Select(a8, m8)
  {
    SelectAppend(a1, m1, a2, m2);
    SelectAppend(a1 + a2, m1 + m2, a3, m3);
    SelectAppend(a1 + a2 + a3, m1 + m2 + m3, a4, m4);
    SelectAppend(a1 + a2 + a3 + a4, m1 + m2 + m3 + m4, a5, m5);
    SelectAppend(a1 + a2 + a3 + a4 + a5, m1 + m2 + m3 + m4 + m5, a6, m6);
    SelectAppend(a1 + a2 + a3 + a4 + a5 + a6, m1 + m2 + m3 + m4 + m5 + m6, a7, m7);
    SelectAppend(a1 + a2 + a3 + a4 + a5 + a6 + a7, m1 + m2 + m3 + m4 + m5 + m6 + m7, a8, m8);
  }

  /** The build path, piece by piece, as selections from one-element and
      component lists. */
  lemma BuildsPieces(o: Options, libs: seq<Component>, themes: seq<Component>,
                     warName: string, installDir: string)
    ensures Builds(o, libs, themes, warName, installDir)
         == Select([InstallCappuccino(installDir, LocalDistrib)], [CappuccinoEnabled(o)])
            + Select([BuildLibrary("TNKit", None)], [LibraryEnabled(o, o.tnkit)])
            + Select([BuildLibrary("Bambou", None)], [LibraryEnabled(o, o.bambou)])
            + Select([BuildLibrary("NUKit", None)], [LibraryEnabled(o, o.nukit)])
            + Select(AllLibraryBuilds(libs), ComponentMask(o, libs))
            + Select(AllThemeBuilds(themes), ComponentMask(o, themes))
            + Select([BuildProject(o.buildVersion)], [ProjectEnabled(o)])
            + Select([BuildWar(warName)], [WarEnabled(o)])
  {
    SelectOne(InstallCappuccino(installDir, LocalDistrib), CappuccinoEnabled(o));
    SelectOne(BuildLibrary("TNKit", None), LibraryEnabled(o, o.tnkit));
    SelectOne(BuildLibrary("Bambou", None), LibraryEnabled(o, o.bambou));
    SelectOne(BuildLibrary("NUKit", None), LibraryEnabled(o, o.nukit));
    SelectOne(BuildProject(o.buildVersion), ProjectEnabled(o));
    SelectOne(BuildWar(warName), WarEnabled(o));
    assert RequiredBuilds(o, installDir)
        == Select([InstallCappuccino(installDir, LocalDistrib)], [CappuccinoEnabled(o)])
           + Select([BuildLibrary("TNKit", None)], [LibraryEnabled(o, o.tnkit)])
           + Select([BuildLibrary("Bambou", None)], [LibraryEnabled(o, o.bambou)])
           + Select([BuildLibrary("NUKit", None)], [LibraryEnabled(o, o.nukit)]);
    LibraryBuildsSelect(o, libs);
    ThemeBuildsSelect(o, themes);
  }

  /** The build path in one statement: the actions are exactly those of the
      fixed full order whose enabling flags are set. */
  lemma BuildsAreSelection(o: Options, libs: seq<Component>, themes: seq<Component>,
                           warName: string, installDir: string)
    ensures |Mask(o, libs, themes)| == |AllBuilds(libs, themes, warName, installDir, o.buildVersion)|
    ensures Builds(o, libs, themes, warName, installDir)
         == Select(AllBuilds(libs, themes, warName, installDir, o.buildVersion), Mask(o, libs, themes))
  {
    var i, t, b, n := InstallCappuccino(installDir, LocalDistrib), BuildLibrary("TNKit", None),
                      BuildLibrary("Bambou", None), BuildLibrary("NUKit", None);
    var p, w := BuildProject(o.buildVersion), BuildWar(warName);
    var al, at := AllLibraryBuilds(libs), AllThemeBuilds(themes);
    var ci, ct, cb, cn := CappuccinoEnabled(o), LibraryEnabled(o, o.tnkit),
                          LibraryEnabled(o, o.bambou), LibraryEnabled(o, o.nukit);
    var ml, mt := ComponentMask(o, libs), ComponentMask(o, themes);
    var cp, cw := ProjectEnabled(o), WarEnabled(o);
    assert AllBuilds(libs, themes, warName, installDir, o.buildVersion)
        == [i] + [t] + [b] + [n] + al + at + [p] + [w];
    assert Mask(o, libs, themes) == [ci] + [ct] + [cb] + [cn] + ml + mt + [cp] + [cw];
    SelectEight([i], [ci], [t], [ct], [b], [cb], [n], [cn], al, ml, at, mt, [p], [cp], [w], [cw]);
    BuildsPieces(o, libs, themes, warName, installDir);
  }

  // The clean path.

  lemma {:induction false} CleanLibrariesAt(libs: seq<Component>)
    ensures |CleanLibraries(libs)| == |libs|
    ensures forall k :: 0 <= k < |libs| ==> CleanLibraries(libs)[k] == CleanLibrary(libs[k].name)
    decreases |libs|
  {
    if libs != [] {
      CleanLibrariesAt(libs[1..]);
    }
  }

  lemma {:induction false} CleanThemesAt(themes: seq<Component>)
    ensures |CleanThemes(themes)| == |themes|
    ensures forall k :: 0 <= k < |themes| ==> CleanThemes(themes)[k] == CleanTheme(themes[k].name)
    decreases |themes|
  {
    if themes != [] {
      CleanThemesAt(themes[1..]);
    }
  }

  /** The clean path in order: the three fixed libraries, every extra library,
      every theme, the project, the WAR, Cappuccino only on `--clobber`, and
      the exit with status 0 last. */
  lemma CleanOrder(clobber: bool, libs: seq<Component>, themes: seq<Component>,
                   installDir: string, buildDir: string)
    ensures var p := CleanPlan(clobber, libs, themes, installDir, buildDir);
      var n := 3 + |libs| + |themes|;
      && |p| == n + (if clobber then 4 else 3)
      && p[0] == CleanLibrary("NUKit") && p[1] == CleanLibrary("TNKit") && p[2] == CleanLibrary("Bambou")
      && (forall k :: 0 <= k < |libs| ==> p[3 + k] == CleanLibrary(libs[k].name))
      && (forall k :: 0 <= k < |themes| ==> p[3 + |libs| + k] == CleanTheme(themes[k].name))
      && p[n] == CleanProject && p[n + 1] == CleanWar
      && (clobber ==> p[n + 2] == CleanCappuccino(installDir, buildDir))
      && p[|p| - 1] == Quit(0)
  {
    var mid := RequiredCleans + CleanLibraries(libs) + CleanThemes(themes);
    var tail := if clobber then [CleanCappuccino(installDir, buildDir)] else [];
    var p := CleanPlan(clobber, libs, themes, installDir, buildDir);
    CleanHead(libs, themes);
    assert p == mid + [CleanProject, CleanWar] + tail + [Quit(0)];
    assert forall k :: 0 <= k < |mid| ==> p[k] == mid[k];
  }

  /** The part of the clean path before the project: the three fixed
      libraries, then every extra library, then every theme. */
  lemma CleanHead(libs: seq<Component>, themes: seq<Component>)
    ensures var mid := RequiredCleans + CleanLibraries(libs) + CleanThemes(themes);
      && |mid| == 3 + |libs| + |themes|
      && mid[0] == CleanLibrary("NUKit") && mid[1] == CleanLibrary("TNKit") && mid[2] == CleanLibrary("Bambou")
      && (forall k :: 0 <= k < |libs| ==> mid[3 + k] == CleanLibrary(libs[k].name))
      && (forall k :: 0 <= k < |themes| ==> mid[3 + |libs| + k] == CleanTheme(themes[k].name))
  {
    CleanLibrariesAt(libs);
    CleanThemesAt(themes);
    CleanPieces(RequiredCleans, CleanLibraries(libs), CleanThemes(themes), libs, themes);
  }

  /** Where the pieces of the clean path's head sit, for any sequences that
      clean what they should. */
  lemma CleanPieces(req: seq<Action>, ls: seq<Action>, ts: seq<Action>,
                    libs: seq<Component>, themes: seq<Component>)
    requires |req| == 3 && |ls| == |libs| && |ts| == |themes|
    requires forall k :: 0 <= k < |libs| ==> ls[k] == CleanLibrary(libs[k].name)
    requires forall k :: 0 <= k < |themes| ==> ts[k] == CleanTheme(themes[k].name)
    ensures var mid := req + ls + ts;
      && |mid| == 3 + |libs| + |themes|
      && mid[0] == req[0] && mid[1] == req[1] && mid[2] == req[2]
      && (forall k :: 0 <= k < |libs| ==> mid[3 + k] == CleanLibrary(libs[k].name))
      && (forall k :: 0 <= k < |themes| ==> mid[3 + |libs| + k] == CleanTheme(themes[k].name))
  {
    var pre := req + ls;
    forall k | 0 <= k < |libs|
      ensures (pre + ts)[3 + k] == CleanLibrary(libs[k].name)
    {
      assert (pre + ts)[3 + k] == pre[3 + k] == ls[k];
    }
    forall k | 0 <= k < |themes|
      ensures (pre + ts)[3 + |libs| + k] == CleanTheme(themes[k].name)
    {
      assert (pre + ts)[|pre| + k] == ts[k];
    }
  }

  /** `--clobber` does what `--clean` does, then removes Cappuccino before
      the exit. */
  lemma ClobberExtendsClean(libs: seq<Component>, themes: seq<Component>,
                            installDir: string, buildDir: string)
    ensures var clean := CleanPlan(false, libs, themes, installDir, buildDir);
      CleanPlan(true, libs, themes, installDir, buildDir)
        == clean[..|clean| - 1] + [CleanCappuccino(installDir, buildDir), Quit(0)]
  {
    var steps := CleanSteps(false, libs, themes, installDir, buildDir);
    assert CleanSteps(true, libs, themes, installDir, buildDir) == steps + [CleanCappuccino(installDir, buildDir)];
    assert (steps + [Quit(0)])[..|steps|] == steps;
  }

  /** Everything before the exit on the clean path is a clean action. */
  lemma CleanOnlyCleans(clobber: bool, libs: seq<Component>, themes: seq<Component>,
                        installDir: string, buildDir: string)
    ensures forall a :: a in CleanSteps(clobber, libs, themes, installDir, buildDir) ==> IsClean(a)
  {
    CleanLibrariesAt(libs);
    CleanThemesAt(themes);
    var q := [CleanLibrary("NUKit"), CleanLibrary("TNKit"), CleanLibrary("Bambou")];
    assert forall a :: a in CleanLibraries(libs) ==> IsClean(a);
    assert forall a :: a in CleanThemes(themes) ==> IsClean(a);
  }

  // The build path.

  lemma {:induction false} SelectEmpty<T>(xs: seq<T>, mask: seq<bool>)
    requires |xs| == |mask|
    ensures Select(xs, mask) == [] <==> forall i :: 0 <= i < |mask| ==> !mask[i]
    decreases |xs|
  {
    if xs != [] {
      SelectEmpty(xs[1..], mask[1..]);
      if Select(xs, mask) == [] {
        assert !mask[0];
      }
    }
  }

  lemma LibraryBuildsAll(o: Options, libs: seq<Component>)
    requires forall c :: c in libs ==> ComponentEnabled(o, c)
    ensures LibraryBuilds(o, libs) == AllLibraryBuilds(libs)
  {
    LibraryBuildsSelect(o, libs);
    SelectAll(AllLibraryBuilds(libs), ComponentMask(o, libs));
  }

  lemma ThemeBuildsAll(o: Options, themes: seq<Component>)
    requires forall c :: c in themes ==> ComponentEnabled(o, c)
    ensures ThemeBuilds(o, themes) == AllThemeBuilds(themes)
  {
    ThemeBuildsSelect(o, themes);
    SelectAll(AllThemeBuilds(themes), ComponentMask(o, themes));
  }

  lemma LibraryBuildsEmpty(o: Options, libs: seq<Component>)
    ensures LibraryBuilds(o, libs) == [] <==> forall c :: c in libs ==> !ComponentEnabled(o, c)
  {
    LibraryBuildsSelect(o, libs);
    SelectEmpty(AllLibraryBuilds(libs), ComponentMask(o, libs));
    if LibraryBuilds(o, libs) == [] {
      forall c | c in libs ensures !ComponentEnabled(o, c) {
        var k :| 0 <= k < |libs| && libs[k] == c;
        assert !ComponentMask(o, libs)[k];
      }
    }
  }

  lemma ThemeBuildsEmpty(o: Options, themes: seq<Component>)
    ensures ThemeBuilds(o, themes) == [] <==> forall c :: c in themes ==> !ComponentEnabled(o, c)
  {
    ThemeBuildsSelect(o, themes);
    SelectEmpty(AllThemeBuilds(themes), ComponentMask(o, themes));
    if ThemeBuilds(o, themes) == [] {
      forall c | c in themes ensures !ComponentEnabled(o, c) {
        var k :| 0 <= k < |themes| && themes[k] == c;
        assert !ComponentMask(o, themes)[k];
      }
    }
  }

  /** `--everything` builds every component, Cappuccino first. */
  lemma EverythingBuildsAll(o: Options, libs: seq<Component>, themes: seq<Component>,
                            warName: string, installDir: string)
    requires o.everything
    ensures Builds(o, libs, themes, warName, installDir)
         == AllBuilds(libs, themes, warName, installDir, o.buildVersion)
  {
    LibraryBuildsAll(o, libs);
    ThemeBuildsAll(o, themes);
  }

  /** Dropping a one-element head from a chain of eight pieces. */
  lemma DropHead<T>(a1: seq<T>, a2: seq<T>, a3: seq<T>, a4: seq<T>,
                    a5: seq<T>, a6: seq<T>, a7: seq<T>, a8: seq<T>)
    requires |a1| == 1
    ensures (a1 + a2 + a3 + a4 + a5 + a6 + a7 + a8)[1..] == a2 + a3 + a4 + a5 + a6 + a7 + a8
  {
    var s := a2 + a3 + a4 + a5 + a6 + a7 + a8;
    assert a1 + a2 + a3 + a4 + a5 + a6 + a7 + a8 == a1 + s;
  }

  /** An empty head leaves the rest of a chain of eight pieces. */
  lemma EmptyHead<T>(a1: seq<T>, a2: seq<T>, a3: seq<T>, a4: seq<T>,
                     a5: seq<T>, a6: seq<T>, a7: seq<T>, a8: seq<T>)
    requires a1 == []
    ensures a1 + a2 + a3 + a4 + a5 + a6 + a7 + a8 == a2 + a3 + a4 + a5 + a6 + a7 + a8
  {
    assert a1 + a2 == a2;
  }

  /** `--all` builds the same, except that Cappuccino needs its own flag. */
  lemma AllOmitsOnlyCappuccino(o: Options, libs: seq<Component>, themes: seq<Component>,
                               warName: string, installDir: string)
    requires o.all
    ensures var full := AllBuilds(libs, themes, warName, installDir, o.buildVersion);
      Builds(o, libs, themes, warName, installDir)
        == if CappuccinoEnabled(o) then full else full[1..]
  {
    LibraryBuildsAll(o, libs);
    ThemeBuildsAll(o, themes);
    var i, t, b, n := [InstallCappuccino(installDir, LocalDistrib)], [BuildLibrary("TNKit", None)],
                      [BuildLibrary("Bambou", None)], [BuildLibrary("NUKit", None)];
    var al, at := AllLibraryBuilds(libs), AllThemeBuilds(themes);
    var p, w := [BuildProject(o.buildVersion)], [BuildWar(warName)];
    var head: seq<Action> := if CappuccinoEnabled(o) then i else [];
    assert RequiredBuilds(o, installDir) == head + t + b + n;
    assert Builds(o, libs, themes, warName, installDir) == head + t + b + n + al + at + p + w;
    assert AllBuilds(libs, themes, warName, installDir, o.buildVersion) == i + t + b + n + al + at + p + w;
    if !CappuccinoEnabled(o) {
      DropHead(i, t, b, n, al, at, p, w);
      EmptyHead(head, t, b, n, al, at, p, w);
    }
  }

  /** `--libraries` alone builds every library and theme, and nothing else. */
  lemma LibrariesOnly(o: Options, libs: seq<Component>, themes: seq<Component>,
                      warName: string, installDir: string)
    requires o.libraries
    requires !o.everything && !o.all && !o.cappuccino && !o.project && !o.generateWar
    ensures Builds(o, libs, themes, warName, installDir)
         == [BuildLibrary("TNKit", None), BuildLibrary("Bambou", None), BuildLibrary("NUKit", None)]
            + AllLibraryBuilds(libs) + AllThemeBuilds(themes)
  {
    LibraryBuildsAll(o, libs);
    ThemeBuildsAll(o, themes);
  }

  /** None of the enabling flags of the build path. */
  predicate NoBuildFlags(o: Options) {
    && !o.everything && !o.all && !o.libraries && !o.cappuccino
    && !o.tnkit && !o.bambou && !o.nukit && !o.project && !o.generateWar
  }

  /** The build path builds nothing exactly when no enabling flag is given,
      neither a fixed one nor one generated for an extra component. */
  lemma NothingToBuild(o: Options, libs: seq<Component>, themes: seq<Component>,
                       warName: string, installDir: string)
    ensures Builds(o, libs, themes, warName, installDir) == []
        <==> NoBuildFlags(o) && forall c :: c in libs + themes ==> !Attr(o, Dest(c))
  {
    LibraryBuildsEmpty(o, libs);
    ThemeBuildsEmpty(o, themes);
    var b := Builds(o, libs, themes, warName, installDir);
    if b == [] {
      assert !CappuccinoEnabled(o) && !LibraryEnabled(o, o.tnkit) && !ProjectEnabled(o) && !WarEnabled(o);
      assert LibraryBuilds(o, libs) == [] && ThemeBuilds(o, themes) == [];
    }
  }

  lemma {:induction false} LibraryBuildsAreBuilds(o: Options, libs: seq<Component>)
    ensures forall a :: a in LibraryBuilds(o, libs) ==> a.BuildLibrary? && a.custom == None
    decreases |libs|
  {
    if libs != [] {
      LibraryBuildsAreBuilds(o, libs[1..]);
    }
  }

  lemma {:induction false} ThemeBuildsAreBuilds(o: Options, themes: seq<Component>)
    ensures forall a :: a in ThemeBuilds(o, themes) ==> a.BuildTheme?
    decreases |themes|
  {
    if themes != [] {
      ThemeBuildsAreBuilds(o, themes[1..]);
    }
  }

  /** The export block of the build path writes at most the two variables,
      each exactly when its flag is given. */
  lemma EnvPlanExports(o: Options)
    ensures forall a :: a in EnvPlan(o) ==>
      a.SetVariable? && a.value == "1" && (a.key == NoManifestKey || a.key == DebugKey)
    ensures SetVariable(NoManifestKey, "1") in EnvPlan(o) <==> o.noManifest
    ensures SetVariable(DebugKey, "1") in EnvPlan(o) <==> o.debug
  {
  }

  /** The build path's actions are build actions, none with a custom command. */
  lemma BuildsAreBuildActions(o: Options, libs: seq<Component>, themes: seq<Component>,
                              warName: string, installDir: string)
    ensures forall a :: a in Builds(o, libs, themes, warName, installDir) ==>
      IsBuild(a) && !(a.BuildLibrary? && a.custom.Some?)
  {
    LibraryBuildsAreBuilds(o, libs);
    ThemeBuildsAreBuilds(o, themes);
  }

  /** The plan is `init` followed by the clean path or by the build path. */
  lemma PlanSplit(h: Host, o: Options, env: map<string, string>,
                  libs: seq<Component>, themes: seq<Component>, warName: string)
    ensures var p := Plan(h, o, env, libs, themes, warName);
      var i, b := InstallDirOf(h, o), BuildDirOf(h, o, env);
      && (o.clean || o.clobber ==> p[1..] == CleanSteps(o.clobber, libs, themes, i, b) + [Quit(0)])
      && (!(o.clean || o.clobber) ==> p[1..] == EnvPlan(o) + Builds(o, libs, themes, warName, i))
  {
  }

  /** The directories `init` receives: the install directory flag or its
      default, and the build directory flag, else a non-empty `CAPP_BUILD`,
      else its default, each after home expansion. */
  lemma InitArguments(h: Host, o: Options, env: map<string, string>,
                      libs: seq<Component>, themes: seq<Component>, warName: string)
    ensures var p := Plan(h, o, env, libs, themes, warName);
      && p[0].Init?
      && (o.installDir.None? ==> p[0].installDir == h.expand(DefaultInstallDir))
      && (o.installDir.Some? ==> p[0].installDir == h.expand(o.installDir.value))
      && (Truthy(o.buildDir) ==> p[0].buildDir == h.expand(o.buildDir.value))
      && (!Truthy(o.buildDir) && "CAPP_BUILD" in env && env["CAPP_BUILD"] != "" ==>
            p[0].buildDir == h.expand(env["CAPP_BUILD"]))
      && (!Truthy(o.buildDir) && !("CAPP_BUILD" in env && env["CAPP_BUILD"] != "") ==>
            p[0].buildDir == h.expand(DefaultBuildDir))
  {
  }

  /** `init` runs once, first. */
  lemma InitFirstOnly(h: Host, o: Options, env: map<string, string>,
                      libs: seq<Component>, themes: seq<Component>, warName: string)
    ensures var p := Plan(h, o, env, libs, themes, warName);
      forall k :: 1 <= k < |p| ==> !p[k].Init?
  {
    var p := Plan(h, o, env, libs, themes, warName);
    var i, b := InstallDirOf(h, o), BuildDirOf(h, o, env);
    PlanSplit(h, o, env, libs, themes, warName);
    if o.clean || o.clobber {
      CleanOnlyCleans(o.clobber, libs, themes, i, b);
    } else {
      EnvPlanExports(o);
      BuildsAreBuildActions(o, libs, themes, warName, i);
    }
    forall k | 1 <= k < |p| ensures !p[k].Init? {
      assert p[k] in p[1..];
    }
  }

  /** The clean path builds nothing, exports nothing and ends in `sys.exit(0)`. */
  lemma CleanPathShape(h: Host, o: Options, env: map<string, string>,
                       libs: seq<Component>, themes: seq<Component>, warName: string)
    requires o.clean || o.clobber
    ensures var p := Plan(h, o, env, libs, themes, warName);
      && (forall a :: a in p[1..] ==> !IsBuild(a) && !a.SetVariable?)
      && p[|p| - 1] == Quit(0)
  {
    PlanSplit(h, o, env, libs, themes, warName);
    CleanOnlyCleans(o.clobber, libs, themes, InstallDirOf(h, o), BuildDirOf(h, o, env));
  }

  /** The build path cleans nothing and never exits on its own. */
  lemma BuildPathShape(h: Host, o: Options, env: map<string, string>,
                       libs: seq<Component>, themes: seq<Component>, warName: string)
    requires !(o.clean || o.clobber)
    ensures var p := Plan(h, o, env, libs, themes, warName);
      forall a :: a in p ==> !IsClean(a) && !a.Quit?
  {
    var p := Plan(h, o, env, libs, themes, warName);
    var e, bs := EnvPlan(o), Builds(o, libs, themes, warName, InstallDirOf(h, o));
    PlanSplit(h, o, env, libs, themes, warName);
    EnvPlanExports(o);
    BuildsAreBuildActions(o, libs, themes, warName, InstallDirOf(h, o));
    NoCleanNoQuit(p, e, bs);
  }

  /** `init`, then exports, then builds: nothing that cleans or exits. */
  lemma NoCleanNoQuit(p: seq<Action>, e: seq<Action>, bs: seq<Action>)
    requires |p| > 0 && p[0].Init? && p[1..] == e + bs
    requires forall a :: a in e ==> a.SetVariable?
    requires forall a :: a in bs ==> IsBuild(a)
    ensures forall a :: a in p ==> !IsClean(a) && !a.Quit?
  {
    forall a | a in p ensures !IsClean(a) && !a.Quit? {
      var k :| 0 <= k < |p| && p[k] == a;
      if k > 0 {
        assert a == p[1..][k - 1];
        assert a in e + bs;
      }
    }
  }

  // Running the plan.

  /** A run of the clean path always stops the process: with status 0 when
      every clean action went through, and otherwise as the failure left it.
      It never touches the two variables the build path exports. */
  lemma CleanRunExits(h: Host, m: Machine, o: Options,
                      libs: seq<Component>, themes: seq<Component>, warName: string)
    requires m.status.Running?
    requires o.clean || o.clobber
    ensures var p := Plan(h, o, m.env, libs, themes, warName);
      var r := ExecPlan(h, m, p);
      var before := ExecPlan(h, m, p[..|p| - 1]);
      && Ordinary(before.status)
      && (r.status == Exited(0) <==> before.status.Running?)
      && (!before.status.Running? ==> r == before)
      && r.trace == before.trace && r.env == before.env && r.cwd == before.cwd
      && !r.status.Running?
  {
    var p := Plan(h, o, m.env, libs, themes, warName);
    var pre := p[..|p| - 1];
    var steps := CleanSteps(o.clobber, libs, themes, InstallDirOf(h, o), BuildDirOf(h, o, m.env));
    PlanSplit(h, o, m.env, libs, themes, warName);
    CleanOnlyCleans(o.clobber, libs, themes, InstallDirOf(h, o), BuildDirOf(h, o, m.env));
    assert pre == [p[0]] + steps && p == pre + [Quit(0)];
    assert forall a :: a in pre ==> !a.Quit?;
    ExecPlanOrdinary(h, m, pre);
    ExecPlanThenQuit(h, m, pre, 0);
  }

  /** `--nomanifest` and `--debug` have no effect on the clean path: the
      plan does not depend on either flag. */
  lemma CleanIgnoresExportFlags(h: Host, o: Options, env: map<string, string>,
                                libs: seq<Component>, themes: seq<Component>, warName: string,
                                noManifest: bool, debug: bool)
    requires o.clean || o.clobber
    ensures Plan(h, o, env, libs, themes, warName)
         == Plan(h, o.(noManifest := noManifest, debug := debug), env, libs, themes, warName)
  {
  }

  /** A clean run leaves `CAPP_NOMANIFEST` and `ARCHITECT_BUILD_DEBUG` as the
      caller had them: present with the same value, or absent. */
  lemma CleanRunKeepsExports(h: Host, m: Machine, o: Options,
                             libs: seq<Component>, themes: seq<Component>, warName: string, key: string)
    requires o.clean || o.clobber
    requires key == NoManifestKey || key == DebugKey
    ensures var r := ExecPlan(h, m, Plan(h, o, m.env, libs, themes, warName));
      (key in r.env <==> key in m.env) && (key in m.env ==> r.env[key] == m.env[key])
  {
    var p := Plan(h, o, m.env, libs, themes, warName);
    PlanSplit(h, o, m.env, libs, themes, warName);
    CleanOnlyCleans(o.clobber, libs, themes, InstallDirOf(h, o), BuildDirOf(h, o, m.env));
    forall a | a in p ensures !ActionSets(a, key) {
      if a != p[0] {
        assert a in p[1..] by { assert p == [p[0]] + p[1..]; }
      }
    }
    ExecPlanKeepsKey(h, m, p, key);
  }

  /** The exports of the build path: each of the two variables is `1` after
      them exactly when its flag is given, or keeps what it was; nothing else
      changes and nothing is logged. */
  lemma EnvPlanEffect(h: Host, m: Machine, o: Options)
    requires m.status.Running?
    ensures var r := ExecPlan(h, m, EnvPlan(o));
      && r.status.Running? && r.cwd == m.cwd && r.trace == m.trace
      && (NoManifestKey in r.env <==> o.noManifest || NoManifestKey in m.env)
      && (DebugKey in r.env <==> o.debug || DebugKey in m.env)
      && (o.noManifest ==> r.env[NoManifestKey] == "1")
      && (o.debug ==> r.env[DebugKey] == "1")
      && forall k :: k != NoManifestKey && k != DebugKey ==>
           (k in r.env <==> k in m.env) && (k in m.env ==> r.env[k] == m.env[k])
  {
    var a := if o.noManifest then [SetVariable(NoManifestKey, "1")] else [];
    var b := if o.debug then [SetVariable(DebugKey, "1")] else [];
    ExecPlanAppend(h, m, a, b);
    var mid := ExecPlan(h, m, a);
    if o.noManifest {
      ExecPlan1(h, m, SetVariable(NoManifestKey, "1"));
      Exec1(h, m, SetEnv(NoManifestKey, "1"));
    }
    if o.debug {
      ExecPlan1(h, mid, SetVariable(DebugKey, "1"));
      Exec1(h, mid, SetEnv(DebugKey, "1"));
    }
  }

  /** A run of the build path: `init`, the exports, then the builds, in a
      process that ends without an explicit exit. */
  lemma BuildRun(h: Host, m: Machine, o: Options,
                 libs: seq<Component>, themes: seq<Component>, warName: string)
    requires m.status.Running?
    requires !(o.clean || o.clobber)
    ensures var p := Plan(h, o, m.env, libs, themes, warName);
      var afterInit := RunAction(h, m, p[0]);
      var r := ExecPlan(h, m, p);
      && r == ExecPlan(h, ExecPlan(h, afterInit, EnvPlan(o)), Builds(o, libs, themes, warName, InstallDirOf(h, o)))
      && Ordinary(r.status)
  {
    var p := Plan(h, o, m.env, libs, themes, warName);
    var builds := Builds(o, libs, themes, warName, InstallDirOf(h, o));
    PlanSplit(h, o, m.env, libs, themes, warName);
    BuildPathShape(h, o, m.env, libs, themes, warName);
    assert p == [p[0]] + EnvPlan(o) + builds;
    ExecPlanAppend(h, m, [p[0]] + EnvPlan(o), builds);
    ExecPlanAppend(h, m, [p[0]], EnvPlan(o));
    ExecPlan1(h, m, p[0]);
    ExecPlanOrdinary(h, m, p);
  }

  /** `--debug` reaches every build that follows: after `init` and the
      exports, `ARCHITECT_BUILD_DEBUG` is set exactly when the flag is given or
      the caller had set it. */
  lemma DebugReachesBuilds(h: Host, m: Machine, o: Options,
                           libs: seq<Component>, themes: seq<Component>, warName: string)
    requires m.status.Running?
    requires !(o.clean || o.clobber)
    ensures var p := Plan(h, o, m.env, libs, themes, warName);
      var afterInit := RunAction(h, m, p[0]);
      var r := ExecPlan(h, afterInit, EnvPlan(o));
      r.status.Running? ==>
        && (DebugKey in r.env <==> o.debug || DebugKey in m.env)
        && (NoManifestKey in r.env <==> o.noManifest || NoManifestKey in m.env)
  {
    var p := Plan(h, o, m.env, libs, themes, warName);
    var afterInit := RunAction(h, m, p[0]);
    ActionKeepsKey(h, m, p[0], DebugKey);
    ActionKeepsKey(h, m, p[0], NoManifestKey);
    if afterInit.status.Running? {
      EnvPlanEffect(h, afterInit, o);
    } else {
      ExecPlanStopped(h, afterInit, EnvPlan(o));
    }
  }

  /** No build action touches `ARCHITECT_BUILD_DEBUG`: before every build
      of the build path the variable is set exactly when it was after the
      exports, with the same value. */
  lemma BuildsKeepDebug(h: Host, m: Machine, o: Options, libs: seq<Component>, themes: seq<Component>,
                        warName: string, installDir: string, k: nat)
    requires k <= |Builds(o, libs, themes, warName, installDir)|
    ensures var before := ExecPlan(h, m, Builds(o, libs, themes, warName, installDir)[..k]);
      && (DebugKey in before.env <==> DebugKey in m.env)
      && (DebugKey in m.env ==> before.env[DebugKey] == m.env[DebugKey])
  {
    var builds := Builds(o, libs, themes, warName, installDir);
    BuildsAreBuildActions(o, libs, themes, warName, installDir);
    forall a | a in builds[..k]
      ensures !ActionSets(a, DebugKey)
    {
      assert a in builds;
    }
    ExecPlanKeepsKey(h, m, builds[..k], DebugKey);
  }

  /** `--debug` names the archive: on the build path with `--war` (or `--all`
      or `--everything`), the archive is built last, as `<name>-debug.war`
      moved to `../Build/Debug/` when the flag is given or the caller had set
      `ARCHITECT_BUILD_DEBUG`, and as `<name>.war` moved to
      `../Build/Deployment/` otherwise. */
  lemma DebugNamesWar(h: Host, m: Machine, o: Options,
                      libs: seq<Component>, themes: seq<Component>, warName: string)
    requires m.status.Running?
    requires !(o.clean || o.clobber)
    requires WarEnabled(o)
    ensures var p := Plan(h, o, m.env, libs, themes, warName);
      var afterEnv := ExecPlan(h, RunAction(h, m, p[0]), EnvPlan(o));
      var builds := Builds(o, libs, themes, warName, InstallDirOf(h, o));
      && |builds| > 0 && builds[|builds| - 1] == BuildWar(warName)
      && var before := ExecPlan(h, afterEnv, builds[..|builds| - 1]);
         var r := RunAction(h, before, BuildWar(warName));
         var dir := WebappDir(before.cwd);
         var unpack := [Ran("unzip " + WarArchive, dir, 0), Renamed("build", "reports", dir)];
         afterEnv.status.Running? && r.status.Running? ==>
           && (o.debug || DebugKey in m.env ==>
                 r.trace == before.trace + unpack + [Ran("jar -cf " + warName + "-debug.war .", dir, 0),
                                                     Ran("mv " + warName + "-debug.war ../Build/Debug/", dir, 0)])
           && (!(o.debug || DebugKey in m.env) ==>
                 r.trace == before.trace + unpack + [Ran("jar -cf " + warName + ".war .", dir, 0),
                                                     Ran("mv " + warName + ".war ../Build/Deployment/", dir, 0)])
  {
    var p := Plan(h, o, m.env, libs, themes, warName);
    var afterEnv := ExecPlan(h, RunAction(h, m, p[0]), EnvPlan(o));
    var builds := Builds(o, libs, themes, warName, InstallDirOf(h, o));
    var before := ExecPlan(h, afterEnv, builds[..|builds| - 1]);
    DebugReachesBuilds(h, m, o, libs, themes, warName);
    BuildsKeepDebug(h, afterEnv, o, libs, themes, warName, InstallDirOf(h, o), |builds| - 1);
    WarBuildNaming(h, before, warName);
  }

  /** `--debug` chooses the deployment: on the build path, the project
      build stamps `<version>-debug` and runs `jake devdeploy` when the flag
      is given or the caller had set `ARCHITECT_BUILD_DEBUG`, and stamps the
      version as given and runs `jake deploy` otherwise. */
  lemma DebugDeploysProject(h: Host, m: Machine, o: Options,
                            libs: seq<Component>, themes: seq<Component>, warName: string, j: nat)
    requires m.status.Running?
    requires !(o.clean || o.clobber)
    requires j < |Builds(o, libs, themes, warName, InstallDirOf(h, o))|
    requires Builds(o, libs, themes, warName, InstallDirOf(h, o))[j].BuildProject?
    ensures var p := Plan(h, o, m.env, libs, themes, warName);
      var afterEnv := ExecPlan(h, RunAction(h, m, p[0]), EnvPlan(o));
      var builds := Builds(o, libs, themes, warName, InstallDirOf(h, o));
      var before := ExecPlan(h, afterEnv, builds[..j]);
      var r := RunAction(h, before, builds[j]);
      var git := LastSegment(h.gitRef) + "-" + h.gitRev;
      var gen := Ran("capp gen -fl . --force", before.cwd, 0);
      afterEnv.status.Running? && r.status.Running? ==>
        && (o.debug || DebugKey in m.env ==>
              r.trace == before.trace + [Wrote(VersionFile, before.cwd,
                                               VersionStamp(git, VersionText(builds[j].version) + "-debug")),
                                         gen, Ran("jake devdeploy", before.cwd, 0)])
        && (!(o.debug || DebugKey in m.env) ==>
              r.trace == before.trace + [Wrote(VersionFile, before.cwd,
                                               VersionStamp(git, VersionText(builds[j].version))),
                                         gen, Ran("jake deploy", before.cwd, 0)])
  {
    var p := Plan(h, o, m.env, libs, themes, warName);
    var afterEnv := ExecPlan(h, RunAction(h, m, p[0]), EnvPlan(o));
    var builds := Builds(o, libs, themes, warName, InstallDirOf(h, o));
    var before := ExecPlan(h, afterEnv, builds[..j]);
    DebugReachesBuilds(h, m, o, libs, themes, warName);
    BuildsKeepDebug(h, afterEnv, o, libs, themes, warName, InstallDirOf(h, o), j);
    ProjectBuildWith(h, before, builds[j].version, afterEnv.status.Running?, o.debug || DebugKey in m.env);
  }

  lemma ProjectBuildWith(h: Host, m: Machine, version: Option<string>, ok: bool, debug: bool)
    requires ok ==> (DebugKey in m.env <==> debug)
    ensures var r := RunAction(h, m, BuildProject(version));
      var git := LastSegment(h.gitRef) + "-" + h.gitRev;
      var gen := Ran("capp gen -fl . --force", m.cwd, 0);
      ok && r.status.Running? ==>
        && (debug ==>
              r.trace == m.trace + [Wrote(VersionFile, m.cwd, VersionStamp(git, VersionText(version) + "-debug")),
                                    gen, Ran("jake devdeploy", m.cwd, 0)])
        && (!debug ==>
              r.trace == m.trace + [Wrote(VersionFile, m.cwd, VersionStamp(git, VersionText(version))),
                                    gen, Ran("jake deploy", m.cwd, 0)])
  {
    ProjectBuildNaming(h, m, version);
  }

  /** With `--project`, the project build is the last action of the build
      path, or the one before the archive build under `--war` (or `--all` or
      `--everything`), and it carries the `--setversion` argument. */
  lemma ProjectPosition(o: Options, libs: seq<Component>, themes: seq<Component>,
                        warName: string, installDir: string)
    requires ProjectEnabled(o)
    ensures var builds := Builds(o, libs, themes, warName, installDir);
      var j := |builds| - (if WarEnabled(o) then 2 else 1);
      0 <= j && builds[j] == BuildProject(o.buildVersion)
  {
    var front := RequiredBuilds(o, installDir) + LibraryBuilds(o, libs) + ThemeBuilds(o, themes)
                 + [BuildProject(o.buildVersion)];
    var war := if WarEnabled(o) then [BuildWar(warName)] else [];
    assert Builds(o, libs, themes, warName, installDir) == front + war;
    assert front[|front| - 1] == BuildProject(o.buildVersion);
  }

  /** The options of `build.py -k` with nothing else given. */
  const NukitOnly: Options := Options(
    cappuccino := false, tnkit := false, bambou := false, nukit := true,
    project := false, all := false, everything := false, libraries := false,
    generateWar := false, verbose := false, buildVersion := None,
    clean := false, clobber := false, installDir := None, buildDir := None,
    noManifest := false, debug := false, generated := map[])

  /** `-k` alone: `init` with the default directories, then NUKit. */
  lemma NukitOnlyPlan(h: Host, env: map<string, string>,
                      libs: seq<Component>, themes: seq<Component>, warName: string)
    requires "CAPP_BUILD" !in env
    requires forall c :: c in libs + themes ==> Dest(c) != "nukit"
    ensures Plan(h, NukitOnly, env, libs, themes, warName)
         == [Init(h.expand(DefaultInstallDir), h.expand(DefaultBuildDir)), BuildLibrary("NUKit", None)]
  {
    var o := NukitOnly;
    assert forall c :: c in libs ==> c in libs + themes;
    assert forall c :: c in themes ==> c in libs + themes;
    LibraryBuildsEmpty(o, libs);
    ThemeBuildsEmpty(o, themes);
  }

  // The two paths as chains of states, one state per call of the script.

  /** The clean path, call by call, is the run of `CleanPlan`: `s0` is the
      state before the first call and each later state the one after the
      next call. */
  lemma CleanPlanRun(h: Host, s0: Machine, s1: Machine, s2: Machine, s3: Machine, s4: Machine,
                     s5: Machine, s6: Machine,
                     clobber: bool, libs: seq<Component>, themes: seq<Component>,
                     installDir: string, buildDir: string)
    requires s1 == ExecPlan(h, s0, RequiredCleans)
    requires s2 == ExecPlan(h, s1, CleanLibraries(libs))
    requires s3 == ExecPlan(h, s2, CleanThemes(themes))
    requires s4 == RunAction(h, s3, CleanProject)
    requires s5 == RunAction(h, s4, CleanWar)
    requires s6 == RunIf(h, s5, clobber, CleanCappuccino(installDir, buildDir))
    ensures Step(h, s6, Exit(0)) == ExecPlan(h, s0, CleanPlan(clobber, libs, themes, installDir, buildDir))
  {
    QuitStep(h, s6, 0);
    ExecPlanAppend(h, s0, RequiredCleans, CleanLibraries(libs));
    var p2 := RequiredCleans + CleanLibraries(libs);
    ExecPlanAppend(h, s0, p2, CleanThemes(themes));
    var p3 := p2 + CleanThemes(themes);
    ExecPlanAppend(h, s0, p3, [CleanProject, CleanWar]);
    ExecPlan2(h, s3, CleanProject, CleanWar);
    var p5 := p3 + [CleanProject, CleanWar];
    ExecPlanSnocIf(h, s0, p5, clobber, CleanCappuccino(installDir, buildDir));
    var p6 := p5 + (if clobber then [CleanCappuccino(installDir, buildDir)] else []);
    ExecPlanSnoc(h, s0, p6, Quit(0));
  }

  /** The "required libraries" block, call by call. */
  lemma RequiredRun(h: Host, o: Options, installDir: string,
                    s0: Machine, s1: Machine, s2: Machine, s3: Machine, s4: Machine)
    requires s1 == RunIf(h, s0, CappuccinoEnabled(o), InstallCappuccino(installDir, LocalDistrib))
    requires s2 == RunIf(h, s1, LibraryEnabled(o, o.tnkit), BuildLibrary("TNKit", None))
    requires s3 == RunIf(h, s2, LibraryEnabled(o, o.bambou), BuildLibrary("Bambou", None))
    requires s4 == RunIf(h, s3, LibraryEnabled(o, o.nukit), BuildLibrary("NUKit", None))
    ensures s4 == ExecPlan(h, s0, RequiredBuilds(o, installDir))
  {
    var q1 := if CappuccinoEnabled(o) then [InstallCappuccino(installDir, LocalDistrib)] else [];
    ExecPlanIf(h, s0, CappuccinoEnabled(o), InstallCappuccino(installDir, LocalDistrib));
    ExecPlanSnocIf(h, s0, q1, LibraryEnabled(o, o.tnkit), BuildLibrary("TNKit", None));
    var q2 := q1 + (if LibraryEnabled(o, o.tnkit) then [BuildLibrary("TNKit", None)] else []);
    ExecPlanSnocIf(h, s0, q2, LibraryEnabled(o, o.bambou), BuildLibrary("Bambou", None));
    var q3 := q2 + (if LibraryEnabled(o, o.bambou) then [BuildLibrary("Bambou", None)] else []);
    ExecPlanSnocIf(h, s0, q3, LibraryEnabled(o, o.nukit), BuildLibrary("NUKit", None));
  }

  /** The build path, call by call, is the run of its exports and builds. */
  lemma BuildPlanRun(h: Host, o: Options, libs: seq<Component>, themes: seq<Component>,
                     warName: string, installDir: string,
                     s0: Machine, s1: Machine, s2: Machine, s3: Machine, s4: Machine, s5: Machine,
                     s6: Machine, s7: Machine)
    requires s1 == RunIf(h, s0, o.noManifest, SetVariable(NoManifestKey, "1"))
    requires s2 == RunIf(h, s1, o.debug, SetVariable(DebugKey, "1"))
    requires s3 == ExecPlan(h, s2, RequiredBuilds(o, installDir))
    requires s4 == ExecPlan(h, s3, LibraryBuilds(o, libs))
    requires s5 == ExecPlan(h, s4, ThemeBuilds(o, themes))
    requires s6 == RunIf(h, s5, ProjectEnabled(o), BuildProject(o.buildVersion))
    requires s7 == RunIf(h, s6, WarEnabled(o), BuildWar(warName))
    ensures s7 == ExecPlan(h, s0, EnvPlan(o) + Builds(o, libs, themes, warName, installDir))
  {
    var e1 := if o.noManifest then [SetVariable(NoManifestKey, "1")] else [];
    ExecPlanIf(h, s0, o.noManifest, SetVariable(NoManifestKey, "1"));
    ExecPlanSnocIf(h, s0, e1, o.debug, SetVariable(DebugKey, "1"));
    ExecPlanAppend(h, s0, EnvPlan(o), Builds(o, libs, themes, warName, installDir));
    var q1 := RequiredBuilds(o, installDir);
    ExecPlanAppend(h, s2, q1, LibraryBuilds(o, libs));
    var q2 := q1 + LibraryBuilds(o, libs);
    ExecPlanAppend(h, s2, q2, ThemeBuilds(o, themes));
    var q3 := q2 + ThemeBuilds(o, themes);
    ExecPlanSnocIf(h, s2, q3, ProjectEnabled(o), BuildProject(o.buildVersion));
    var q4 := q3 + (if ProjectEnabled(o) then [BuildProject(o.buildVersion)] else []);
    ExecPlanSnocIf(h, s2, q4, WarEnabled(o), BuildWar(warName));
  }
}
