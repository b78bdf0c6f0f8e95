/** The process the build script runs in: its environment, its working
    directory, the log of what it did to the outside world, and whether it is
    still running. Every action of the script is a short list of primitive
    instructions (run a shell command, change directory, set a variable, ...)
    and `Exec` is their meaning. What `os.system` returns for a shell command
    comes from an oracle: the external tools are not modelled.
 */
module Shell {

  datatype Option<T> = None | Some(value: T)

  /** Running, or stopped by `sys.exit(code)`, or stopped by an uncaught exception. */
  datatype Status = Running | Exited(code: int) | Raised(error: string)

  /** Everything the outside world can see of one `os.system` call. */
  datatype Invocation = Invocation(ordinal: nat, line: string, cwd: string, env: map<string, string>)

  /** The contents of `Resources/app-version.js`: the git version
      (`<branch>-<revision>`) and the build version. */
  datatype VersionStamp = VersionStamp(gitVersion: string, buildVersion: string)

  /** The externally visible effects, in the order they happen. */
  datatype Event =
    | Ran(line: string, cwd: string, code: int)
    | Wrote(path: string, cwd: string, content: VersionStamp)
    | Renamed(source: string, target: string, cwd: string)

  /** What the script asks of its host and cannot compute itself: the values
      `os.system` returns, `os.path.expanduser`, `os.path.exists`, whether
      `sys.platform` names darwin, the repository root and the git outputs. */
  datatype Host = Host(
    oracle: Invocation -> int,
    expand: string -> string,
    pathExists: string -> bool,
    isDarwin: bool,
    root: string,
    gitRev: string,
    gitRef: string)

  datatype Machine = Machine(env: map<string, string>, cwd: string, trace: seq<Event>, status: Status)

  datatype Instr =
    | Run(line: string, expected: int)
    | Chdir(dir: string)
    | SetEnv(key: string, value: string)
    | WriteFile(path: string, content: VersionStamp)
    | Rename(source: string, target: string)
    | Exit(code: int)
    | Raise(error: string)

  /** The argument `command` passes to `sys.exit` on an unexpected return value
      (the process then exits with 255). */
  const FailureStatus: int := -1

  /** The directory `os.chdir(rel)` enters from `dir` (no normalisation). */
  function Join(dir: string, rel: string): (r: string)
    ensures |r| > |dir| && r[..|dir|] == dir
  {
    dir + "/" + rel
  }

  /** What `os.system` returns for running `line` now (under Python 2 on
      POSIX a wait status, which is 0 exactly when the command exits with 0). */
  function ExitCode(h: Host, m: Machine, line: string): int {
    h.oracle(Invocation(|m.trace|, line, m.cwd, m.env))
  }

  /** One instruction; a process that has stopped does nothing more. */
  function Step(h: Host, m: Machine, i: Instr): Machine {
    if !m.status.Running? then m
    else match i
      case Run(line, expected) =>
        var code := ExitCode(h, m, line);
        m.(trace := m.trace + [Ran(line, m.cwd, code)],
           status := if code == expected then Running else Exited(FailureStatus))
      case Chdir(dir) => m.(cwd := dir)
      case SetEnv(key, value) => m.(env := m.env[key := value])
      case WriteFile(path, content) => m.(trace := m.trace + [Wrote(path, m.cwd, content)])
      case Rename(source, target) => m.(trace := m.trace + [Renamed(source, target, m.cwd)])
      case Exit(code) => m.(status := Exited(code))
      case Raise(error) => m.(status := Raised(error))
  }

  function Exec(h: Host, m: Machine, script: seq<Instr>): Machine
    decreases |script|
  {
    if script == [] then m else Exec(h, Step(h, m, script[0]), script[1..])
  }

  /** The directory a script leaves the process in, when it runs to the end. */
  function LastDir(script: seq<Instr>, dir: string): string
    decreases |script|
  {
    if script == [] then dir
    else LastDir(script[1..], if script[0].Chdir? then script[0].dir else dir)
  }

  predicate SetsKey(script: seq<Instr>, key: string) {
    exists i :: i in script && i.SetEnv? && i.key == key
  }

  lemma ExecCons(h: Host, m: Machine, i: Instr, rest: seq<Instr>)
    ensures Exec(h, m, [i] + rest) == Exec(h, Step(h, m, i), rest)
  {
    assert ([i] + rest)[1..] == rest;
  }

  /** Literal scripts of the lengths the actions use, unrolled. */
  lemma Exec1(h: Host, m: Machine, a: Instr)
    ensures Exec(h, m, [a]) == Step(h, m, a)
  {
    ExecCons(h, m, a, []);
    assert [a] + [] == [a];
  }

  lemma Exec3(h: Host, m: Machine, a: Instr, b: Instr, c: Instr)
    ensures Exec(h, m, [a, b, c]) == Step(h, Step(h, Step(h, m, a), b), c)
  {
    assert [a, b, c] == [a] + ([b] + ([c] + []));
    ExecCons(h, m, a, [b, c]);
    ExecCons(h, Step(h, m, a), b, [c]);
    ExecCons(h, Step(h, Step(h, m, a), b), c, []);
  }

  lemma Exec4(h: Host, m: Machine, a: Instr, b: Instr, c: Instr, d: Instr)
    ensures Exec(h, m, [a, b, c, d]) == Step(h, Step(h, Step(h, Step(h, m, a), b), c), d)
  {
    assert [a, b, c, d] == [a] + [b, c, d];
    ExecCons(h, m, a, [b, c, d]);
    Exec3(h, Step(h, m, a), b, c, d);
  }

  lemma Exec5(h: Host, m: Machine, a: Instr, b: Instr, c: Instr, d: Instr, e: Instr)
    ensures Exec(h, m, [a, b, c, d, e]) == Step(h, Step(h, Step(h, Step(h, Step(h, m, a), b), c), d), e)
  {
    assert [a, b, c, d, e] == [a] + [b, c, d, e];
    ExecCons(h, m, a, [b, c, d, e]);
    Exec4(h, Step(h, m, a), b, c, d, e);
  }

  lemma Exec6(h: Host, m: Machine, a: Instr, b: Instr, c: Instr, d: Instr, e: Instr, f: Instr)
    ensures Exec(h, m, [a, b, c, d, e, f])
         == Step(h, Step(h, Step(h, Step(h, Step(h, Step(h, m, a), b), c), d), e), f)
  {
    assert [a, b, c, d, e, f] == [a] + [b, c, d, e, f];
    ExecCons(h, m, a, [b, c, d, e, f]);
    Exec5(h, Step(h, m, a), b, c, d, e, f);
  }

  /** `command` on an unexpected return value: the command is logged and the
      script ends in `sys.exit(-1)`; nothing after it runs. */
  lemma CommandFails(h: Host, m: Machine, line: string, expected: int, rest: seq<Instr>)
    requires m.status.Running? && ExitCode(h, m, line) != expected
    ensures Exec(h, m, [Run(line, expected)] + rest)
         == m.(trace := m.trace + [Ran(line, m.cwd, ExitCode(h, m, line))], status := Exited(FailureStatus))
  {
    ExecCons(h, m, Run(line, expected), rest);
    ExecStopped(h, Step(h, m, Run(line, expected)), rest);
  }

  /** `command` on the expected return value: the command is logged and the
      script goes on, in the same directory and environment. */
  lemma CommandSucceeds(h: Host, m: Machine, line: string, expected: int, rest: seq<Instr>)
    requires m.status.Running? && ExitCode(h, m, line) == expected
    ensures Exec(h, m, [Run(line, expected)] + rest)
         == Exec(h, m.(trace := m.trace + [Ran(line, m.cwd, expected)]), rest)
  {
    ExecCons(h, m, Run(line, expected), rest);
  }

  /** A stopped process stays exactly as it is, whatever is left to run. */
  lemma {:induction false} ExecStopped(h: Host, m: Machine, script: seq<Instr>)
    requires !m.status.Running?
    ensures Exec(h, m, script) == m
    decreases |script|
  {
    if script != [] {
      ExecStopped(h, Step(h, m, script[0]), script[1..]);
    }
  }

  lemma {:induction false} ExecAppend(h: Host, m: Machine, s: seq<Instr>, t: seq<Instr>)
    ensures Exec(h, m, s + t) == Exec(h, Exec(h, m, s), t)
    decreases |s|
  {
    if s == [] {
      assert s + t == t;
    } else {
      assert (s + t)[0] == s[0];
      assert (s + t)[1..] == s[1..] + t;
      ExecAppend(h, Step(h, m, s[0]), s[1..], t);
    }
  }

  /** Fail-fast: once a script has stopped the process, nothing that follows
      it is executed or logged. */
  lemma FailFast(h: Host, m: Machine, s: seq<Instr>, t: seq<Instr>)
    requires !Exec(h, m, s).status.Running?
    ensures Exec(h, m, s + t) == Exec(h, m, s)
  {
    ExecAppend(h, m, s, t);
    ExecStopped(h, Exec(h, m, s), t);
  }

  /** The log only grows. */
  lemma {:induction false} ExecExtendsTrace(h: Host, m: Machine, script: seq<Instr>)
    ensures var r := Exec(h, m, script);
      |m.trace| <= |r.trace| && r.trace[..|m.trace|] == m.trace
    decreases |script|
  {
    if script != [] {
      var m' := Step(h, m, script[0]);
      assert |m.trace| <= |m'.trace| && m'.trace[..|m.trace|] == m.trace;
      ExecExtendsTrace(h, m', script[1..]);
      var r := Exec(h, m', script[1..]);
      assert r.trace[..|m.trace|] == r.trace[..|m'.trace|][..|m.trace|];
    }
  }

  /** A run that ends still running has stood in the directory of the last
      `Chdir` of the script (or in its starting one). */
  lemma {:induction false} ExecCwd(h: Host, m: Machine, script: seq<Instr>)
    requires Exec(h, m, script).status.Running?
    ensures Exec(h, m, script).cwd == LastDir(script, m.cwd)
    decreases |script|
  {
    if script != [] {
      var m' := Step(h, m, script[0]);
      if !m'.status.Running? {
        ExecStopped(h, m', script[1..]);
        assert false;
      }
      ExecCwd(h, m', script[1..]);
    }
  }

  /** A variable the script never sets keeps its presence and its value. */
  lemma {:induction false} ExecKeepsKey(h: Host, m: Machine, script: seq<Instr>, key: string)
    requires !SetsKey(script, key)
    ensures var r := Exec(h, m, script);
      (key in r.env <==> key in m.env) && (key in m.env ==> r.env[key] == m.env[key])
    decreases |script|
  {
    if script != [] {
      assert script[0] in script;
      assert !SetsKey(script[1..], key) by {
        forall i | i in script[1..] ensures !(i.SetEnv? && i.key == key) {
          assert i in script;
        }
      }
      ExecKeepsKey(h, Step(h, m, script[0]), script[1..], key);
    }
  }

  /** The statuses the script can end in without an explicit `sys.exit`:
      still running, stopped by a failed command, or stopped by the
      `KeyError` of a missing `PATH`. */
  predicate Ordinary(s: Status) {
    s.Running? || s == Exited(FailureStatus) || s == Raised("KeyError")
  }

  /** A script with no explicit exit and no exception other than `KeyError`. */
  predicate Tame(script: seq<Instr>) {
    forall i :: i in script ==> !i.Exit? && (i.Raise? ==> i.error == "KeyError")
  }

  lemma {:induction false} ExecOrdinary(h: Host, m: Machine, script: seq<Instr>)
    requires Ordinary(m.status) && Tame(script)
    ensures Ordinary(Exec(h, m, script).status)
    decreases |script|
  {
    if script != [] {
      assert script[0] in script;
      assert Tame(script[1..]) by {
        forall i | i in script[1..] ensures !i.Exit? && (i.Raise? ==> i.error == "KeyError") {
          assert i in script;
        }
      }
      ExecOrdinary(h, Step(h, m, script[0]), script[1..]);
    }
  }
}
