/**
 * The built-in commands (builtincommands.py): what each command's `_execute`
 * hook does, the argument lists it hands to the process runner, the messages
 * of the CommandErrors it raises, and the registration of all ten.
 *
 * A hook's effect on the world is an `Outcome`: the environment variables
 * afterwards, the external actions in order, and the exception raised.
 * Console logging is not part of the outcome.
 */
module Builtins {
  import opened Errors
  import opened Text
  import opened Values
  import opened Process
  import opened Commands
  import System
  import Docker

  /** An external action a hook performs. */
  datatype Action =
    | Ran(argv: seq<string>)                      // `Execution(argv).execute()`; `[s]` is the command line s
    | CopiedTree(source: string, target: string)  // `shutil.copytree`
    | CopiedFile(source: string, target: string)  // `shutil.copy`
    | CustomRan(className: string, arguments: Value)  // a custom class's `_execute`

  datatype Outcome = Outcome(env: map<string, string>, actions: seq<Action>, error: Option<Error>)

  /** Python's error for `args[i]` past the end of the list. */
  const ListIndexError := IndexError("list index out of range")

  // ---------------------------------------------------------------------
  // Output handling

  /** What `handle_output` reports for a healthy run: the joined command, its lines, and whether it warned. */
  datatype Report = Report(command: string, lines: seq<string>, warned: bool)

  /** The default `command_tag` of `handle_output`. */
  const SystemCommandTag := "System command"

  /** `_GenericOutputHandler.handle_output(execution, args, tag)`. */
  function HandleOutput(execution: ExecutionResult, args: seq<string>, tag: string): (r: Result<Report>)
    ensures r.Err? <==> !execution.IsHealthy()
    ensures r.Err? ==> r.error == CommandError(tag + " failed with stderr: " + execution.stderr + " and exit code: " + IntToString(execution.exitCode))
  {
    if !execution.IsHealthy() then
      Err(CommandError(tag + " failed with stderr: " + execution.stderr + " and exit code: " + IntToString(execution.exitCode)))
    else
      var fromStderr := execution.stdout == "" && execution.stderr != "";
      Ok(Report(Join(" ", args), SplitLines(if fromStderr then execution.stderr else execution.stdout), fromStderr))
  }

  /**
   * Which stream a healthy run's lines come from: stderr exactly when stdout
   * is empty and stderr is not; there are no lines only when both are empty.
   */
  lemma HandleOutputLines(execution: ExecutionResult, args: seq<string>, tag: string)
    requires execution.IsHealthy()
    ensures HandleOutput(execution, args, tag).Ok?
    ensures HandleOutput(execution, args, tag).value.command == Join(" ", args)
    ensures execution.stdout != "" ==> HandleOutput(execution, args, tag).value.lines == SplitLines(execution.stdout) != []
    ensures execution.stdout == "" && execution.stderr != "" ==>
      HandleOutput(execution, args, tag).value.warned && HandleOutput(execution, args, tag).value.lines == SplitLines(execution.stderr) != []
    ensures HandleOutput(execution, args, tag).value.lines == [] <==> execution.stdout == "" && execution.stderr == ""
  {
    SplitLinesEmpty(execution.stdout);
    SplitLinesEmpty(execution.stderr);
  }

  /** The exception of an output check, if any. */
  function ErrorOf(r: Result<Report>): Option<Error> {
    if r.Err? then Some(r.error) else None
  }

  // ---------------------------------------------------------------------
  // copy

  /** What `os.stat` raises for an argument that is neither a path nor a file descriptor. */
  function StatTypeError(v: Value): Error {
    TypeError("stat: path should be string, bytes, os.PathLike or integer, not " + TypeName(v))
  }

  /**
   * `CopyCommand._execute`: a directory is copied as a tree, anything else as
   * a file. A source that is None, a list or a mapping makes `os.path.isdir`
   * raise; other non-string arguments are the host's `copyOther`.
   */
  function CopyHook(args: seq<Value>, env: map<string, string>, host: Host): (o: Outcome)
    ensures o.env == env
    ensures |args| >= 2 && args[0].Str? && args[1].Str? ==> |o.actions| == 1
    ensures |args| >= 2 && args[0].Str? && args[1].Str? ==> (o.actions[0].CopiedTree? <==> host.isDir(args[0].s))
    ensures |args| >= 2 && args[0].Str? && args[1].Str? ==> o.actions[0] in [CopiedTree(args[0].s, args[1].s), CopiedFile(args[0].s, args[1].s)]
    ensures |args| >= 2 && !(args[0].Str? || args[0].Int? || args[0].Bool?) ==> o == Outcome(env, [], Some(StatTypeError(args[0])))
  {
    if |args| < 2 then Outcome(env, [], Some(ListIndexError))
    else if !(args[0].Str? || args[0].Int? || args[0].Bool?) then Outcome(env, [], Some(StatTypeError(args[0])))
    else if !args[0].Str? || !args[1].Str? then Outcome(env, [], host.copyOther(args[0], args[1]))
    else if host.isDir(args[0].s) then Outcome(env, [CopiedTree(args[0].s, args[1].s)], host.copyTree(args[0].s, args[1].s))
    else Outcome(env, [CopiedFile(args[0].s, args[1].s)], host.copyFile(args[0].s, args[1].s))
  }

  // ---------------------------------------------------------------------
  // execute-shell

  /** The arguments after `_resolve_bash`: only a leading `bash` on Windows changes. */
  function ResolvedArgs(args: seq<Value>, platform: string, bashPath: string): seq<Value>
    requires |args| >= 1
  {
    if args[0] == Str("bash") && System.IsWindows(platform) then [Str(if bashPath != "" then bashPath else "bash")] + args[1..]
    else args
  }

  /** `_resolve_bash(args)`: rewrite `args[0]` in place; true when it was a `bash` to resolve. */
  method ResolveBash(args: array<Value>, platform: string, bashPath: string) returns (resolved: bool)
    requires args.Length >= 1
    modifies args
    ensures resolved <==> old(args[0]) == Str("bash") && System.IsWindows(platform)
    ensures args[0] == if resolved then Str(if bashPath != "" then bashPath else "bash") else old(args[0])
    ensures args[1..] == old(args[1..])
    ensures args[..] == ResolvedArgs(old(args[..]), platform, bashPath)
  {
    var firstArg := args[0];
    var bash := Str("bash");
    if firstArg == bash && System.IsWindows(platform) {
      args[0] := if bashPath != "" then Str(bashPath) else bash;
      resolved := true;
    } else {
      resolved := false;
    }
  }

  /** The one-character strings a `for` loop over `s` visits, which `' '.join` writes out. */
  function Chars(s: string): (r: seq<string>)
    ensures |r| == |s| && forall i :: 0 <= i < |s| ==> r[i] == [s[i]]
  {
    seq(|s|, i requires 0 <= i < |s| => [s[i]])
  }

  /**
   * `ExecuteSystemCommand._execute`: run the resolved arguments, then check
   * the output. `Execution` joins a list of arguments first, so a non-string
   * one raises before anything runs; a step whose `arguments` is one string
   * (`given`) has that string run as it is, since a single character is
   * never "bash" and `Execution` joins only lists.
   */
  function ShellHook(args: seq<Value>, given: Value, env: map<string, string>, host: Host): (o: Outcome)
    ensures o.env == env
    ensures |args| >= 1 && given.Str? ==>
      o.actions == [Ran([given.s])] && (o.error.None? <==> host.run([given.s]).IsHealthy())
    ensures |args| >= 1 && !given.Str? && (exists i :: 0 <= i < |args| && !args[i].Str?) ==>
      o.actions == [] && o.error.Some? && o.error.value.TypeError?
    ensures |args| >= 1 && !given.Str? && (forall i :: 0 <= i < |args| ==> args[i].Str?) ==>
      |o.actions| == 1 && o.actions[0].Ran? && StrValues(o.actions[0].argv) == ResolvedArgs(args, host.platform, host.bashPath)
  {
    if |args| < 1 then Outcome(env, [], Some(ListIndexError))
    else if given.Str? then
      Outcome(env, [Ran([given.s])], ErrorOf(HandleOutput(host.run([given.s]), Chars(given.s), SystemCommandTag)))
    else
      var resolved := ResolvedArgs(args, host.platform, host.bashPath);
      assert forall i :: 1 <= i < |args| ==> resolved[i] == args[i];
      match ArgStrings(resolved)
      case Err(e) => Outcome(env, [], Some(e))
      case Ok(argv) =>
        assert StrValues(argv) == resolved;
        Outcome(env, [Ran(argv)], ErrorOf(HandleOutput(host.run(argv), argv, SystemCommandTag)))
  }

  /** The hook as the source writes it: the argument list is an array that `_resolve_bash` updates in place. */
  method ExecuteSystemCommand(args: seq<Value>, given: Value, env: map<string, string>, host: Host) returns (o: Outcome)
    ensures o == ShellHook(args, given, env, host)
  {
    if |args| < 1 {
      return Outcome(env, [], Some(ListIndexError));
    }
    if given.Str? {
      var execution := host.run([given.s]);
      return Outcome(env, [Ran([given.s])], ErrorOf(HandleOutput(execution, Chars(given.s), SystemCommandTag)));
    }
    var a := new Value[|args|](i requires 0 <= i < |args| => args[i]);
    assert a[..] == args;
    var resolved := ResolveBash(a, host.platform, host.bashPath);
    match ArgStrings(a[..])
    case Err(e) =>
      o := Outcome(env, [], Some(e));
    case Ok(argv) =>
      var execution := host.run(argv);
      o := Outcome(env, [Ran(argv)], ErrorOf(HandleOutput(execution, argv, SystemCommandTag)));
  }

  /** Bash is resolved only on Windows, and only when it is the first argument. */
  lemma BashResolution(args: seq<Value>, platform: string, bashPath: string)
    requires |args| >= 1
    ensures |ResolvedArgs(args, platform, bashPath)| == |args|
    ensures ResolvedArgs(args, platform, bashPath)[1..] == args[1..]
    ensures !System.IsWindows(platform) ==> ResolvedArgs(args, platform, bashPath) == args
    ensures args[0] != Str("bash") ==> ResolvedArgs(args, platform, bashPath) == args
    ensures args[0] == Str("bash") && System.IsWindows(platform) && bashPath != "" ==> ResolvedArgs(args, platform, bashPath)[0] == Str(bashPath)
    ensures bashPath == "" ==> ResolvedArgs(args, platform, bashPath) == args
  {
  }

  // ---------------------------------------------------------------------
  // set-variable, set-secret and set-variables

  /**
   * The error a `set-variables` argument raises, if it is not a usable
   * `key=value` pair: a non-string has no `split`, a string needs one `=`
   * and a name without spaces.
   */
  function PairError(arg: Value): Option<Error> {
    if !arg.Str? then Some(AttributeError("'" + TypeName(arg) + "' object has no attribute 'split'"))
    else
      var split := Split(arg.s, '=');
      if |split| != 2 then
        Some(CommandError("Invalid variable format " + arg.s + ", format is key=value. Make sure key or value does not contain any = characters"))
      else if |Split(split[0], ' ')| > 1 then
        Some(CommandError("Names of variables cannot contain spaces"))
      else None
  }

  /** A name and value that `os.environ` can hold: a non-empty name without `=`, and no NUL in either. */
  predicate EnvironEntry(name: string, value: string) {
    name != "" && '=' !in name && '\0' !in name && '\0' !in value
  }

  /**
   * What `os.environ[name] = value` raises for two strings (`os.putenv` on
   * POSIX): converting them to C strings rejects a NUL, in the name and then
   * in the value; a name holding `=` is illegal; `setenv` refuses the empty
   * name with EINVAL.
   */
  function PutenvError(name: string, value: string): (r: Option<Error>)
    ensures r.None? <==> EnvironEntry(name, value)
    ensures '\0' in name || '\0' in value ==> r == Some(ValueError("embedded null byte"))
    ensures '\0' !in name && '\0' !in value && '=' in name ==> r == Some(ValueError("illegal environment variable name"))
    ensures name == "" && '\0' !in value ==> r == Some(OSError("[Errno 22] Invalid argument"))
  {
    if '\0' in name || '\0' in value then Some(ValueError("embedded null byte"))
    else if '=' in name then Some(ValueError("illegal environment variable name"))
    else if name == "" then Some(OSError("[Errno 22] Invalid argument"))
    else None
  }

  /**
   * `SetVariablesCommand._execute(args)` on the environment `env`: the pairs
   * left to right, up to the first that is malformed or that `os.environ`
   * refuses.
   */
  function SetAll(env: map<string, string>, args: seq<Value>): (map<string, string>, Option<Error>)
    decreases |args|
  {
    if args == [] then (env, None)
    else if PairError(args[0]).Some? then (env, PairError(args[0]))
    else
      var split := Split(args[0].s, '=');
      if PutenvError(split[0], split[1]).Some? then (env, PutenvError(split[0], split[1]))
      else SetAll(env[split[0] := split[1]], args[1..])
  }

  /** A pair is accepted exactly when it has one `=` and a name without spaces; it is then `name=value`. */
  lemma PairAccepted(arg: string)
    ensures PairError(Str(arg)).None? <==> Count(arg, '=') == 1 && ' ' !in Split(arg, '=')[0]
    ensures PairError(Str(arg)).None? ==> arg == Split(arg, '=')[0] + "=" + Split(arg, '=')[1]
    ensures PairError(Str(arg)).None? ==> '=' !in Split(arg, '=')[0] && '=' !in Split(arg, '=')[1]
  {
    var split := Split(arg, '=');
    SplitCount(arg, '=');
    SplitCount(split[0], ' ');
    CountPositive(split[0], ' ');
    SplitPiecesFree(arg, '=');
    JoinSplit(arg, '=');
    if |split| == 2 {
      assert Join("=", split) == split[0] + "=" + Join("=", split[1..]);
      assert split[1..] == [split[1]];
    }
  }

  /** Left to right: setting `a + b` is setting `a`, then `b` unless `a` failed. */
  lemma {:induction false} SetAllAppend(env: map<string, string>, a: seq<Value>, b: seq<Value>)
    ensures SetAll(env, a + b) == if SetAll(env, a).1.Some? then SetAll(env, a) else SetAll(SetAll(env, a).0, b)
    decreases |a|
  {
    if a != [] {
      assert (a + b)[1..] == a[1..] + b;
      if PairError(a[0]).None? {
        var split := Split(a[0].s, '=');
        if PutenvError(split[0], split[1]).None? {
          SetAllAppend(env[split[0] := split[1]], a[1..], b);
        }
      }
    } else {
      assert a + b == b;
    }
  }

  /** Pairs before the failing one stay set, and the failing one's error is raised. */
  lemma SetAllKeepsEarlierPairs(env: map<string, string>, good: seq<Value>, bad: Value, rest: seq<Value>)
    requires SetAll(env, good).1.None?
    requires PairError(bad).Some?
    ensures SetAll(env, good + [bad] + rest) == (SetAll(env, good).0, PairError(bad))
  {
    SetAllAppend(env, good, [bad] + rest);
    assert good + [bad] + rest == good + ([bad] + rest);
  }

  /**
   * One well-formed pair sets its name to its value and nothing else, when
   * `os.environ` accepts them; otherwise it raises what `os.environ` raises
   * and sets nothing.
   */
  lemma SetAllOnePair(env: map<string, string>, name: string, value: string)
    requires '=' !in name && '=' !in value && ' ' !in name
    ensures EnvironEntry(name, value) ==> SetAll(env, [Str(name + "=" + value)]) == (env[name := value], None)
    ensures !EnvironEntry(name, value) ==> SetAll(env, [Str(name + "=" + value)]) == (env, PutenvError(name, value))
  {
    var arg := name + "=" + value;
    SplitParts(name, value);
    SplitWithout(name, ' ');
    assert [Str(arg)][1..] == [];
  }

  /** A non-string stops `set-variables` with an AttributeError, after the pairs before it are set. */
  lemma SetVariablesStopsAtNonString(env: map<string, string>, name: string, value: string, v: Value)
    requires '=' !in value && ' ' !in name && EnvironEntry(name, value)
    requires !v.Str?
    ensures SetAll(env, [Str(name + "=" + value), v])
      == (env[name := value], Some(AttributeError("'" + TypeName(v) + "' object has no attribute 'split'")))
  {
    SetAllOnePair(env, name, value);
    SetAllKeepsEarlierPairs(env, [Str(name + "=" + value)], v, []);
    assert [Str(name + "=" + value)] + [v] + [] == [Str(name + "=" + value), v];
  }

  lemma SplitParts(name: string, value: string)
    requires '=' !in name && '=' !in value
    ensures Split(name + "=" + value, '=') == [name, value]
    decreases |name|
  {
    if name == [] {
      assert name + "=" + value == ['='] + value;
      assert (['='] + value)[1..] == value;
      SplitWithout(value, '=');
    } else {
      assert (name + "=" + value)[1..] == name[1..] + "=" + value;
      assert '=' !in name[1..];
      SplitParts(name[1..], value);
      assert name == [name[0]] + name[1..];
    }
  }

  /** `os.environ`. */
  class Environ {
    var vars: map<string, string>

    constructor (vars: map<string, string>)
      ensures this.vars == vars
    {
      this.vars := vars;
    }

    /**
     * `SetVariableCommand._do_set(name, value, os.environ)`; a secret differs
     * only in what is logged. A name or value `os.environ` refuses raises and
     * sets nothing.
     */
    method SetVariable(name: string, value: string) returns (err: Option<Error>)
      modifies this
      ensures err == PutenvError(name, value)
      ensures err.None? ==> vars == old(vars)[name := value]
      ensures err.Some? ==> vars == old(vars)
    {
      err := PutenvError(name, value);
      if err.None? {
        vars := vars[name := value];
      }
    }

    /** `SetVariablesCommand._execute(args)`: each pair in turn; the first bad one raises and stops. */
    method SetVariables(args: seq<Value>) returns (err: Option<Error>)
      modifies this
      ensures (vars, err) == SetAll(old(vars), args)
    {
      var i := 0;
      while i < |args|
        invariant 0 <= i <= |args|
        invariant SetAll(old(vars), args) == SetAll(vars, args[i..])
      {
        assert args[i..][1..] == args[i + 1..];
        if !args[i].Str? {
          err := Some(AttributeError("'" + TypeName(args[i]) + "' object has no attribute 'split'"));
          return;
        }
        var arg := args[i].s;
        var split := Split(arg, '=');
        if |split| != 2 {
          err := Some(CommandError("Invalid variable format " + arg + ", format is key=value. Make sure key or value does not contain any = characters"));
          return;
        }
        var name := split[0];
        var value := split[1];
        if |Split(name, ' ')| > 1 {
          err := Some(CommandError("Names of variables cannot contain spaces"));
          return;
        }
        err := SetVariable(name, value);
        if err.Some? {
          return;
        }
        i := i + 1;
      }
      err := None;
    }
  }

  /** What assigning into `os.environ` raises for a name or value that is not a string. */
  function EnvironTypeError(v: Value): Error {
    TypeError("str expected, not " + TypeName(v))
  }

  /**
   * `SetVariableCommand._execute`: the first argument names the variable, the
   * second is its value; `os.environ` checks the type of the name, then of
   * the value, then what `putenv` accepts.
   */
  function SetVariableHook(args: seq<Value>, env: map<string, string>): (o: Outcome)
    ensures o.actions == []
    ensures |args| >= 2 && args[0].Str? && args[1].Str? && EnvironEntry(args[0].s, args[1].s) ==>
      o == Outcome(env[args[0].s := args[1].s], [], None)
    ensures |args| >= 2 && args[0].Str? && args[1].Str? && !EnvironEntry(args[0].s, args[1].s) ==>
      o == Outcome(env, [], PutenvError(args[0].s, args[1].s))
    ensures !(|args| >= 2 && args[0].Str? && args[1].Str? && EnvironEntry(args[0].s, args[1].s)) ==> o.env == env && o.error.Some?
    ensures |args| >= 2 && !args[0].Str? ==> o.error == Some(TypeError("str expected, not " + TypeName(args[0])))
    ensures |args| >= 2 && args[0].Str? && !args[1].Str? ==> o.error == Some(TypeError("str expected, not " + TypeName(args[1])))
  {
    if |args| < 2 then Outcome(env, [], Some(ListIndexError))
    else if !args[0].Str? then Outcome(env, [], Some(EnvironTypeError(args[0])))
    else if !args[1].Str? then Outcome(env, [], Some(EnvironTypeError(args[1])))
    else if PutenvError(args[0].s, args[1].s).Some? then Outcome(env, [], PutenvError(args[0].s, args[1].s))
    else Outcome(env[args[0].s := args[1].s], [], None)
  }

  function SetVariablesHook(args: seq<Value>, env: map<string, string>): Outcome {
    var (after, err) := SetAll(env, args);
    Outcome(after, [], err)
  }

  // ---------------------------------------------------------------------
  // git-clone

  /**
   * `git clone` of the repository, into the second argument when there are
   * exactly two and the second is not None.
   */
  function GitCloneArgs(args: seq<Value>): (argv: seq<Value>)
    requires |args| >= 1
    ensures |argv| >= 3 && argv[..3] == [Str("git"), Str("clone"), args[0]]
    ensures |args| == 2 && args[1] != Null ==> argv == [Str("git"), Str("clone"), args[0], args[1]]
    ensures !(|args| == 2 && args[1] != Null) ==> argv == [Str("git"), Str("clone"), args[0]]
  {
    [Str("git"), Str("clone"), args[0]] + (if |args| == 2 && args[1] != Null then [args[1]] else [])
  }

  /** The CommandError of a failed clone: stderr when there is some, else stdout. */
  function GitCloneError(result: ExecutionResult): (e: Option<Error>)
    ensures e.Some? <==> result.exitCode != 0
    ensures e.Some? ==> e.value.CommandError?
    ensures e.Some? && result.stderr != "" ==> e.value.message == "Failed to perform git clone with error " + result.stderr + " and exit code " + IntToString(result.exitCode)
    ensures e.Some? && result.stderr == "" ==> e.value.message == "Failed to perform git clone with error " + result.stdout + " and exit code " + IntToString(result.exitCode)
  {
    if result.exitCode != 0 then
      Some(CommandError("Failed to perform git clone with error " + (if result.stderr != "" then result.stderr else result.stdout) + " and exit code " + IntToString(result.exitCode)))
    else None
  }

  function GitCloneHook(args: seq<Value>, env: map<string, string>, host: Host): Outcome {
    if |args| < 1 then Outcome(env, [], Some(ListIndexError))
    else
      match ArgStrings(GitCloneArgs(args))
      case Err(e) => Outcome(env, [], Some(e))
      case Ok(argv) => Outcome(env, [Ran(argv)], GitCloneError(host.run(argv)))
  }

  /** A None target name is no target: the repository is cloned into git's default directory. */
  lemma GitCloneNullTarget(repo: string, env: map<string, string>, host: Host)
    ensures GitCloneHook([Str(repo), Null], env, host) == GitCloneHook([Str(repo)], env, host)
    ensures GitCloneHook([Str(repo)], env, host).actions == [Ran(["git", "clone", repo])]
  {
    assert GitCloneArgs([Str(repo), Null]) == GitCloneArgs([Str(repo)]) == StrValues(["git", "clone", repo]);
    StrValuesRoundTrip(["git", "clone", repo]);
  }

  /** A target name that is not a string fails the join at its place, the fourth item. */
  lemma GitCloneNonStringTarget(repo: string, target: Value, env: map<string, string>, host: Host)
    requires !target.Str? && target != Null
    ensures GitCloneHook([Str(repo), target], env, host) == Outcome(env, [], Some(TypeError("sequence item " + "3" + ": expected str instance, " + TypeName(target) + " found")))
  {
    var argv := GitCloneArgs([Str(repo), target]);
    assert FirstNonStr(argv) == 3 by {
      assert argv[1..][1..][1..] == [target];
    }
    assert argv[3] == target;
    assert IntToString(3) == "3";
    assert ArgStrings(argv) == Err(TypeError("sequence item " + "3" + ": expected str instance, " + TypeName(target) + " found"));
  }

  // ---------------------------------------------------------------------
  // execute-python, execute-groovy

  /** `_EXTENSION_MAP.get(interpreter, interpreter)`. */
  function Extension(interpreter: string): string {
    if interpreter == "python" then "py" else if interpreter == "groovy" then "groovy" else interpreter
  }

  /** `s` is a non-empty, newline-free stem followed by `.ext`. */
  predicate ScriptName(s: string, ext: string) {
    |s| >= |ext| + 2 && s[|s| - |ext| - 1..] == "." + ext && forall k :: 0 <= k < |s| - |ext| - 1 ==> s[k] != '\n'
  }

  /** `re.match('^(.+)\\.ext$', arg)`: `$` also matches just before a final newline. */
  predicate MatchesScript(arg: string, ext: string) {
    ScriptName(arg, ext) || (|arg| >= 1 && arg[|arg| - 1] == '\n' && ScriptName(arg[..|arg| - 1], ext))
  }

  /** What `re.match` raises for an argument that is not a string. */
  const ReMatchTypeError := TypeError("expected string or bytes-like object")

  /**
   * The outcome of `_verify_script_passed(process_args)`: the arguments are
   * matched in order, so a string that names a script before any non-string
   * passes, a non-string reached first raises, and no script at all is a
   * CommandError.
   */
  function ScriptCheck(commandName: string, processArgs: seq<Value>, ext: string): Option<Error> {
    var k := FirstNonStr(processArgs);
    if exists i :: 0 <= i < k && MatchesScript(processArgs[i].s, ext) then None
    else if k < |processArgs| then Some(ReMatchTypeError)
    else Some(CommandError("The " + commandName + " command needs the name of a ." + ext + " script to be passed in"))
  }

  /** `_verify_script_passed(process_args)`: the first matching argument ends the search; none raises. */
  method VerifyScriptPassed(commandName: string, processArgs: seq<Value>, ext: string) returns (err: Option<Error>)
    ensures err == ScriptCheck(commandName, processArgs, ext)
    ensures err.None? <==> exists i :: 0 <= i < |processArgs| && ScriptAt(processArgs, i, ext)
    ensures (forall i :: 0 <= i < |processArgs| ==> processArgs[i].Str?) && err.Some? ==>
      err.value == CommandError("The " + commandName + " command needs the name of a ." + ext + " script to be passed in")
  {
    var i := 0;
    while i < |processArgs|
      invariant 0 <= i <= |processArgs|
      invariant forall j :: 0 <= j < i ==> processArgs[j].Str? && !MatchesScript(processArgs[j].s, ext)
    {
      if !processArgs[i].Str? {
        assert FirstNonStr(processArgs) == i;
        assert forall j :: 0 <= j < |processArgs| ==> !ScriptAt(processArgs, j, ext);
        return Some(ReMatchTypeError);
      }
      if MatchesScript(processArgs[i].s, ext) {
        assert ScriptAt(processArgs, i, ext);
        return None;
      }
      i := i + 1;
    }
    assert forall j :: 0 <= j < |processArgs| ==> !ScriptAt(processArgs, j, ext);
    err := Some(CommandError("The " + commandName + " command needs the name of a ." + ext + " script to be passed in"));
  }

  /** `processArgs[i]` names a script, and every argument before it is a string that `re.match` could test. */
  predicate ScriptAt(processArgs: seq<Value>, i: int, ext: string)
    requires 0 <= i < |processArgs|
  {
    processArgs[i].Str? && MatchesScript(processArgs[i].s, ext) && forall j :: 0 <= j < i ==> processArgs[j].Str?
  }

  /** `_interpreter_capitalised()`: the first character upper-cased. */
  function Capitalised(interpreter: string): (r: string)
    ensures |r| == |interpreter|
    ensures |r| > 0 ==> r[0] == UpperChar(interpreter[0]) && r[1..] == interpreter[1..]
  {
    if interpreter == "" then "" else [UpperChar(interpreter[0])] + interpreter[1..]
  }

  function ScriptHook(name: string, interpreter: string, args: seq<Value>, env: map<string, string>, host: Host): Outcome {
    var processArgs := [Str(interpreter)] + args;
    match ScriptCheck(name, processArgs, Extension(interpreter))
    case Some(e) => Outcome(env, [], Some(e))
    case None =>
      match ArgStrings(processArgs)
      case Err(e) => Outcome(env, [], Some(e))
      case Ok(argv) => Outcome(env, [Ran(argv)], ErrorOf(HandleOutput(host.run(argv), argv, Capitalised(interpreter) + " interpreter")))
  }

  /** A Python script argument is accepted and run with the interpreter first. */
  lemma PythonScriptAccepted(stem: string, flags: seq<string>, env: map<string, string>, host: Host)
    requires |stem| >= 1 && '\n' !in stem
    ensures ScriptHook("execute-python", "python", StrValues(flags + [stem + ".py"]), env, host).actions == [Ran(["python"] + flags + [stem + ".py"])]
  {
    var arg := stem + ".py";
    assert arg[|arg| - 3..] == ".py";
    var argv := ["python"] + flags + [arg];
    var processArgs := [Str("python")] + StrValues(flags + [arg]);
    assert processArgs == StrValues(argv);
    assert FirstNonStr(processArgs) == |processArgs|;
    assert processArgs[|processArgs| - 1] == Str(arg);
    assert MatchesScript(processArgs[|processArgs| - 1].s, "py");
    StrValuesRoundTrip(argv);
  }

  /** A non-string before the script makes `re.match` raise; one after it passes the search and fails the join. */
  lemma ScriptNonStringArgument(stem: string, v: Value, env: map<string, string>, host: Host)
    requires |stem| >= 1 && '\n' !in stem && !v.Str?
    ensures ScriptHook("execute-python", "python", [v, Str(stem + ".py")], env, host) == Outcome(env, [], Some(ReMatchTypeError))
    ensures ScriptHook("execute-python", "python", [Str(stem + ".py"), v], env, host)
      == Outcome(env, [], Some(TypeError("sequence item " + "2" + ": expected str instance, " + TypeName(v) + " found")))
  {
    var arg := stem + ".py";
    assert arg[|arg| - 3..] == ".py";
    var before := [Str("python"), v, Str(arg)];
    assert FirstNonStr(before) == 1 by {
      assert before[1..] == [v, Str(arg)];
    }
    assert !MatchesScript("python", "py") by {
      ScriptNeedsStem("py");
    }
    var after := [Str("python"), Str(arg), v];
    assert FirstNonStr(after) == 2 by {
      assert after[1..][1..] == [v];
    }
    assert MatchesScript(after[1].s, "py");
    assert after[2] == v;
    assert IntToString(2) == "2";
    assert ArgStrings(after) == Err(TypeError("sequence item " + "2" + ": expected str instance, " + TypeName(v) + " found"));
    assert [Str("python")] + [v, Str(arg)] == before;
    assert [Str("python")] + [Str(arg), v] == after;
  }

  /** The interpreter's own name never counts as the script, and a bare `.py` has no stem. */
  lemma ScriptNeedsStem(ext: string)
    ensures !MatchesScript("." + ext, ext)
    ensures !MatchesScript("python", "py")
  {
    assert "python"[6 - 3..] == "hon" != ".py";
    assert "python"[5] != '\n';
  }

  // ---------------------------------------------------------------------
  // create-container

  function CreateContainerError(name: string, image: string, execution: ExecutionResult): (e: Option<Error>)
    ensures e.Some? <==> !execution.IsHealthy()
  {
    if execution.IsHealthy() then None
    else Some(CommandError("Failed to create Docker container " + name + " from image " + image + " with error: " + execution.stderr + " and exit code: " + IntToString(execution.exitCode)))
  }

  /** The list `create_docker_container(image, name, extra)` builds for `docker run`, before it is joined. */
  function ContainerArgv(args: seq<Value>): seq<Value>
    requires |args| >= 2
  {
    StrValues(["docker", "run", "-d", "--name"]) + [args[0]] + args[2..] + [args[1]]
  }

  /** When every argument is a string, the joined list is `Docker.ContainerArgs` of those strings. */
  lemma ContainerArgvStrings(name: string, image: string, extra: seq<string>)
    ensures ContainerArgv(StrValues([name, image] + extra)) == StrValues(Docker.ContainerArgs(image, name, extra))
    ensures ArgStrings(ContainerArgv(StrValues([name, image] + extra))) == Ok(Docker.ContainerArgs(image, name, extra))
  {
    var args := StrValues([name, image] + extra);
    assert args[2..] == StrValues(extra);
    assert ContainerArgv(args) == StrValues(Docker.ContainerArgs(image, name, extra));
    StrValuesRoundTrip(Docker.ContainerArgs(image, name, extra));
  }

  /** `CreateContainerCommand._execute`: name first, image second, the rest passed to `docker run`. */
  function CreateContainerHook(args: seq<Value>, env: map<string, string>, host: Host): (o: Outcome)
    ensures o.env == env
    ensures |args| >= 2 && ArgStrings(ContainerArgv(args)).Ok? ==> o.actions == [Ran(ArgStrings(ContainerArgv(args)).value)]
    ensures |args| >= 2 && ArgStrings(ContainerArgv(args)).Err? ==> o.actions == [] && o.error.Some? && o.error.value.TypeError?
  {
    if |args| < 2 then Outcome(env, [], Some(ListIndexError))
    else
      match ArgStrings(ContainerArgv(args))
      case Err(e) => Outcome(env, [], Some(e))
      case Ok(argv) =>
        assert ContainerArgv(args)[4] == args[0];
        Outcome(env, [Ran(argv)], CreateContainerError(argv[4], argv[|argv| - 1], host.run(argv)))
  }

  /** With string arguments, create-container runs `docker run` with the name, the extra arguments and the image. */
  lemma CreateContainerRuns(name: string, image: string, extra: seq<string>, env: map<string, string>, host: Host)
    ensures CreateContainerHook(StrValues([name, image] + extra), env, host).actions == [Ran(Docker.ContainerArgs(image, name, extra))]
  {
    ContainerArgvStrings(name, image, extra);
  }

  /** A failed `docker run` names the container, the image, stderr and the exit code. */
  lemma CreateContainerFailure(name: string, image: string, extra: seq<string>, env: map<string, string>, host: Host)
    requires !host.run(Docker.ContainerArgs(image, name, extra)).IsHealthy()
    ensures CreateContainerHook(StrValues([name, image] + extra), env, host).error == Some(CommandError(
      "Failed to create Docker container " + name + " from image " + image + " with error: "
      + host.run(Docker.ContainerArgs(image, name, extra)).stderr + " and exit code: "
      + IntToString(host.run(Docker.ContainerArgs(image, name, extra)).exitCode)))
  {
    ContainerArgvStrings(name, image, extra);
    Docker.ContainerArgsLayout(image, name, extra);
  }

  // ---------------------------------------------------------------------
  // run-build-tool

  /** An entry of `_tool_args`: a named argument and whether it is required. */
  datatype NamedArg = NamedArg(name: string, required: bool)

  /** `tool in self._tool_args` (the getters have the same keys). */
  predicate KnownTool(tool: string) {
    tool == "maven" || tool == "npm"
  }

  /** `_register_tools`: maven requires `goals` and takes optional `arguments`; npm requires `arguments`. */
  function ToolArgs(tool: string): seq<NamedArg>
    requires KnownTool(tool)
  {
    if tool == "maven" then [NamedArg("goals", true), NamedArg("arguments", false)] else [NamedArg("arguments", true)]
  }

  /** `_validate_named_args`: the first required argument that is missing or falsy. */
  function ValidateNamed(defs: seq<NamedArg>, named: seq<Entry>): (e: Option<Error>)
    ensures e.None? <==> forall i :: 0 <= i < |defs| && defs[i].required ==> Truthy(Lookup(named, defs[i].name))
    ensures e.Some? ==> exists i :: 0 <= i < |defs| && defs[i].required && e.value == CommandError("Named argument " + defs[i].name + " not provided")
    decreases |defs|
  {
    if defs == [] then None
    else if !Truthy(Lookup(named, defs[0].name)) && defs[0].required then Some(CommandError("Named argument " + defs[0].name + " not provided"))
    else
      var rest := ValidateNamed(defs[1..], named);
      assert forall i :: 1 <= i < |defs| ==> defs[i] == defs[1..][i - 1];
      rest
  }

  /** `list.extend(v)`: what iterating `v` yields. */
  function Extended(v: Result<Value>): Result<seq<Value>> {
    match v
    case Err(e) => Err(e)
    case Ok(x) => Iterate(x)
  }

  /** The position of the first non-string, or the length when there is none. */
  function FirstNonStr(vs: seq<Value>): (k: nat)
    ensures k <= |vs|
    ensures forall i :: 0 <= i < k ==> vs[i].Str?
    ensures k < |vs| ==> !vs[k].Str?
  {
    if vs == [] || !vs[0].Str? then 0 else 1 + FirstNonStr(vs[1..])
  }

  /**
   * `' '.join(argv)` inside `Execution`: every element must be a string, and
   * the first one that is not is named, by position and type, in a TypeError.
   */
  function ArgStrings(vs: seq<Value>): (r: Result<seq<string>>)
    ensures r.Ok? <==> forall i :: 0 <= i < |vs| ==> vs[i].Str?
    ensures r.Ok? ==> |r.value| == |vs| && forall i :: 0 <= i < |vs| ==> vs[i] == Str(r.value[i])
    ensures r.Err? ==>
      exists k :: 0 <= k < |vs| && !vs[k].Str? && (forall i :: 0 <= i < k ==> vs[i].Str?) &&
        r.error == TypeError("sequence item " + IntToString(k) + ": expected str instance, " + TypeName(vs[k]) + " found")
  {
    var k := FirstNonStr(vs);
    if k < |vs| then Err(TypeError("sequence item " + IntToString(k) + ": expected str instance, " + TypeName(vs[k]) + " found"))
    else Ok(seq(|vs|, i requires 0 <= i < |vs| => vs[i].s))
  }

  /** `_get_maven_args(named)`: `mvn`, the arguments when truthy, then the goals. */
  function MavenArgs(named: seq<Entry>): Result<seq<Value>> {
    var arguments := Lookup(named, "arguments");
    var pre := if Truthy(arguments) then Iterate(arguments) else Ok([]);
    match pre
    case Err(e) => Err(e)
    case Ok(a) =>
      match Extended(Index(Dict(named), "goals"))
      case Err(e) => Err(e)
      case Ok(g) => Ok([Str("mvn")] + a + g)
  }

  /** `_get_npm_args(named)`: `npm`, then the arguments. */
  function NpmArgs(named: seq<Entry>): Result<seq<Value>> {
    match Extended(Index(Dict(named), "arguments"))
    case Err(e) => Err(e)
    case Ok(a) => Ok([Str("npm")] + a)
  }

  /**
   * The command line `run-build-tool` runs for a supported tool, given what
   * `self.build_context.current_step.named` evaluates to.
   */
  function ToolCommand(tool: string, named: Result<Value>): Result<seq<string>>
    requires KnownTool(tool)
  {
    match named
    case Err(e) => Err(e)
    case Ok(v) =>
      if !v.Dict? then Err(AttributeError("'" + TypeName(v) + "' object has no attribute 'get'"))
      else
        match ValidateNamed(ToolArgs(tool), v.entries)
        case Some(e) => Err(e)
        case None =>
          match (if tool == "maven" then MavenArgs(v.entries) else NpmArgs(v.entries))
          case Err(e) => Err(e)
          case Ok(argv) => ArgStrings(argv)
  }

  /**
   * `RunBuildCommand._execute`: the tool is looked up in a dict, so a list or
   * mapping is unhashable, and anything else that is not a known tool's name
   * is unsupported.
   */
  function RunBuildHook(name: string, args: seq<Value>, env: map<string, string>, host: Host, named: Result<Value>): Outcome {
    if |args| < 1 then Outcome(env, [], Some(ListIndexError))
    else if args[0].List? || args[0].Dict? then Outcome(env, [], Some(TypeError("unhashable type: '" + TypeName(args[0]) + "'")))
    else if !(args[0].Str? && KnownTool(args[0].s)) then
      Outcome(env, [], Some(CommandError("Build tool " + Display(args[0]) + " not currently supported by the " + name + " command")))
    else
      match ToolCommand(args[0].s, named)
      case Err(e) => Outcome(env, [], Some(e))
      case Ok(argv) => Outcome(env, [Ran(argv)], ErrorOf(HandleOutput(host.run(argv), argv, "Run " + args[0].s + " build")))
  }

  /** An unknown tool, string or not, is rejected before the build context is consulted. */
  lemma UnknownToolIgnoresContext(name: string, args: seq<Value>, env: map<string, string>, host: Host, n1: Result<Value>, n2: Result<Value>)
    requires |args| >= 1 && !(args[0].Str? && KnownTool(args[0].s))
    ensures RunBuildHook(name, args, env, host, n1) == RunBuildHook(name, args, env, host, n2)
    ensures !(args[0].List? || args[0].Dict?) ==>
      RunBuildHook(name, args, env, host, n1).error == Some(CommandError("Build tool " + Display(args[0]) + " not currently supported by the " + name + " command"))
    ensures args[0].List? || args[0].Dict? ==> RunBuildHook(name, args, env, host, n1).error.value.TypeError?
    ensures RunBuildHook(name, args, env, host, n1).actions == []
  {
  }

  /** Maven runs `mvn`, the arguments, then the goals. */
  lemma MavenCommandLine(arguments: seq<string>, goals: seq<string>)
    requires goals != []
    ensures ToolCommand("maven", Ok(Dict([Entry("goals", List(StrValues(goals))), Entry("arguments", List(StrValues(arguments)))])))
      == Ok(["mvn"] + arguments + goals)
  {
    var named := [Entry("goals", List(StrValues(goals))), Entry("arguments", List(StrValues(arguments)))];
    assert ValidateNamed(ToolArgs("maven"), named).None?;
    var argv := [Str("mvn")] + StrValues(arguments) + StrValues(goals);
    assert MavenArgs(named) == Ok(argv) by {
      assert Lookup(named, "arguments") == List(StrValues(arguments));
      assert Index(Dict(named), "goals") == Ok(List(StrValues(goals)));
    }
    assert argv == StrValues(["mvn"] + arguments + goals);
    StrValuesRoundTrip(["mvn"] + arguments + goals);
  }

  /** A missing or empty required named argument is reported by name. */
  lemma MissingGoals(named: seq<Entry>)
    requires !Truthy(Lookup(named, "goals"))
    ensures ToolCommand("maven", Ok(Dict(named))) == Err(CommandError("Named argument goals not provided"))
  {
    var defs := ToolArgs("maven");
    assert defs[0] == NamedArg("goals", true);
    assert ValidateNamed(defs, named) == Some(CommandError("Named argument " + "goals" + " not provided"));
  }

  /** npm runs `npm` followed by the arguments. */
  lemma NpmCommandLine(arguments: seq<string>)
    requires arguments != []
    ensures ToolCommand("npm", Ok(Dict([Entry("arguments", List(StrValues(arguments)))]))) == Ok(["npm"] + arguments)
  {
    var named := [Entry("arguments", List(StrValues(arguments)))];
    assert ValidateNamed(ToolArgs("npm"), named).None?;
    assert NpmArgs(named) == Ok([Str("npm")] + StrValues(arguments));
    assert [Str("npm")] + StrValues(arguments) == StrValues(["npm"] + arguments);
    StrValuesRoundTrip(["npm"] + arguments);
  }

  /** Strings as YAML values. */
  function StrValues(ss: seq<string>): (vs: seq<Value>)
    ensures |vs| == |ss| && forall i :: 0 <= i < |ss| ==> vs[i] == Str(ss[i])
  {
    seq(|ss|, i requires 0 <= i < |ss| => Str(ss[i]))
  }

  lemma StrValuesRoundTrip(ss: seq<string>)
    ensures ArgStrings(StrValues(ss)) == Ok(ss)
  {
    var r := ArgStrings(StrValues(ss));
    assert r.Ok?;
    assert r.value == ss;
  }

  // ---------------------------------------------------------------------
  // Dispatch and registration

  /** What the command's `_execute` hook does with the (already counted) arguments. */
  function Hook(c: Command, args: seq<Value>, given: Value, env: map<string, string>, host: Host, named: Result<Value>): Outcome {
    match c.hook
    case Copy => CopyHook(args, env, host)
    case ExecuteShell => ShellHook(args, given, env, host)
    case SetVariable(_) => SetVariableHook(args, env)
    case SetVariables => SetVariablesHook(args, env)
    case GitClone => GitCloneHook(args, env, host)
    case ScriptExecutor(interpreter) => ScriptHook(c.name, interpreter, args, env, host)
    case CreateContainer => CreateContainerHook(args, env, host)
    case RunBuild => RunBuildHook(c.name, args, env, host, named)
    case Custom(className, _) => Outcome(env, [CustomRan(className, given)], host.customHook(className, given))
  }

  /**
   * `command.execute(args)`: the count check, then the hook on the step's
   * argument values as they are; whatever the hook raises leaves as a
   * CommandError.
   */
  function Dispatch(c: Command, args: seq<Value>, given: Value, env: map<string, string>, host: Host, named: Result<Value>): (o: Outcome)
    ensures o.error.Some? ==> o.error.value.CommandError?
    ensures ValidateNumArgs(c, |args|).Some? ==> o == Outcome(env, [], ValidateNumArgs(c, |args|))
  {
    if ValidateNumArgs(c, |args|).Some? then Outcome(env, [], ValidateNumArgs(c, |args|))
    else
      var o := Hook(c, args, given, env, host, named);
      o.(error := Execute(c, |args|, o.error))
  }

  /**
   * Dispatching is `AbstractCommand.execute` around the hook: with an
   * acceptable count the hook's effects stay and its error is the one
   * `Execute` gives, and a hook error never goes unreported.
   */
  lemma DispatchIsExecute(c: Command, args: seq<Value>, given: Value, env: map<string, string>, host: Host, named: Result<Value>)
    ensures Dispatch(c, args, given, env, host, named).error == Execute(c, |args|, Hook(c, args, given, env, host, named).error)
    ensures ValidateNumArgs(c, |args|).None? ==> Dispatch(c, args, given, env, host, named).actions == Hook(c, args, given, env, host, named).actions
    ensures ValidateNumArgs(c, |args|).None? ==> Dispatch(c, args, given, env, host, named).env == Hook(c, args, given, env, host, named).env
    ensures Hook(c, args, given, env, host, named).error.Some? ==> Dispatch(c, args, given, env, host, named).error.Some?
  {
  }

  /**
   * `execute-shell` with a string as its `arguments` (`arguments: "echo hi"`)
   * runs that string as one command line, not its characters.
   */
  lemma ShellStringRunsWhole(line: string, env: map<string, string>, host: Host, named: Result<Value>)
    requires line != ""
    ensures var o := Dispatch(Command("execute-shell", 1, true, -1, ExecuteShell), Iterate(Str(line)).value, Str(line), env, host, named);
      o.env == env && o.actions == [Ran([line])] && (o.error.None? <==> host.run([line]).IsHealthy())
  {
    var c := Command("execute-shell", 1, true, -1, ExecuteShell);
    var args := Iterate(Str(line)).value;
    assert |args| == |line|;
    assert ValidateNumArgs(c, |args|).None?;
  }

  /** `set-variables` with a valid pair and then a non-string keeps the pair set and reports the missing `split` as an unknown error. */
  lemma DispatchSetVariablesNonString(env: map<string, string>, host: Host, named: Result<Value>,
                                      name: string, value: string, v: Value)
    requires '=' !in value && ' ' !in name && EnvironEntry(name, value)
    requires !v.Str?
    ensures var args := [Str(name + "=" + value), v];
      Dispatch(Command("set-variables", 1, true, -1, SetVariables), args, List(args), env, host, named)
      == Outcome(env[name := value], [], Some(CommandError("An unknown error was thrown executing command: " + ("'" + TypeName(v) + "' object has no attribute 'split'"))))
  {
    var c := Command("set-variables", 1, true, -1, SetVariables);
    var args := [Str(name + "=" + value), v];
    SetVariablesStopsAtNonString(env, name, value, v);
    assert ValidateNumArgs(c, |args|).None?;
    assert Hook(c, args, List(args), env, host, named) == SetVariablesHook(args, env);
  }

  /** `default_name()`: the built-in classes' own names; `set-variables` keeps the base class's. */
  function DefaultName(c: Command): string {
    match c.hook
    case Copy => "Copy Files"
    case ExecuteShell => "Execute System Command"
    case SetVariable(_) => "Set Variable"
    case SetVariables => UnnamedLabel
    case GitClone => "Git Clone"
    case ScriptExecutor(interpreter) => "Execute " + Capitalised(interpreter) + " script"
    case CreateContainer => "Create Docker Container"
    case RunBuild => "Run Build Tool"
    case Custom(_, nameOverride) => if nameOverride.Some? then nameOverride.value else UnnamedLabel
  }

  /** `SetVariableCommand(secret)`. */
  function SetVariableCommand(secret: bool): Command {
    Command(if secret then "set-secret" else "set-variable", 2, false, -1, SetVariable(secret))
  }

  /** `ScriptExecutorCommand(interpreter)`. */
  function ScriptExecutorCommand(interpreter: string): Command {
    Command("execute-" + interpreter, 1, true, -1, ScriptExecutor(interpreter))
  }

  /** The commands `register_builtins` creates, in the order it creates them. */
  function BuiltinCommands(): seq<Command> {
    [ SetVariableCommand(false),
      SetVariableCommand(true),
      ScriptExecutorCommand("groovy"),
      ScriptExecutorCommand("python"),
      Command("copy", 2, false, -1, Copy),
      Command("execute-shell", 1, true, -1, ExecuteShell),
      Command("set-variables", 1, true, -1, SetVariables),
      Command("git-clone", 1, true, 2, GitClone),
      Command("create-container", 2, true, -1, CreateContainer),
      Command("run-build-tool", 1, false, -1, RunBuild) ]
  }

  /** The ten built-ins have ten different names, so none replaces another. */
  lemma BuiltinNamesDistinct()
    ensures |BuiltinCommands()| == 10
    ensures forall i, j :: 0 <= i < j < 10 ==> BuiltinCommands()[i].name != BuiltinCommands()[j].name
  {
    var cs := BuiltinCommands();
    assert cs[2].name == "execute-groovy";
    assert cs[3].name == "execute-python";
    forall i, j | 0 <= i < j < 10
      ensures cs[i].name != cs[j].name
    {
      assert cs[i].name[..4] != cs[j].name[..4] || cs[i].name[|cs[i].name| - 1] != cs[j].name[|cs[j].name| - 1] || |cs[i].name| != |cs[j].name|;
    }
  }

  /** `register_builtins()`: each built-in is constructed, which registers it under its name. */
  method RegisterBuiltins(registry: CommandRegistry)
    modifies registry
    ensures forall c :: c in BuiltinCommands() ==> c.name in registry.commands && registry.commands[c.name] == c
    ensures forall n :: n in registry.commands <==> n in old(registry.commands) || exists c :: c in BuiltinCommands() && c.name == n
    ensures forall n :: n in old(registry.commands) && (forall c :: c in BuiltinCommands() ==> c.name != n) ==> registry.commands[n] == old(registry.commands)[n]
  {
    var cs := BuiltinCommands();
    BuiltinNamesDistinct();
    var i := 0;
    while i < |cs|
      invariant 0 <= i <= |cs|
      invariant forall k :: 0 <= k < i ==> cs[k].name in registry.commands && registry.commands[cs[k].name] == cs[k]
      invariant forall n :: n in registry.commands <==> n in old(registry.commands) || exists k :: 0 <= k < i && cs[k].name == n
      invariant forall n :: n in old(registry.commands) && (forall k :: 0 <= k < i ==> cs[k].name != n) ==> registry.commands[n] == old(registry.commands)[n]
    {
      var c := NewCommand(registry, cs[i].name, cs[i].numArgsRequired, cs[i].atLeast, cs[i].max, cs[i].hook);
      i := i + 1;
    }
  }
}
