/**
 * The builder (builder.py): copy the Dockerfile and the required files into
 * the temporary build directory, load the build's own custom commands,
 * change into the build directory, run the build steps, build the image, run
 * the post-build steps, and then tear the build context down, change back
 * and try to remove the build directory.
 *
 * What a build does to the world outside the process is recorded, in order,
 * as a trace of events; the rest of what it changes is the directory state,
 * the environment variables, the module search path and the command
 * registry. Every stage is a specification function on that state, and each
 * method of the `Builder` class is proved to change the state as its stage
 * says.
 */
module Builder {
  import opened Errors
  import opened Text
  import opened Values
  import opened Process
  import opened Commands
  import Models
  import Context
  import Workdir
  import Builtins
  import CustomCommands
  import Docker

  /** One externally visible effect of a build. */
  datatype Event =
    | Copied(source: string, destination: string)                 // `shutil.copy` into the build directory
    | StepStarted(index: nat, name: string, postStep: bool)       // "Executing build step i - name"
    | Acted(action: Builtins.Action)                              // what a step's command did
    | StepFailed(index: nat, name: string, message: string)       // "Failed to execute build step i - name ..."
    | ImageBuilt(tag: string, output: seq<string>)                // `docker build` succeeded; its output lines
    | ImageFailed(tag: string, stderr: string, exitCode: int)     // `docker build` failed
    | Cleaned                                                     // removal of the build directory attempted (an OSError is swallowed)

  /** The build as the builder reads it; a build changes none of it. */
  datatype Config = Config(snap: Models.Snapshot, postSteps: Option<seq<Models.Attrs>>, customCommands: Option<Value>)

  /**
   * What the builder consults outside the process: the host, the loader of
   * custom command files, the name of the temporary build directory, and the
   * exception, if any, that removing that directory raises.
   */
  datatype Surroundings = Surroundings(host: Host, loader: CustomCommands.Loader, buildDirectory: string, cleanupError: Option<Error>)

  /** The state a build changes. */
  datatype World = World(dirs: Workdir.Dirs, env: map<string, string>, loaded: CustomCommands.Loaded, events: seq<Event>)

  /** How `build()` ends: it returns whether the build succeeded, or an exception escapes it. */
  datatype BuildResult = Returned(succeeded: bool) | Raised(error: Error)

  /** Reading attribute `name` of an object of class `typeName`. */
  function Attr(attrs: Models.Attrs, name: string, typeName: string): (r: Result<Value>)
    ensures r.Ok? <==> name in attrs
    ensures r.Ok? ==> r.value == attrs[name]
  {
    if name in attrs then Ok(attrs[name])
    else Err(AttributeError("'" + typeName + "' object has no attribute '" + name + "'"))
  }

  // ---------------------------------------------------------------------
  // Copying files (builder.py:31-62)

  /** POSIX `os.path.join(a, b)`: an absolute `b` replaces `a`; otherwise a separator is added when `a` lacks one. */
  function PathJoin(a: string, b: string): string {
    if StartsWith(b, "/") then b
    else if a == "" || EndsWith(a, "/") then a + b
    else a + "/" + b
  }

  /** The joined path ends with `b`; a relative `b` follows `a` and exactly one separator. */
  lemma PathJoinParts(a: string, b: string)
    ensures EndsWith(PathJoin(a, b), b)
    ensures StartsWith(b, "/") ==> PathJoin(a, b) == b
    ensures !StartsWith(b, "/") ==> StartsWith(PathJoin(a, b), a)
    ensures !StartsWith(b, "/") && a != "" && !EndsWith(a, "/") ==> PathJoin(a, b)[|a|] == '/' && PathJoin(a, b)[|a| + 1..] == b
    ensures !StartsWith(b, "/") && (a == "" || EndsWith(a, "/")) ==> PathJoin(a, b)[|a|..] == b
  {
    var r := PathJoin(a, b);
    if !StartsWith(b, "/") {
      if a == "" || EndsWith(a, "/") {
        assert r[..|a|] == a && r[|a|..] == b;
      } else {
        assert r[..|a|] == a && r[|a| + 1..] == b;
      }
    }
  }

  /** The TypeError of `os.path.join` given something that is not a path. */
  function JoinTypeError(v: Value): Error {
    TypeError("join() argument must be str, bytes, or os.PathLike object, not '" + TypeName(v) + "'")
  }

  /**
   * The path `_copy_file` copies from: the file's path under the build's
   * library when `relative_to_library` is truthy, the path itself otherwise.
   */
  function SourcePath(props: Models.Attrs, file: Models.Attrs): Result<string> {
    match Attr(file, "relative_to_library", "File")
    case Err(e) => Err(e)
    case Ok(relative) =>
      match Attr(file, "path", "File")
      case Err(e) => Err(e)
      case Ok(path) =>
        if Truthy(relative) then
          match Attr(props, "library", "DockerBuild")
          case Err(e) => Err(e)
          case Ok(library) =>
            if !library.Str? then Err(JoinTypeError(library))
            else if !path.Str? then Err(JoinTypeError(path))
            else Ok(PathJoin(library.s, path.s))
        else if path.Str? then Ok(path.s)
        else Err(TypeError("expected str, bytes or os.PathLike object, not " + TypeName(path)))
  }

  /** Library-relative files are looked up under the library; the others are taken as they are. */
  lemma CopySourceRules(props: Models.Attrs, file: Models.Attrs)
    requires "relative_to_library" in file && "path" in file && file["path"].Str?
    ensures !Truthy(file["relative_to_library"]) ==> SourcePath(props, file) == Ok(file["path"].s)
    ensures Truthy(file["relative_to_library"]) && "library" in props && props["library"].Str? ==>
      SourcePath(props, file) == Ok(PathJoin(props["library"].s, file["path"].s))
    ensures Truthy(file["relative_to_library"]) && "library" in props && !props["library"].Str? ==>
      SourcePath(props, file) == Err(JoinTypeError(props["library"]))
  {
  }

  /** `_copy_file(file)`: copy the file into the build directory. */
  function CopyOne(props: Models.Attrs, file: Models.Attrs, w: World, s: Surroundings): (World, Option<Error>) {
    match SourcePath(props, file)
    case Err(e) => (w, Some(e))
    case Ok(source) =>
      match s.host.copyFile(source, s.buildDirectory)
      case Some(e) => (w, Some(e))
      case None => (w.(events := w.events + [Copied(source, s.buildDirectory)]), None)
  }

  /** Copy each file in turn; the first exception stops the copying. */
  function CopyAll(props: Models.Attrs, files: seq<Models.Attrs>, w: World, s: Surroundings): (World, Option<Error>)
    decreases |files|
  {
    if files == [] then (w, None)
    else
      var (next, e) := CopyOne(props, files[0], w, s);
      if e.Some? then (next, e) else CopyAll(props, files[1..], next, s)
  }

  /** `_copy_files()`: the Dockerfile first, then the required files in their order. */
  function CopySpec(cfg: Config, w: World, s: Surroundings): (World, Option<Error>) {
    CopyAll(cfg.snap.props, [cfg.snap.dockerfile] + cfg.snap.files, w, s)
  }

  /**
   * When copying succeeds, every file had a source and was copied, in order,
   * and nothing but the trace changed.
   */
  lemma {:induction false} CopiesInOrder(props: Models.Attrs, files: seq<Models.Attrs>, w: World, s: Surroundings)
    requires CopyAll(props, files, w, s).1.None?
    ensures forall i :: 0 <= i < |files| ==> SourcePath(props, files[i]).Ok?
    ensures CopyAll(props, files, w, s).0.(events := w.events) == w
    ensures |CopyAll(props, files, w, s).0.events| == |w.events| + |files|
    ensures CopyAll(props, files, w, s).0.events[..|w.events|] == w.events
    ensures forall i :: 0 <= i < |files| ==>
      CopyAll(props, files, w, s).0.events[|w.events| + i] == Copied(SourcePath(props, files[i]).value, s.buildDirectory)
    decreases |files|
  {
    if files != [] {
      var next := CopyOne(props, files[0], w, s).0;
      CopiesInOrder(props, files[1..], next, s);
      var r := CopyAll(props, files, w, s).0;
      assert r == CopyAll(props, files[1..], next, s).0;
      assert next.events == w.events + [Copied(SourcePath(props, files[0]).value, s.buildDirectory)];
      forall i | 0 <= i < |files|
        ensures SourcePath(props, files[i]).Ok?
        ensures r.events[|w.events| + i] == Copied(SourcePath(props, files[i]).value, s.buildDirectory)
      {
        if i > 0 {
          assert files[i] == files[1..][i - 1];
          assert r.events[|w.events| + i] == r.events[|next.events| + (i - 1)];
        } else {
          assert r.events[..|next.events|] == next.events;
          assert r.events[|w.events|] == r.events[..|next.events|][|w.events|];
        }
      }
      assert r.events[..|w.events|] == r.events[..|next.events|][..|w.events|];
    }
  }

  /** Successful copying adds one event per file: the Dockerfile and the required files. */
  lemma CopyLength(cfg: Config, w: World, s: Surroundings)
    requires CopySpec(cfg, w, s).1.None?
    ensures |CopySpec(cfg, w, s).0.events| == |w.events| + 1 + |cfg.snap.files|
  {
    CopiesInOrder(cfg.snap.props, [cfg.snap.dockerfile] + cfg.snap.files, w, s);
  }

  /** Every event a successful copying adds is a copy. */
  predicate AllCopies(es: seq<Event>) {
    forall i :: 0 <= i < |es| ==> es[i].Copied?
  }

  /** Copying adds only copies to the trace, successful or not, and changes nothing else. */
  lemma {:induction false} CopyAddsCopies(props: Models.Attrs, files: seq<Models.Attrs>, w: World, s: Surroundings)
    ensures CopyAll(props, files, w, s).0.(events := w.events) == w
    ensures |CopyAll(props, files, w, s).0.events| >= |w.events|
    ensures CopyAll(props, files, w, s).0.events[..|w.events|] == w.events
    ensures AllCopies(CopyAll(props, files, w, s).0.events[|w.events|..])
    decreases |files|
  {
    if files != [] {
      var (next, e) := CopyOne(props, files[0], w, s);
      if e.None? {
        CopyAddsCopies(props, files[1..], next, s);
        var r := CopyAll(props, files[1..], next, s).0.events;
        assert r[..|w.events|] == r[..|next.events|][..|w.events|];
        assert r[|w.events|..] == [r[|w.events|]] + r[|next.events|..];
        assert r[|w.events|] == r[..|next.events|][|w.events|];
      } else {
        assert next.events[|w.events|..] == [];
      }
    }
  }

  // ---------------------------------------------------------------------
  // Custom commands (builder.py:135-141)

  /** `_setup_custom_commands()`: load the build's custom commands file when it names one. */
  function CustomSpec(cfg: Config, w: World, s: Surroundings): (World, Option<Error>) {
    match cfg.customCommands
    case None => (w, Some(AttributeError("'DockerBuild' object has no attribute 'custom_commands'")))
    case Some(path) =>
      if !Truthy(path) then (w, None)
      else
        var (dirs, loaded, e) := CustomCommands.ChangeAndLoadSpec(path, w.dirs, w.loaded, s.loader);
        (w.(dirs := dirs, loaded := loaded), e)
  }

  // ---------------------------------------------------------------------
  // Build steps (builder.py:64-103)

  /**
   * `registry.get_command(command)`: the registered command; ValueError for
   * a missing name, TypeError for a value a dictionary cannot hash.
   */
  function Resolve(commands: map<string, Command>, command: Value): (r: Result<Command>)
    ensures r.Ok? <==> command.Str? && command.s in commands
    ensures r.Ok? ==> r.value == commands[command.s]
    ensures r.Err? && (command.List? || command.Dict?) ==> r.error == TypeError("unhashable type: '" + TypeName(command) + "'")
    ensures r.Err? && !(command.List? || command.Dict?) ==> r.error.ValueError?
  {
    match command
    case Str(name) => if name in commands then Ok(commands[name]) else Err(ValueError(name))
    case List(_) => Err(TypeError("unhashable type: '" + TypeName(command) + "'"))
    case Dict(_) => Err(TypeError("unhashable type: '" + TypeName(command) + "'"))
    case _ => Err(ValueError(Display(command)))
  }

  /** The exception a step naming no registered command raises. */
  function UnknownCommand(command: Value, index: nat): Error {
    BuildConfigurationError("Unknown command " + Display(command) + " in configuration build step " + NatToString(index))
  }

  /** The name a running step is announced by: its own when truthy, the command's default otherwise. */
  function ShownName(c: Command, name: Value): string {
    if Truthy(name) then Display(name) else Builtins.DefaultName(c)
  }

  /** `current_step.named`, which the run-build-tool command reads. */
  function Named(step: Models.Attrs): Result<Value> {
    Attr(step, "named", "BuildStep")
  }

  function Acts(actions: seq<Builtins.Action>): (es: seq<Event>)
    ensures |es| == |actions| && forall i :: 0 <= i < |actions| ==> es[i] == Acted(actions[i])
  {
    seq(|actions|, i requires 0 <= i < |actions| => Acted(actions[i]))
  }

  /** What one step does: the environment it leaves, the events it adds, and the exception it raises. */
  datatype StepOutcome = StepOutcome(env: map<string, string>, added: seq<Event>, error: Option<Error>)

  /**
   * `_execute_step(index, step, post_step)` once the command is found:
   * announce the step, execute the command on the step's arguments, and turn
   * a CommandError into BuildFailedError.
   */
  function RunCommand(c: Command, step: Models.Attrs, name: Value, arguments: Value, index: nat, post: bool,
                      env: map<string, string>, host: Host): StepOutcome {
    var started := [StepStarted(index, ShownName(c, name), post)];
    match Iterate(arguments)
    case Err(_) => StepOutcome(env, started, Some(TypeError("object of type '" + TypeName(arguments) + "' has no len()")))
    case Ok(args) =>
      var o := Builtins.Dispatch(c, args, arguments, env, host, Named(step));
      if o.error.None? then StepOutcome(o.env, started + Acts(o.actions), None)
      else StepOutcome(o.env, started + Acts(o.actions) + [StepFailed(index, Display(name), o.error.value.message)], Some(BuildFailedError))
  }

  /** `_execute_step(index, step, post_step)` on the environment and the registered commands. */
  function StepRun(step: Models.Attrs, index: nat, post: bool, env: map<string, string>, commands: map<string, Command>, host: Host): StepOutcome {
    match Attr(step, "name", "BuildStep")
    case Err(e) => StepOutcome(env, [], Some(e))
    case Ok(name) =>
      match Attr(step, "command", "BuildStep")
      case Err(e) => StepOutcome(env, [], Some(e))
      case Ok(command) =>
        match Attr(step, "arguments", "BuildStep")
        case Err(e) => StepOutcome(env, [], Some(e))
        case Ok(arguments) =>
          match Resolve(commands, command)
          case Err(e) => StepOutcome(env, [], Some(if e.ValueError? then UnknownCommand(command, index) else e))
          case Ok(c) => RunCommand(c, step, name, arguments, index, post, env, host)
  }

  /** `_execute_step(index, step, post_step)` on the state of a build. */
  function StepSpec(step: Models.Attrs, index: nat, post: bool, w: World, s: Surroundings): (World, Option<Error>) {
    var o := StepRun(step, index, post, w.env, w.loaded.commands, s.host);
    (w.(env := o.env, events := w.events + o.added), o.error)
  }

  /** A step as a function of the step's attributes, its number, whether it is a post-build step, and the state. */
  type StepFn = (Models.Attrs, nat, bool, World) -> (World, Option<Error>)

  /** `_execute_step` with the builder's surroundings. */
  function Stepper(s: Surroundings): StepFn {
    (step: Models.Attrs, index: nat, post: bool, w: World) => StepSpec(step, index, post, w, s)
  }

  /**
   * The loop of `_execute_steps`: steps numbered from `first`, each followed
   * by a change into the build directory `dir` that is not stored; the first
   * exception stops it.
   */
  function RunSteps(step: StepFn, dir: string, steps: seq<Models.Attrs>, first: nat, post: bool, w: World): (World, Option<Error>)
    decreases |steps|
  {
    if steps == [] then (w, None)
    else
      var (next, e) := step(steps[0], first, post, w);
      if e.Some? then (next, e)
      else RunSteps(step, dir, steps[1..], first + 1, post, next.(dirs := Workdir.Changed(next.dirs, dir, true)))
  }

  /** `_execute_steps(post_steps)`: the build steps, or the post-build steps, numbered from 1. */
  function StepsSpec(step: StepFn, cfg: Config, post: bool, w: World, s: Surroundings): (World, Option<Error>) {
    if !post then RunSteps(step, s.buildDirectory, cfg.snap.steps, 1, false, w)
    else
      match cfg.postSteps
      case None => (w, Some(AttributeError("'DockerBuild' object has no attribute 'post_steps'")))
      case Some(steps) => RunSteps(step, s.buildDirectory, steps, 1, true, w)
  }

  /** A registered command is announced first, by the step's name, or by the command's default name when that is falsy. */
  lemma StepAnnounced(step: Models.Attrs, index: nat, post: bool, env: map<string, string>, commands: map<string, Command>, host: Host)
    requires "name" in step && "command" in step && "arguments" in step
    requires step["command"].Str? && step["command"].s in commands
    ensures var added := StepRun(step, index, post, env, commands, host).added;
      |added| > 0 &&
      added[0] == StepStarted(index, if Truthy(step["name"]) then Display(step["name"]) else Builtins.DefaultName(commands[step["command"].s]), post)
  {
  }

  /** A step naming an unregistered command raises BuildConfigurationError and does nothing. */
  lemma UnknownCommandRejected(step: Models.Attrs, index: nat, post: bool, env: map<string, string>, commands: map<string, Command>, host: Host)
    requires "name" in step && "command" in step && "arguments" in step
    requires step["command"].Str? && step["command"].s !in commands
    ensures StepRun(step, index, post, env, commands, host) ==
      StepOutcome(env, [], Some(BuildConfigurationError("Unknown command " + step["command"].s + " in configuration build step " + NatToString(index))))
  {
  }

  /** A step whose command cannot be a dictionary key lets the TypeError escape instead. */
  lemma UnhashableCommandEscapes(step: Models.Attrs, index: nat, post: bool, env: map<string, string>, commands: map<string, Command>, host: Host)
    requires "name" in step && "command" in step && "arguments" in step
    requires step["command"].List? || step["command"].Dict?
    ensures StepRun(step, index, post, env, commands, host) == StepOutcome(env, [], Some(TypeError("unhashable type: '" + TypeName(step["command"]) + "'")))
  {
  }

  /**
   * A failing command fails the build: the step ends by recording the
   * command's message under the step's own name and raises BuildFailedError.
   */
  lemma CommandErrorFailsBuild(step: Models.Attrs, index: nat, post: bool, env: map<string, string>, commands: map<string, Command>, host: Host)
    requires "name" in step && "command" in step && "arguments" in step
    requires step["command"].Str? && step["command"].s in commands
    requires Iterate(step["arguments"]).Ok?
    requires Builtins.Dispatch(commands[step["command"].s], Iterate(step["arguments"]).value, step["arguments"], env, host, Named(step)).error.Some?
    ensures StepRun(step, index, post, env, commands, host).error == Some(BuildFailedError)
    ensures var added := StepRun(step, index, post, env, commands, host).added;
      |added| > 0 &&
      added[|added| - 1] == StepFailed(index, Display(step["name"]),
        Builtins.Dispatch(commands[step["command"].s], Iterate(step["arguments"]).value, step["arguments"], env, host, Named(step)).error.value.message)
  {
  }

  /** Events a run of steps may add: announcements flagged `post`, what the commands did, and failures. */
  predicate StepEventsOnly(es: seq<Event>, post: bool) {
    forall i :: 0 <= i < |es| ==>
      (es[i].StepStarted? && es[i].postStep == post) || es[i].Acted? || es[i].StepFailed?
  }

  /** No step failed. */
  predicate NoFailure(es: seq<Event>) {
    forall i :: 0 <= i < |es| ==> !es[i].StepFailed?
  }

  lemma StepEventsConcat(a: seq<Event>, b: seq<Event>, post: bool)
    requires StepEventsOnly(a, post) && StepEventsOnly(b, post)
    ensures StepEventsOnly(a + b, post)
    ensures NoFailure(a) && NoFailure(b) ==> NoFailure(a + b)
  {
    forall i | |a| <= i < |a + b|
      ensures (a + b)[i] == b[i - |a|]
    {
    }
  }

  /**
   * A step adds only step events, reports a failure exactly when a command
   * it ran failed, and never lets a CommandError escape.
   */
  lemma StepShape(step: Models.Attrs, index: nat, post: bool, env: map<string, string>, commands: map<string, Command>, host: Host)
    ensures var o := StepRun(step, index, post, env, commands, host);
      StepEventsOnly(o.added, post) &&
      (o.error.None? ==> NoFailure(o.added)) &&
      (o.error.Some? ==> !o.error.value.CommandError?) &&
      (o.error == Some(BuildFailedError) ==> |o.added| > 0 && o.added[|o.added| - 1].StepFailed?)
  {
    var o := StepRun(step, index, post, env, commands, host);
    if "name" in step && "command" in step && "arguments" in step && Resolve(commands, step["command"]).Ok? && Iterate(step["arguments"]).Ok? {
      var c := Resolve(commands, step["command"]).value;
      var d := Builtins.Dispatch(c, Iterate(step["arguments"]).value, step["arguments"], env, host, Named(step));
      var started := [StepStarted(index, ShownName(c, step["name"]), post)];
      StepEventsConcat(started, Acts(d.actions), post);
      if d.error.Some? {
        StepEventsConcat(started + Acts(d.actions), [StepFailed(index, Display(step["name"]), d.error.value.message)], post);
      }
    }
  }

  /** What one step may do to the state: add step events, and nothing else but the environment. */
  predicate StepEffect(w: World, r: World, e: Option<Error>, post: bool) {
    r.dirs == w.dirs && r.loaded == w.loaded &&
    |r.events| >= |w.events| && r.events[..|w.events|] == w.events &&
    StepEventsOnly(r.events[|w.events|..], post) &&
    (e.None? ==> NoFailure(r.events[|w.events|..])) &&
    (e.Some? ==> !e.value.CommandError?) &&
    (e == Some(BuildFailedError) ==> |r.events| > |w.events| && r.events[|r.events| - 1].StepFailed?)
  }

  /** Every call of `step` has that effect. */
  ghost predicate WellBehaved(step: StepFn, post: bool) {
    forall a, i, x :: StepEffect(x, step(a, i, post, x).0, step(a, i, post, x).1, post)
  }

  /** `_execute_step` is well behaved. */
  lemma StepperWellBehaved(s: Surroundings, post: bool)
    ensures WellBehaved(Stepper(s), post)
  {
    forall a, i, x
      ensures StepEffect(x, Stepper(s)(a, i, post, x).0, Stepper(s)(a, i, post, x).1, post)
    {
      var (r, e) := StepSpec(a, i, post, x, s);
      StepShape(a, i, post, x.env, x.loaded.commands, s.host);
      assert r.events[..|x.events|] == x.events;
      assert r.events[|x.events|..] == StepRun(a, i, post, x.env, x.loaded.commands, s.host).added;
    }
  }

  /**
   * A run of well-behaved steps keeps the stored directories, adds only step
   * events, reports a failure only when it stops with one, and ends in `dir`
   * when it ran at least one step to completion.
   */
  lemma {:induction false} RunStepsShape(step: StepFn, dir: string, steps: seq<Models.Attrs>, first: nat, post: bool, w: World)
    requires WellBehaved(step, post)
    ensures var (r, e) := RunSteps(step, dir, steps, first, post, w);
      r.dirs.previous == w.dirs.previous && r.loaded == w.loaded &&
      (e.None? && steps != [] ==> r.dirs.cwd == dir) &&
      (e.None? && steps == [] ==> r.dirs == w.dirs) &&
      |r.events| >= |w.events| && r.events[..|w.events|] == w.events &&
      StepEventsOnly(r.events[|w.events|..], post) &&
      (e.None? ==> NoFailure(r.events[|w.events|..])) &&
      (e.Some? ==> !e.value.CommandError?) &&
      (e == Some(BuildFailedError) ==> |r.events| > |w.events| && r.events[|r.events| - 1].StepFailed?)
    decreases |steps|
  {
    if steps != [] {
      var (next, e) := step(steps[0], first, post, w);
      assert StepEffect(w, next, e, post);
      if e.None? {
        var moved := next.(dirs := Workdir.Changed(next.dirs, dir, true));
        RunStepsShape(step, dir, steps[1..], first + 1, post, moved);
        var r := RunSteps(step, dir, steps[1..], first + 1, post, moved).0;
        assert r.events[..|w.events|] == r.events[..|next.events|][..|w.events|];
        assert r.events[|w.events|..] == next.events[|w.events|..] + r.events[|next.events|..];
        StepEventsConcat(next.events[|w.events|..], r.events[|next.events|..], post);
      }
    }
  }

  /** The same for the steps of a build, run in its build directory. */
  lemma StepsShape(steps: seq<Models.Attrs>, first: nat, post: bool, w: World, s: Surroundings)
    ensures var (r, e) := RunSteps(Stepper(s), s.buildDirectory, steps, first, post, w);
      r.dirs.previous == w.dirs.previous && r.loaded == w.loaded &&
      (e.None? && steps != [] ==> r.dirs.cwd == s.buildDirectory) &&
      (e.None? && steps == [] ==> r.dirs == w.dirs) &&
      |r.events| >= |w.events| && r.events[..|w.events|] == w.events &&
      StepEventsOnly(r.events[|w.events|..], post) &&
      (e.None? ==> NoFailure(r.events[|w.events|..])) &&
      (e.Some? ==> !e.value.CommandError?) &&
      (e == Some(BuildFailedError) ==> |r.events| > |w.events| && r.events[|r.events| - 1].StepFailed?)
  {
    StepperWellBehaved(s, post);
    RunStepsShape(Stepper(s), s.buildDirectory, steps, first, post, w);
  }

  // ---------------------------------------------------------------------
  // Which steps are announced, and in what order (builder.py:79-81, 101-102)

  /** The step announcements of a trace, in order. */
  function Announced(es: seq<Event>): seq<Event> {
    if es == [] then [] else (if es[0].StepStarted? then [es[0]] else []) + Announced(es[1..])
  }

  lemma {:induction false} AnnouncedConcat(a: seq<Event>, b: seq<Event>)
    ensures Announced(a + b) == Announced(a) + Announced(b)
    decreases |a|
  {
    if a == [] {
      assert a + b == b;
    } else {
      assert (a + b)[1..] == a[1..] + b;
      AnnouncedConcat(a[1..], b);
    }
  }

  /**
   * How a step that runs is announced: its number, the name it is shown by,
   * and whether it is a post-build step. A step without a registered command
   * raises before it is announced, so its shown name here is arbitrary.
   */
  function Announcement(step: Models.Attrs, index: nat, post: bool, commands: map<string, Command>): Event {
    if "name" in step && "command" in step && step["command"].Str? && step["command"].s in commands then
      StepStarted(index, ShownName(commands[step["command"].s], step["name"]), post)
    else StepStarted(index, "", post)
  }

  /** A trace extended twice: its announcements are those of the first extension, then of the second. */
  lemma AnnouncedAcross(w: seq<Event>, n: seq<Event>, r: seq<Event>)
    requires |n| >= |w| && n[..|w|] == w && |r| >= |n| && r[..|n|] == n
    ensures r[..|w|] == w
    ensures Announced(r[|w|..]) == Announced(n[|w|..]) + Announced(r[|n|..])
  {
    assert r[..|w|] == r[..|n|][..|w|];
    assert r[|w|..] == n[|w|..] + r[|n|..];
    AnnouncedConcat(n[|w|..], r[|n|..]);
  }

  /** The announcements of `steps` run one after the other, numbered from `first`. */
  function Announcements(steps: seq<Models.Attrs>, first: nat, post: bool, commands: map<string, Command>): (r: seq<Event>)
    ensures |r| == |steps|
    ensures forall k :: 0 <= k < |steps| ==> r[k] == Announcement(steps[k], first + k, post, commands)
  {
    seq(|steps|, k requires 0 <= k < |steps| => Announcement(steps[k], first + k, post, commands))
  }

  lemma AnnouncementsCons(steps: seq<Models.Attrs>, first: nat, post: bool, commands: map<string, Command>)
    requires steps != []
    ensures Announcements(steps, first, post, commands)
      == [Announcement(steps[0], first, post, commands)] + Announcements(steps[1..], first + 1, post, commands)
  {
  }

  /** What a command does is never an announcement. */
  lemma {:induction false} AnnouncedActs(actions: seq<Builtins.Action>)
    ensures Announced(Acts(actions)) == []
    decreases |actions|
  {
    if actions != [] {
      assert Acts(actions)[1..] == Acts(actions[1..]);
      AnnouncedActs(actions[1..]);
    }
  }

  /** A step that succeeds is announced exactly once, by its number and shown name. */
  lemma StepAnnouncedOnce(step: Models.Attrs, index: nat, post: bool, env: map<string, string>, commands: map<string, Command>, host: Host)
    requires StepRun(step, index, post, env, commands, host).error.None?
    ensures Announced(StepRun(step, index, post, env, commands, host).added) == [Announcement(step, index, post, commands)]
  {
    var c := commands[step["command"].s];
    var d := Builtins.Dispatch(c, Iterate(step["arguments"]).value, step["arguments"], env, host, Named(step));
    AnnouncedActs(d.actions);
    AnnouncedConcat([StepStarted(index, ShownName(c, step["name"]), post)], Acts(d.actions));
  }

  /**
   * Every call of `step` that succeeds keeps the registered commands, extends
   * the trace, and announces exactly that step with those commands.
   */
  ghost predicate WellAnnounced(step: StepFn, post: bool) {
    forall a, i, x :: step(a, i, post, x).1.None? ==> Announces(x, step(a, i, post, x).0, Announcement(a, i, post, x.loaded.commands))
  }

  /** From `w` to `r` the commands stay, the trace is extended, and the extension announces exactly `started`. */
  predicate Announces(w: World, r: World, started: Event) {
    r.loaded == w.loaded && |r.events| >= |w.events| && r.events[..|w.events|] == w.events &&
    Announced(r.events[|w.events|..]) == [started]
  }

  /** `_execute_step` announces each step it runs. */
  lemma StepperWellAnnounced(s: Surroundings, post: bool)
    ensures WellAnnounced(Stepper(s), post)
  {
    forall a, i, x | Stepper(s)(a, i, post, x).1.None?
      ensures Announces(x, Stepper(s)(a, i, post, x).0, Announcement(a, i, post, x.loaded.commands))
    {
      var r := StepSpec(a, i, post, x, s).0;
      StepAnnouncedOnce(a, i, post, x.env, x.loaded.commands, s.host);
      assert r.events[..|x.events|] == x.events;
      assert r.events[|x.events|..] == StepRun(a, i, post, x.env, x.loaded.commands, s.host).added;
    }
  }

  /**
   * A run of steps that stops on no exception announced every step, in the
   * order given, numbered from `first` (`enumerate(steps, start=1)`).
   */
  lemma {:induction false} RunStepsAnnounce(step: StepFn, dir: string, steps: seq<Models.Attrs>, first: nat, post: bool, w: World)
    requires WellAnnounced(step, post)
    ensures var (r, e) := RunSteps(step, dir, steps, first, post, w);
      e.None? ==>
        r.loaded == w.loaded && |r.events| >= |w.events| && r.events[..|w.events|] == w.events &&
        Announced(r.events[|w.events|..]) == Announcements(steps, first, post, w.loaded.commands)
    decreases |steps|
  {
    if steps == [] {
      assert w.events[|w.events|..] == [];
    } else {
      var (next, e) := step(steps[0], first, post, w);
      if e.None? {
        assert Announces(w, next, Announcement(steps[0], first, post, w.loaded.commands));
        var moved := next.(dirs := Workdir.Changed(next.dirs, dir, true));
        RunStepsAnnounce(step, dir, steps[1..], first + 1, post, moved);
        var (r, e2) := RunSteps(step, dir, steps[1..], first + 1, post, moved);
        if e2.None? {
          AnnouncedAcross(w.events, next.events, r.events);
          AnnouncementsCons(steps, first, post, w.loaded.commands);
        }
      }
    }
  }

  // ---------------------------------------------------------------------
  // The image (builder.py:105-124)

  /** `_build_docker_image()`: build the image tagged with the build's `image`; a failed build raises BuildFailedError. */
  function ImageSpec(cfg: Config, w: World, s: Surroundings): (World, Option<Error>) {
    match Attr(cfg.snap.props, "image", "DockerBuild")
    case Err(e) => (w, Some(e))
    case Ok(image) =>
      if !image.Str? then (w, Some(TypeError("sequence item 3: expected str instance, " + TypeName(image) + " found")))
      else
        var r := Docker.BuildDockerImage(s.host.run, image.s, Docker.DefaultWorkdir);
        if r.IsHealthy() then (w.(events := w.events + [ImageBuilt(image.s, SplitLines(r.stdout))]), None)
        else (w.(events := w.events + [ImageFailed(image.s, r.stderr, r.exitCode)]), Some(BuildFailedError))
  }

  /** An image event is added exactly when `docker build` runs, and the image is built exactly when it exits with 0. */
  lemma ImageShape(cfg: Config, w: World, s: Surroundings)
    ensures var (r, e) := ImageSpec(cfg, w, s);
      r.(events := w.events) == w &&
      (r.events == w.events || (|r.events| == |w.events| + 1 && r.events[..|w.events|] == w.events &&
                                (r.events[|w.events|].ImageBuilt? || r.events[|w.events|].ImageFailed?))) &&
      (e.None? <==> |r.events| > |w.events| && r.events[|w.events|].ImageBuilt?) &&
      (e.None? ==> r.events[|w.events|].tag == cfg.snap.props["image"].s &&
                   s.host.run(["docker", "build", "--tag", cfg.snap.props["image"].s, "."]).IsHealthy())
  {
    var (r, e) := ImageSpec(cfg, w, s);
    if |r.events| > |w.events| {
      assert r.events[..|w.events|] == w.events;
    }
  }

  // ---------------------------------------------------------------------
  // The whole build (builder.py:143-172)

  /** The body of `build()`'s `try`: the stages in order, the first exception ending it. */
  function BodySpec(step: StepFn, cfg: Config, w: World, s: Surroundings): (World, Option<Error>) {
    var (copied, e) := CopySpec(cfg, w, s);
    if e.Some? then (copied, e) else AfterCopy(step, cfg, copied, s)
  }

  function AfterCopy(step: StepFn, cfg: Config, w: World, s: Surroundings): (World, Option<Error>) {
    var (loaded, e) := CustomSpec(cfg, w, s);
    if e.Some? then (loaded, e)
    else InBuildDirectory(step, cfg, loaded.(dirs := Workdir.Changed(loaded.dirs, s.buildDirectory, false)), s)
  }

  function InBuildDirectory(step: StepFn, cfg: Config, w: World, s: Surroundings): (World, Option<Error>) {
    var (stepped, e) := StepsSpec(step, cfg, false, w, s);
    if e.Some? then (stepped, e) else AfterSteps(step, cfg, stepped, s)
  }

  function AfterSteps(step: StepFn, cfg: Config, w: World, s: Surroundings): (World, Option<Error>) {
    var (built, e) := ImageSpec(cfg, w, s);
    if e.Some? then (built, e) else StepsSpec(step, cfg, true, built, s)
  }

  /** `_clean_build_directory()`: an OSError from removing the directory is swallowed; any other escapes. */
  function CleanupEscapes(e: Option<Error>): (r: Option<Error>)
    ensures r.Some? <==> e.Some? && !e.value.OSError?
    ensures r.Some? ==> r == e
  {
    if e.Some? && !e.value.OSError? then e else None
  }

  /**
   * `build()`: BuildFailedError from the body makes it return false; any
   * other exception escapes before the change back and the cleanup. The
   * context is torn down on every path.
   */
  function BuildSpec(cfg: Config, w: World, s: Surroundings): (World, BuildResult) {
    Finish(BodySpec(Stepper(s), cfg, w, s), s)
  }

  /** What `build()` does once the body of its `try` has ended in `body`. */
  function Finish(body: (World, Option<Error>), s: Surroundings): (World, BuildResult) {
    var (w, e) := body;
    if e.Some? && e.value != BuildFailedError then (w, Raised(e.value))
    else
      var finished := w.(dirs := Workdir.Back(w.dirs), events := w.events + [Cleaned]);
      var escaped := CleanupEscapes(s.cleanupError);
      (finished, if escaped.Some? then Raised(escaped.value) else Returned(e.None?))
  }

  // ---------------------------------------------------------------------
  // What a whole build does

  /** The custom commands stage changes neither the trace nor the environment, restores the directories when it succeeds, and never fails the build. */
  lemma CustomShape(cfg: Config, w: World, s: Surroundings)
    ensures var (r, e) := CustomSpec(cfg, w, s);
      r.events == w.events && r.env == w.env &&
      (e.None? ==> r.dirs == w.dirs) &&
      e != Some(BuildFailedError)
  {
    if cfg.customCommands.Some? && Truthy(cfg.customCommands.value) {
      var path := cfg.customCommands.value;
      CustomCommands.ChangeAndLoadNeverFailsBuild(path, w.dirs, w.loaded, s.loader);
      if CustomCommands.ChangeAndLoadSpec(path, w.dirs, w.loaded, s.loader).2.None? {
        CustomCommands.ChangeAndLoadReturns(path, w.dirs, w.loaded, s.loader);
      }
    }
  }

  /** The tag `docker build` is given: the build's `image` attribute. */
  function ImageTag(props: Models.Attrs): string {
    if "image" in props && props["image"].Str? then props["image"].s else ""
  }

  /** Only events that are not the clean-up attempt were added after `w`'s trace. */
  predicate Extends(w: World, r: World) {
    |r.events| >= |w.events| && r.events[..|w.events|] == w.events &&
    forall i :: |w.events| <= i < |r.events| ==> !r.events[i].Cleaned?
  }

  lemma ExtendsTrans(a: World, b: World, c: World)
    requires Extends(a, b) && Extends(b, c)
    ensures Extends(a, c)
  {
    assert c.events[..|a.events|] == c.events[..|b.events|][..|a.events|];
  }

  /** Steps that added only step events extend the trace. */
  lemma StepEventsExtend(w: World, r: World, post: bool)
    requires |r.events| >= |w.events| && r.events[..|w.events|] == w.events
    requires StepEventsOnly(r.events[|w.events|..], post)
    ensures Extends(w, r)
  {
    forall i | |w.events| <= i < |r.events|
      ensures !r.events[i].Cleaned?
    {
      assert r.events[i] == r.events[|w.events|..][i - |w.events|];
    }
  }

  /** The build's last event before the cleanup reports a failure: of a step, or of `docker build`. */
  predicate Failed(w: World, r: World) {
    |r.events| > |w.events| && ReportsFailure(r.events[|r.events| - 1])
  }

  /** A step failed, or `docker build` did. */
  predicate ReportsFailure(e: Event) {
    e.StepFailed? || e.ImageFailed?
  }

  /**
   * The trace of a successful build after its copies: the build steps' events
   * without a failure, then the image built with `tag` at `j`, then the
   * post-build steps' events without a failure.
   */
  predicate MainThenImage(es: seq<Event>, j: int, tag: string) {
    0 <= j < |es| &&
    StepEventsOnly(es[..j], false) && NoFailure(es[..j]) &&
    es[j].ImageBuilt? && es[j].tag == tag &&
    StepEventsOnly(es[j + 1..], true) && NoFailure(es[j + 1..])
  }

  /** The trace has those phases, the image built with `tag`. */
  predicate InPhases(es: seq<Event>, tag: string) {
    exists j :: 0 <= j < |es| && MainThenImage(es, j, tag)
  }

  /** The image and then the post-build steps. */
  lemma AfterStepsShape(step: StepFn, cfg: Config, w: World, s: Surroundings)
    requires WellBehaved(step, true)
    ensures var (r, e) := AfterSteps(step, cfg, w, s);
      Extends(w, r) && r.dirs.previous == w.dirs.previous && r.loaded == w.loaded &&
      (e.None? && w.dirs.cwd == s.buildDirectory ==> r.dirs == w.dirs && MainThenImage(r.events[|w.events|..], 0, ImageTag(cfg.snap.props))) &&
      (e == Some(BuildFailedError) ==> Failed(w, r))
  {
    var (built, e) := ImageSpec(cfg, w, s);
    ImageShape(cfg, w, s);
    assert Extends(w, built);
    if e.None? && cfg.postSteps.Some? {
      RunStepsShape(step, s.buildDirectory, cfg.postSteps.value, 1, true, built);
      var r := RunSteps(step, s.buildDirectory, cfg.postSteps.value, 1, true, built).0;
      StepEventsExtend(built, r, true);
      ExtendsTrans(w, built, r);
      var es := r.events[|w.events|..];
      assert es[0] == built.events[|w.events|];
      assert es[..0] == [];
      assert es[1..] == r.events[|built.events|..];
    }
  }

  /** The build steps, the image and the post-build steps. */
  lemma InBuildDirectoryShape(step: StepFn, cfg: Config, w: World, s: Surroundings)
    requires WellBehaved(step, false) && WellBehaved(step, true)
    ensures var (r, e) := InBuildDirectory(step, cfg, w, s);
      Extends(w, r) && r.dirs.previous == w.dirs.previous && r.loaded == w.loaded &&
      (e.None? && w.dirs.cwd == s.buildDirectory ==>
        r.dirs == w.dirs && InPhases(r.events[|w.events|..], ImageTag(cfg.snap.props))) &&
      (e == Some(BuildFailedError) ==> Failed(w, r))
  {
    var steps := cfg.snap.steps;
    RunStepsShape(step, s.buildDirectory, steps, 1, false, w);
    var (stepped, e) := RunSteps(step, s.buildDirectory, steps, 1, false, w);
    StepEventsExtend(w, stepped, false);
    if e.None? {
      AfterStepsShape(step, cfg, stepped, s);
      var (r, e2) := AfterSteps(step, cfg, stepped, s);
      ExtendsTrans(w, stepped, r);
      if e2.None? && w.dirs.cwd == s.buildDirectory {
        var es := r.events[|w.events|..];
        var j := |stepped.events| - |w.events|;
        var tag := ImageTag(cfg.snap.props);
        assert MainThenImage(r.events[|stepped.events|..], 0, tag);
        assert es[..j] == stepped.events[|w.events|..];
        assert es[j..] == r.events[|stepped.events|..];
        assert es[j + 1..] == r.events[|stepped.events|..][1..];
        assert MainThenImage(es, j, tag);
      }
    }
  }

  /** Everything after the copies: the custom commands, the change into the build directory, and the rest. */
  lemma AfterCopyShape(step: StepFn, cfg: Config, w: World, s: Surroundings)
    requires WellBehaved(step, false) && WellBehaved(step, true)
    ensures var (r, e) := AfterCopy(step, cfg, w, s);
      Extends(w, r) &&
      (e.None? ==>
        r.dirs == Workdir.Changed(w.dirs, s.buildDirectory, false) && InPhases(r.events[|w.events|..], ImageTag(cfg.snap.props))) &&
      (e == Some(BuildFailedError) ==> r.dirs.previous == w.dirs.previous + [w.dirs.cwd] && Failed(w, r))
  {
    CustomShape(cfg, w, s);
    var (loaded, e) := CustomSpec(cfg, w, s);
    if e.None? {
      var moved := loaded.(dirs := Workdir.Changed(loaded.dirs, s.buildDirectory, false));
      InBuildDirectoryShape(step, cfg, moved, s);
    }
  }

  /** Copying only extends the trace. */
  lemma CopyExtends(cfg: Config, w: World, s: Surroundings)
    ensures Extends(w, CopySpec(cfg, w, s).0)
  {
    CopyAddsCopies(cfg.snap.props, [cfg.snap.dockerfile] + cfg.snap.files, w, s);
    var copied := CopySpec(cfg, w, s).0;
    forall i | |w.events| <= i < |copied.events|
      ensures !copied.events[i].Cleaned?
    {
      assert copied.events[i] == copied.events[|w.events|..][i - |w.events|];
    }
  }

  /** The whole body of the `try`: the copies first, then the rest. */
  lemma BodyShape(step: StepFn, cfg: Config, w: World, s: Surroundings)
    requires WellBehaved(step, false) && WellBehaved(step, true)
    ensures var (r, e) := BodySpec(step, cfg, w, s);
      Extends(w, r) &&
      (e == Some(BuildFailedError) && CopySpec(cfg, w, s).1.None? ==>
        r.dirs.previous == w.dirs.previous + [w.dirs.cwd] && Failed(w, r))
  {
    CopyExtends(cfg, w, s);
    var (copied, e) := CopySpec(cfg, w, s);
    if e.None? {
      CopyAddsCopies(cfg.snap.props, [cfg.snap.dockerfile] + cfg.snap.files, w, s);
      AfterCopyShape(step, cfg, copied, s);
      ExtendsTrans(w, copied, AfterCopy(step, cfg, copied, s).0);
    }
  }

  /** A body that succeeds copied every file in order, then went through the phases, and is in the build directory. */
  lemma BodySucceeds(step: StepFn, cfg: Config, w: World, s: Surroundings)
    requires WellBehaved(step, false) && WellBehaved(step, true)
    requires BodySpec(step, cfg, w, s).1.None?
    ensures var r := BodySpec(step, cfg, w, s).0;
      var files := [cfg.snap.dockerfile] + cfg.snap.files;
      r.dirs == Workdir.Changed(w.dirs, s.buildDirectory, false) &&
      |r.events| >= |w.events| + |files| &&
      (forall i :: 0 <= i < |files| ==>
        SourcePath(cfg.snap.props, files[i]).Ok? &&
        r.events[|w.events| + i] == Copied(SourcePath(cfg.snap.props, files[i]).value, s.buildDirectory)) &&
      InPhases(r.events[|w.events| + 1 + |cfg.snap.files|..], ImageTag(cfg.snap.props))
  {
    var files := [cfg.snap.dockerfile] + cfg.snap.files;
    var copied := CopySpec(cfg, w, s).0;
    CopiesInOrder(cfg.snap.props, files, w, s);
    AfterCopyShape(step, cfg, copied, s);
    var r := AfterCopy(step, cfg, copied, s).0;
    assert r.events[|w.events| + 1 + |cfg.snap.files|..] == r.events[|copied.events|..];
    forall i | |w.events| <= i < |copied.events|
      ensures r.events[i] == copied.events[i]
    {
      assert r.events[i] == r.events[..|copied.events|][i];
    }
  }

  /**
   * The steps announced in `es`: the build steps in their declared order,
   * numbered from 1, then the post-build steps likewise, by the names shown
   * with the commands `commands`.
   */
  predicate StepsAnnounced(es: seq<Event>, cfg: Config, commands: map<string, Command>) {
    cfg.postSteps.Some? &&
    Announced(es) == Announcements(cfg.snap.steps, 1, false, commands) + Announcements(cfg.postSteps.value, 1, true, commands)
  }

  /** After the build steps: the image is no announcement, and the post-build steps are announced in order. */
  lemma AfterStepsAnnounce(step: StepFn, cfg: Config, w: World, s: Surroundings)
    requires WellAnnounced(step, true)
    ensures var (r, e) := AfterSteps(step, cfg, w, s);
      e.None? ==>
        cfg.postSteps.Some? && r.loaded == w.loaded && |r.events| >= |w.events| && r.events[..|w.events|] == w.events &&
        Announced(r.events[|w.events|..]) == Announcements(cfg.postSteps.value, 1, true, w.loaded.commands)
  {
    var (built, e) := ImageSpec(cfg, w, s);
    ImageShape(cfg, w, s);
    if e.None? && cfg.postSteps.Some? {
      RunStepsAnnounce(step, s.buildDirectory, cfg.postSteps.value, 1, true, built);
      var (r, e2) := RunSteps(step, s.buildDirectory, cfg.postSteps.value, 1, true, built);
      if e2.None? {
        AnnouncedAcross(w.events, built.events, r.events);
        assert built.events[|w.events|..] == [built.events[|w.events|]];
      }
    }
  }

  /** In the build directory: the build steps, then the post-build steps, each announced in order. */
  lemma InBuildDirectoryAnnounce(step: StepFn, cfg: Config, w: World, s: Surroundings)
    requires WellAnnounced(step, false) && WellAnnounced(step, true)
    ensures var (r, e) := InBuildDirectory(step, cfg, w, s);
      e.None? ==> r.loaded == w.loaded && |r.events| >= |w.events| && StepsAnnounced(r.events[|w.events|..], cfg, w.loaded.commands)
  {
    RunStepsAnnounce(step, s.buildDirectory, cfg.snap.steps, 1, false, w);
    var (stepped, e) := RunSteps(step, s.buildDirectory, cfg.snap.steps, 1, false, w);
    if e.None? {
      AfterStepsAnnounce(step, cfg, stepped, s);
      var (r, e2) := AfterSteps(step, cfg, stepped, s);
      if e2.None? {
        AnnouncedAcross(w.events, stepped.events, r.events);
      }
    }
  }

  /** After the copies: loading custom commands announces nothing, and the commands it registers name the steps. */
  lemma AfterCopyAnnounce(step: StepFn, cfg: Config, w: World, s: Surroundings)
    requires WellAnnounced(step, false) && WellAnnounced(step, true)
    ensures var (r, e) := AfterCopy(step, cfg, w, s);
      e.None? ==> |r.events| >= |w.events| && StepsAnnounced(r.events[|w.events|..], cfg, r.loaded.commands)
  {
    CustomShape(cfg, w, s);
    var (loaded, e) := CustomSpec(cfg, w, s);
    if e.None? {
      InBuildDirectoryAnnounce(step, cfg, loaded.(dirs := Workdir.Changed(loaded.dirs, s.buildDirectory, false)), s);
    }
  }

  /** A body that succeeds announced, after its copies, the build steps and then the post-build steps in order. */
  lemma BodyAnnounces(step: StepFn, cfg: Config, w: World, s: Surroundings)
    requires WellAnnounced(step, false) && WellAnnounced(step, true)
    requires BodySpec(step, cfg, w, s).1.None?
    ensures var r := BodySpec(step, cfg, w, s).0;
      |r.events| >= |w.events| + 1 + |cfg.snap.files| &&
      StepsAnnounced(r.events[|w.events| + 1 + |cfg.snap.files|..], cfg, r.loaded.commands)
  {
    var copied := CopySpec(cfg, w, s).0;
    CopyLength(cfg, w, s);
    AfterCopyAnnounce(step, cfg, copied, s);
    var r := AfterCopy(step, cfg, copied, s).0;
    assert r.events[|w.events| + 1 + |cfg.snap.files|..] == r.events[|copied.events|..];
  }

  /**
   * After a body that added no cleanup: removal of the build directory is attempted once,
   * as the last event, unless an exception other than BuildFailedError
   * escaped the body, and then no removal is attempted.
   */
  lemma FinishShape(w: World, body: (World, Option<Error>), s: Surroundings)
    requires Extends(w, body.0)
    ensures var (r, result) := Finish(body, s);
      var e := body.1;
      |r.events| >= |w.events| && r.events[..|w.events|] == w.events &&
      (e.Some? && e.value != BuildFailedError ==> r == body.0 && result == Raised(e.value) && Cleaned !in r.events[|w.events|..]) &&
      (!(e.Some? && e.value != BuildFailedError) ==>
        r.dirs == Workdir.Back(body.0.dirs) &&
        |r.events| == |body.0.events| + 1 && r.events[..|r.events| - 1] == body.0.events && r.events[|r.events| - 1] == Cleaned &&
        Cleaned !in r.events[|w.events|..|r.events| - 1] &&
        (CleanupEscapes(s.cleanupError).None? ==> result == Returned(e.None?)))
  {
    var b := body.0.events;
    assert Cleaned !in b[|w.events|..] by {
      forall i | 0 <= i < |b| - |w.events|
        ensures b[|w.events|..][i] != Cleaned
      {
        assert b[|w.events|..][i] == b[|w.events| + i];
      }
    }
    var r := Finish(body, s).0;
    if !(body.1.Some? && body.1.value != BuildFailedError) {
      assert r.events[..|r.events| - 1] == b;
      assert r.events[..|w.events|] == b[..|w.events|];
      assert r.events[|w.events|..|r.events| - 1] == b[|w.events|..];
    }
  }

  /** Appending the cleanup to a body that ended well keeps what the body did before it. */
  lemma CleanedAfter(w: World, b: World, cfg: Config, s: Surroundings)
    requires b.dirs == Workdir.Changed(w.dirs, s.buildDirectory, false)
    requires |b.events| >= |w.events| + 1 + |cfg.snap.files| && b.events[..|w.events|] == w.events
    requires forall i :: 0 <= i < 1 + |cfg.snap.files| ==>
      SourcePath(cfg.snap.props, ([cfg.snap.dockerfile] + cfg.snap.files)[i]).Ok? &&
      b.events[|w.events| + i] == Copied(SourcePath(cfg.snap.props, ([cfg.snap.dockerfile] + cfg.snap.files)[i]).value, s.buildDirectory)
    requires InPhases(b.events[|w.events| + 1 + |cfg.snap.files|..], ImageTag(cfg.snap.props))
    requires StepsAnnounced(b.events[|w.events| + 1 + |cfg.snap.files|..], cfg, b.loaded.commands)
    ensures var r := b.(dirs := Workdir.Back(b.dirs), events := b.events + [Cleaned]);
      var files := [cfg.snap.dockerfile] + cfg.snap.files;
      r.dirs == w.dirs &&
      |r.events| > |w.events| + |files| && r.events[..|w.events|] == w.events &&
      (forall i :: 0 <= i < |files| ==>
          SourcePath(cfg.snap.props, files[i]).Ok? &&
          r.events[|w.events| + i] == Copied(SourcePath(cfg.snap.props, files[i]).value, s.buildDirectory)) &&
      InPhases(r.events[|w.events| + |files|..|r.events| - 1], ImageTag(cfg.snap.props)) &&
      StepsAnnounced(r.events[|w.events| + |files|..|r.events| - 1], cfg, r.loaded.commands) &&
      r.events[|r.events| - 1] == Cleaned
  {
    Workdir.StoredChangeUndone(w.dirs, s.buildDirectory);
    var es := b.events + [Cleaned];
    assert es[..|w.events|] == b.events[..|w.events|];
    assert es[|w.events| + 1 + |cfg.snap.files|..|es| - 1] == b.events[|w.events| + 1 + |cfg.snap.files|..];
    assert es[..|b.events|] == b.events;
  }

  /** What a build that returned true did, for any well-behaved and well-announced steps. */
  lemma BuildSucceeds(step: StepFn, cfg: Config, w: World, s: Surroundings)
    requires WellBehaved(step, false) && WellBehaved(step, true)
    requires WellAnnounced(step, false) && WellAnnounced(step, true)
    requires Finish(BodySpec(step, cfg, w, s), s).1 == Returned(true)
    ensures var r := Finish(BodySpec(step, cfg, w, s), s).0;
      var files := [cfg.snap.dockerfile] + cfg.snap.files;
      r.dirs == w.dirs &&
      |r.events| > |w.events| + |files| && r.events[..|w.events|] == w.events &&
      (forall i :: 0 <= i < |files| ==>
          SourcePath(cfg.snap.props, files[i]).Ok? &&
          r.events[|w.events| + i] == Copied(SourcePath(cfg.snap.props, files[i]).value, s.buildDirectory)) &&
      InPhases(r.events[|w.events| + |files|..|r.events| - 1], ImageTag(cfg.snap.props)) &&
      StepsAnnounced(r.events[|w.events| + |files|..|r.events| - 1], cfg, r.loaded.commands) &&
      r.events[|r.events| - 1] == Cleaned
  {
    var body := BodySpec(step, cfg, w, s);
    assert body.1.None?;
    BodyShape(step, cfg, w, s);
    BodySucceeds(step, cfg, w, s);
    BodyAnnounces(step, cfg, w, s);
    assert Finish(body, s).0 == body.0.(dirs := Workdir.Back(body.0.dirs), events := body.0.events + [Cleaned]);
    CleanedAfter(w, body.0, cfg, s);
  }

  /**
   * A build that returns true copied the Dockerfile and the required files
   * in order, ran the build steps, built the image tagged with the build's
   * `image`, ran the post-build steps, none failing, removed the build
   * directory last, and is back in the directory it started in. Every build
   * step and then every post-build step was announced, in declared order and
   * numbered from 1.
   */
  lemma SuccessfulBuild(cfg: Config, w: World, s: Surroundings)
    requires BuildSpec(cfg, w, s).1 == Returned(true)
    ensures var r := BuildSpec(cfg, w, s).0;
      var files := [cfg.snap.dockerfile] + cfg.snap.files;
      r.dirs == w.dirs &&
      |r.events| > |w.events| + |files| && r.events[..|w.events|] == w.events &&
      (forall i :: 0 <= i < |files| ==>
          SourcePath(cfg.snap.props, files[i]).Ok? &&
          r.events[|w.events| + i] == Copied(SourcePath(cfg.snap.props, files[i]).value, s.buildDirectory)) &&
      InPhases(r.events[|w.events| + |files|..|r.events| - 1], ImageTag(cfg.snap.props)) &&
      StepsAnnounced(r.events[|w.events| + |files|..|r.events| - 1], cfg, r.loaded.commands) &&
      r.events[|r.events| - 1] == Cleaned
  {
    StepperWellBehaved(s, false);
    StepperWellBehaved(s, true);
    StepperWellAnnounced(s, false);
    StepperWellAnnounced(s, true);
    BuildSucceeds(Stepper(s), cfg, w, s);
  }

  /**
   * A build from `w` that returned false, back in the directory it started in,
   * whose last two events are the recorded failure and the removal of the
   * build directory.
   */
  predicate FailedAndCleaned(w: World, out: (World, BuildResult)) {
    var (r, result) := out;
    result == Returned(false) && r.dirs == w.dirs &&
    |r.events| >= |w.events| + 2 && r.events[..|w.events|] == w.events &&
    ReportsFailure(r.events[|r.events| - 2]) &&
    r.events[|r.events| - 1] == Cleaned
  }

  /**
   * A step or the image failing, after the files were copied, makes the build
   * return false; the build directory is still removed, right after the
   * failure was recorded, and the build is back where it started.
   */
  lemma FailedBuild(cfg: Config, w: World, s: Surroundings)
    requires CopySpec(cfg, w, s).1.None?
    requires BodySpec(Stepper(s), cfg, w, s).1 == Some(BuildFailedError)
    requires CleanupEscapes(s.cleanupError).None?
    ensures FailedAndCleaned(w, BuildSpec(cfg, w, s))
  {
    StepperWellBehaved(s, false);
    StepperWellBehaved(s, true);
    var body := BodySpec(Stepper(s), cfg, w, s);
    BodyShape(Stepper(s), cfg, w, s);
    FinishFailed(w, body, s);
  }

  lemma FinishFailed(w: World, body: (World, Option<Error>), s: Surroundings)
    requires Extends(w, body.0) && Failed(w, body.0) && body.0.dirs.previous == w.dirs.previous + [w.dirs.cwd]
    requires body.1 == Some(BuildFailedError) && CleanupEscapes(s.cleanupError).None?
    ensures FailedAndCleaned(w, Finish(body, s))
  {
    var r := Finish(body, s).0;
    var b := body.0.events;
    assert (w.dirs.previous + [w.dirs.cwd])[..|w.dirs.previous|] == w.dirs.previous;
    assert r.events[|r.events| - 2] == b[|b| - 1];
    assert r.events[..|w.events|] == b[..|w.events|];
  }

  /**
   * The build directory is removed, once and as the last event, unless an
   * exception other than BuildFailedError escapes the body; then nothing is
   * removed and that exception escapes `build()`.
   */
  lemma CleanupUnlessEscaped(cfg: Config, w: World, s: Surroundings)
    ensures var (r, result) := BuildSpec(cfg, w, s);
      var e := BodySpec(Stepper(s), cfg, w, s).1;
      |r.events| >= |w.events| && r.events[..|w.events|] == w.events &&
      (e.Some? && e.value != BuildFailedError ==> result == Raised(e.value) && Cleaned !in r.events[|w.events|..]) &&
      (!(e.Some? && e.value != BuildFailedError) ==>
        |r.events| > |w.events| && r.events[|r.events| - 1] == Cleaned && Cleaned !in r.events[|w.events|..|r.events| - 1])
  {
    StepperWellBehaved(s, false);
    StepperWellBehaved(s, true);
    BodyShape(Stepper(s), cfg, w, s);
    FinishShape(w, BodySpec(Stepper(s), cfg, w, s), s);
  }

  // ---------------------------------------------------------------------
  // The builder object

  /** What a build holds, read from its objects. */
  function ConfigOf(d: Models.DockerBuild): Config
    reads d, d.props, d.dockerfile, d.files, d.steps, if d.postSteps.Some? then d.postSteps.value else []
  {
    Config(d.Snap(), if d.postSteps.Some? then Some(Models.AttrsOf(d.postSteps.value)) else None, d.customCommands)
  }

  /** A build whose objects nobody changed holds the same. */
  twostate lemma ConfigKept(d: Models.DockerBuild)
    requires unchanged(d, d.props, d.dockerfile)
    requires forall o :: o in d.files || o in d.steps || (d.postSteps.Some? && o in d.postSteps.value) ==> unchanged(o)
    ensures old(ConfigOf(d)) == ConfigOf(d)
  {
    AttrsKept(d.files);
    AttrsKept(d.steps);
    if d.postSteps.Some? {
      AttrsKept(d.postSteps.value);
    }
  }

  /** The attributes of objects nobody changed are the same. */
  twostate lemma AttrsKept(objs: seq<Models.BuildFileObject>)
    requires forall o :: o in objs ==> unchanged(o)
    ensures old(Models.AttrsOf(objs)) == Models.AttrsOf(objs)
  {
    forall i | 0 <= i < |objs|
      ensures old(objs[i].attrs) == objs[i].attrs
    {
      assert objs[i] in objs;
    }
  }

  /** A `Builder`: the build it runs and the process state it works on. */
  class Builder {
    const config: Models.DockerBuild
    const slot: Context.ContextSlot
    var context: Context.BuildContext?
    const dirs: Workdir.DirectoryStack
    const environ: Builtins.Environ
    const sysPath: CustomCommands.SearchPath
    const registry: CommandRegistry
    const surroundings: Surroundings
    var events: seq<Event>
    /** The build as it was read when the builder was made. */
    ghost const build: Config

    function State(): World
      reads this, dirs, environ, sysPath, registry
    {
      World(dirs.State(), environ.vars, CustomCommands.Loaded(sysPath.entries, registry.commands), events)
    }

    /** The build has not changed since the builder was made. */
    ghost predicate Consistent()
      reads config, config.props, config.dockerfile, config.files, config.steps,
        if config.postSteps.Some? then config.postSteps.value else []
    {
      build == ConfigOf(config)
    }

    /** Consistency only depends on the build's objects, which the builder never changes. */
    twostate lemma StillConsistent()
      requires old(Consistent())
      requires unchanged(config, config.props, config.dockerfile)
      requires forall o :: o in config.files || o in config.steps || (config.postSteps.Some? && o in config.postSteps.value) ==> unchanged(o)
      ensures Consistent()
    {
      ConfigKept(config);
    }

    /** A builder that has not built yet: its context is installed and no step is running. */
    ghost predicate Ready()
      reads this, context
    {
      context != null && context.currentStep == null
    }

    /** `Builder(config)`: install a fresh context holding the build. */
    constructor (config: Models.DockerBuild, slot: Context.ContextSlot, dirs: Workdir.DirectoryStack, environ: Builtins.Environ,
                 sysPath: CustomCommands.SearchPath, registry: CommandRegistry, surroundings: Surroundings)
      modifies slot
      ensures this.config == config && this.slot == slot && this.dirs == dirs && this.environ == environ
      ensures this.sysPath == sysPath && this.registry == registry && this.surroundings == surroundings
      ensures Ready() && fresh(context) && slot.instance == context && context.config == config
      ensures events == [] && Consistent()
    {
      build := ConfigOf(config);
      var c := slot.Initialise();
      c.SetConfig(config);
      context := c;
      this.config := config;
      this.slot := slot;
      this.dirs := dirs;
      this.environ := environ;
      this.sysPath := sysPath;
      this.registry := registry;
      this.surroundings := surroundings;
      events := [];
      new;
      ConfigKept(config);
    }

    /** `_copy_file(file)`. */
    method CopyFile(file: Models.BuildFileObject) returns (err: Option<Error>)
      modifies this`events
      ensures (State(), err) == CopyOne(config.props.attrs, file.attrs, old(State()), surroundings)
    {
      var source := SourcePath(config.props.attrs, file.attrs);
      if source.Err? {
        return Some(source.error);
      }
      err := surroundings.host.copyFile(source.value, surroundings.buildDirectory);
      if err.None? {
        events := events + [Copied(source.value, surroundings.buildDirectory)];
      }
    }

    /** `_copy_files()`. */
    method CopyFiles() returns (err: Option<Error>)
      requires Consistent()
      modifies this`events
      ensures (State(), err) == CopySpec(build, old(State()), surroundings)
    {
      ghost var files := [config.dockerfile.attrs] + Models.AttrsOf(config.files);
      assert files[0] == config.dockerfile.attrs && files[1..] == Models.AttrsOf(config.files);
      err := CopyFile(config.dockerfile);
      if err.Some? {
        return;
      }
      err := CopyEach(config.files);
    }

    /** The loop of `_copy_files` over the required files. */
    method CopyEach(list: seq<Models.BuildFileObject>) returns (err: Option<Error>)
      modifies this`events
      ensures (State(), err) == CopyAll(config.props.attrs, Models.AttrsOf(list), old(State()), surroundings)
    {
      ghost var files := Models.AttrsOf(list);
      var i := 0;
      while i < |list|
        invariant 0 <= i <= |list|
        invariant CopyAll(config.props.attrs, files, old(State()), surroundings) ==
          CopyAll(config.props.attrs, files[i..], State(), surroundings)
      {
        assert files[i] == list[i].attrs;
        assert files[i..][1..] == files[i + 1..];
        err := CopyFile(list[i]);
        if err.Some? {
          return;
        }
        i := i + 1;
      }
      assert files[i..] == [];
      err := None;
    }

    /** `_setup_custom_commands()`. */
    method SetupCustomCommands() returns (err: Option<Error>)
      requires Consistent()
      modifies dirs, sysPath, registry
      ensures (State(), err) == CustomSpec(build, old(State()), surroundings)
    {
      match config.customCommands {
        case None =>
          err := Some(AttributeError("'DockerBuild' object has no attribute 'custom_commands'"));
        case Some(path) =>
          if Truthy(path) {
            err := CustomCommands.ChangeAndLoadCustom(path, dirs, sysPath, registry, surroundings.loader);
          } else {
            err := None;
          }
      }
    }

    /** The inner part of `_execute_step`, while the step is the context's current step. */
    method RunStep(index: nat, step: Models.BuildFileObject, post: bool) returns (err: Option<Error>)
      modifies this`events, environ
      ensures (State(), err) == StepSpec(step.attrs, index, post, old(State()), surroundings)
    {
      assert events + [] == events;
      var name := Attr(step.attrs, "name", "BuildStep");
      if name.Err? {
        return Some(name.error);
      }
      var command := Attr(step.attrs, "command", "BuildStep");
      if command.Err? {
        return Some(command.error);
      }
      var arguments := Attr(step.attrs, "arguments", "BuildStep");
      if arguments.Err? {
        return Some(arguments.error);
      }
      var found: Result<Command>;
      if command.value.Str? {
        found := registry.GetCommand(command.value.s);
      } else {
        found := Resolve(registry.commands, command.value);
      }
      if found.Err? {
        return Some(if found.error.ValueError? then UnknownCommand(command.value, index) else found.error);
      }
      var c := found.value;
      var started := [StepStarted(index, ShownName(c, name.value), post)];
      var args := Iterate(arguments.value);
      if args.Err? {
        events := events + started;
        return Some(TypeError("object of type '" + TypeName(arguments.value) + "' has no len()"));
      }
      var o := Builtins.Dispatch(c, args.value, arguments.value, environ.vars, surroundings.host, Named(step.attrs));
      environ.vars := o.env;
      if o.error.Some? {
        events := events + (started + Acts(o.actions) + [StepFailed(index, Display(name.value), o.error.value.message)]);
        err := Some(BuildFailedError);
      } else {
        events := events + (started + Acts(o.actions));
        err := None;
      }
    }

    /** `_execute_step(index, step, post_step)`: whatever happens, no step is current afterwards. */
    method ExecuteStep(index: nat, step: Models.BuildFileObject, post: bool, ghost run: StepFn) returns (err: Option<Error>)
      requires context != null
      requires forall a, i, p, x {:trigger StepSpec(a, i, p, x, surroundings)} :: run(a, i, p, x) == StepSpec(a, i, p, x, surroundings)
      modifies this`events, context, environ
      ensures context.currentStep == null && context.config == old(context.config)
      ensures (State(), err) == run(step.attrs, index, post, old(State()))
    {
      context.SetCurrentStep(step);
      err := RunStep(index, step, post);
      context.SetCurrentStep(null);
    }

    /** `_execute_steps(post_steps)`. */
    method ExecuteSteps(post: bool, ghost step: StepFn) returns (err: Option<Error>)
      requires Ready()
      requires forall a, i, p, x {:trigger StepSpec(a, i, p, x, surroundings)} :: step(a, i, p, x) == StepSpec(a, i, p, x, surroundings)
      requires Consistent()
      modifies this`events, context, environ, dirs
      ensures Ready() && context.config == old(context.config)
      ensures (State(), err) == StepsSpec(step, build, post, old(State()), surroundings)
    {
      if !post {
        err := ExecuteEach(config.steps, build.snap.steps, false, step);
      } else if config.postSteps.None? {
        err := Some(AttributeError("'DockerBuild' object has no attribute 'post_steps'"));
      } else {
        err := ExecuteEach(config.postSteps.value, build.postSteps.value, true, step);
      }
    }

    /** The loop of `_execute_steps` over `list`, where `step` is `_execute_step`. */
    method ExecuteEach(list: seq<Models.BuildFileObject>, ghost steps: seq<Models.Attrs>, post: bool, ghost step: StepFn)
      returns (err: Option<Error>)
      requires Ready()
      requires steps == Models.AttrsOf(list)
      requires forall a, i, p, x {:trigger StepSpec(a, i, p, x, surroundings)} :: step(a, i, p, x) == StepSpec(a, i, p, x, surroundings)
      modifies this`events, context, environ, dirs
      ensures Ready() && context.config == old(context.config)
      ensures (State(), err) == RunSteps(step, surroundings.buildDirectory, steps, 1, post, old(State()))
    {
      var i := 0;
      while i < |list|
        invariant 0 <= i <= |list|
        invariant Ready() && context.config == old(context.config)
        invariant steps == Models.AttrsOf(list)
        invariant RunSteps(step, surroundings.buildDirectory, steps, 1, post, old(State())) ==
          RunSteps(step, surroundings.buildDirectory, steps[i..], i + 1, post, State())
      {
        assert steps[i..][0] == list[i].attrs && steps[i..][1..] == steps[i + 1..];
        err := ExecuteNext(list[i], steps[i..], i + 1, post, step);
        if err.Some? {
          return;
        }
        i := i + 1;
      }
      assert steps[i..] == [];
      assert RunSteps(step, surroundings.buildDirectory, steps[i..], i + 1, post, State()) == (State(), None);
      err := None;
    }

    /** One turn of the loop of `_execute_steps`: the step `item`, first of `rest`, then back into the build directory. */
    method ExecuteNext(item: Models.BuildFileObject, ghost rest: seq<Models.Attrs>, index: nat, post: bool, ghost step: StepFn)
      returns (err: Option<Error>)
      requires Ready()
      requires rest != [] && rest[0] == item.attrs
      requires forall a, i, p, x {:trigger StepSpec(a, i, p, x, surroundings)} :: step(a, i, p, x) == StepSpec(a, i, p, x, surroundings)
      modifies this`events, context, environ, dirs
      ensures Ready() && context.config == old(context.config)
      ensures RunSteps(step, surroundings.buildDirectory, rest, index, post, old(State())) ==
        if err.Some? then (State(), err) else RunSteps(step, surroundings.buildDirectory, rest[1..], index + 1, post, State())
    {
      err := ExecuteStep(index, item, post, step);
      if err.Some? {
        return;
      }
      dirs.ChangeDirectory(surroundings.buildDirectory, true);
    }

    /** `_build_docker_image()`. */
    method BuildDockerImage() returns (err: Option<Error>)
      requires Consistent()
      modifies this`events
      ensures (State(), err) == ImageSpec(build, old(State()), surroundings)
    {
      var image := Attr(config.props.attrs, "image", "DockerBuild");
      if image.Err? {
        return Some(image.error);
      }
      if !image.value.Str? {
        return Some(TypeError("sequence item 3: expected str instance, " + TypeName(image.value) + " found"));
      }
      var r := Docker.BuildDockerImage(surroundings.host.run, image.value.s, Docker.DefaultWorkdir);
      if !r.IsHealthy() {
        events := events + [ImageFailed(image.value.s, r.stderr, r.exitCode)];
        err := Some(BuildFailedError);
      } else {
        events := events + [ImageBuilt(image.value.s, SplitLines(r.stdout))];
        err := None;
      }
    }

    /** `_clean_build_directory()`. */
    method CleanBuildDirectory() returns (err: Option<Error>)
      modifies this`events
      ensures events == old(events) + [Cleaned]
      ensures err == CleanupEscapes(surroundings.cleanupError)
    {
      events := events + [Cleaned];
      err := surroundings.cleanupError;
      if err.Some? && err.value.OSError? {
        err := None;
      }
    }

    /** The `try` block of `build()`: copy the files, then the rest. */
    method RunBody(ghost step: StepFn) returns (err: Option<Error>)
      requires Ready()
      requires forall a, i, p, x {:trigger StepSpec(a, i, p, x, surroundings)} :: step(a, i, p, x) == StepSpec(a, i, p, x, surroundings)
      requires Consistent()
      modifies this`events, context, environ, dirs, sysPath, registry
      ensures Ready() && context.config == old(context.config)
      ensures (State(), err) == BodySpec(step, build, old(State()), surroundings)
    {
      err := CopyFiles();
      if err.Some? {
        return;
      }
      err := RunAfterCopy(step);
    }

    /** Load the custom commands, change into the build directory, then the rest. */
    method RunAfterCopy(ghost step: StepFn) returns (err: Option<Error>)
      requires Ready()
      requires forall a, i, p, x {:trigger StepSpec(a, i, p, x, surroundings)} :: step(a, i, p, x) == StepSpec(a, i, p, x, surroundings)
      requires Consistent()
      modifies this`events, context, environ, dirs, sysPath, registry
      ensures Ready() && context.config == old(context.config)
      ensures (State(), err) == AfterCopy(step, build, old(State()), surroundings)
    {
      err := SetupCustomCommands();
      if err.Some? {
        return;
      }
      dirs.ChangeDirectory(surroundings.buildDirectory, false);
      StillConsistent();
      err := RunInBuildDirectory(step);
    }

    /** Run the build steps, then the rest. */
    method RunInBuildDirectory(ghost step: StepFn) returns (err: Option<Error>)
      requires Ready()
      requires forall a, i, p, x {:trigger StepSpec(a, i, p, x, surroundings)} :: step(a, i, p, x) == StepSpec(a, i, p, x, surroundings)
      requires Consistent()
      modifies this`events, context, environ, dirs
      ensures Ready() && context.config == old(context.config)
      ensures (State(), err) == InBuildDirectory(step, build, old(State()), surroundings)
    {
      err := ExecuteSteps(false, step);
      if err.Some? {
        return;
      }
      err := RunAfterSteps(step);
    }

    /** Build the image, then run the post-build steps. */
    method RunAfterSteps(ghost step: StepFn) returns (err: Option<Error>)
      requires Ready()
      requires forall a, i, p, x {:trigger StepSpec(a, i, p, x, surroundings)} :: step(a, i, p, x) == StepSpec(a, i, p, x, surroundings)
      requires Consistent()
      modifies this`events, context, environ, dirs
      ensures Ready() && context.config == old(context.config)
      ensures (State(), err) == AfterSteps(step, build, old(State()), surroundings)
    {
      err := BuildDockerImage();
      if err.Some? {
        return;
      }
      err := ExecuteSteps(true, step);
    }

    /**
     * `build()`: the context is torn down and dropped on every path, and no
     * step is left current.
     */
    method Build() returns (r: BuildResult)
      requires Ready()
      requires Consistent()
      modifies this, context, slot, environ, dirs, sysPath, registry
      ensures context == null && slot.instance == null && old(context).currentStep == null
      ensures (State(), r) == BuildSpec(build, old(State()), surroundings)
    {
      var err := RunBody(Stepper(surroundings));
      slot.Teardown();
      context := null;
      if err.Some? && err.value != BuildFailedError {
        return Raised(err.value);
      }
      dirs.ChangeBack();
      var escaped := CleanBuildDirectory();
      if escaped.Some? {
        r := Raised(escaped.value);
      } else {
        r := Returned(err.None?);
      }
    }
  }
}
