/**
 * Loading custom commands (customcommands.py): a YAML manifest lists Python
 * files and class names; each file is imported with its directory at the
 * front of the module search path, and each named class that extends
 * AbstractCommand is instantiated, which registers it.
 *
 * The file system, the YAML loader and the import machinery are oracles (a
 * `Loader`); `sys.path` is a `SearchPath` object and the registry the
 * `Commands.CommandRegistry` that construction writes to. Paths follow the
 * POSIX rules of `os.path`.
 */
module CustomCommands {
  import opened Errors
  import opened Text
  import opened Values
  import opened Commands
  import Workdir

  // ---------------------------------------------------------------------
  // Paths

  /** `p.rfind('/') + 1`: where the last component of the path starts. */
  function SplitPoint(p: string): (k: nat)
    ensures k <= |p|
    ensures k > 0 ==> p[k - 1] == '/'
    ensures forall j :: k <= j < |p| ==> p[j] != '/'
    decreases |p|
  {
    if p == [] then 0
    else if p[|p| - 1] == '/' then |p|
    else SplitPoint(p[..|p| - 1])
  }

  /** `os.path.basename(p)`. */
  function Basename(p: string): string {
    p[SplitPoint(p)..]
  }

  predicate AllSlashes(s: string) {
    forall j :: 0 <= j < |s| ==> s[j] == '/'
  }

  /** `s.rstrip('/')`. */
  function RStripSlashes(s: string): (r: string)
    ensures r <= s
    ensures r == [] || r[|r| - 1] != '/'
    ensures forall j :: |r| <= j < |s| ==> s[j] == '/'
    decreases |s|
  {
    if s != [] && s[|s| - 1] == '/' then RStripSlashes(s[..|s| - 1]) else s
  }

  /** `os.path.dirname(p)`: the path up to the last slash, without trailing slashes unless it is all slashes. */
  function Dirname(p: string): string {
    var head := p[..SplitPoint(p)];
    if head != "" && !AllSlashes(head) then RStripSlashes(head) else head
  }

  /** The base name is the slash-free tail of the path, and the path is its head followed by it. */
  lemma BasenameTail(p: string)
    ensures '/' !in Basename(p)
    ensures p == p[..SplitPoint(p)] + Basename(p)
    ensures '/' !in p ==> Basename(p) == p && Dirname(p) == ""
  {
  }

  /** With a single slash before the base name, the directory, a slash and the base name give the path back. */
  lemma DirnameJoin(p: string)
    requires SplitPoint(p) >= 2 && p[SplitPoint(p) - 2] != '/'
    ensures Dirname(p) + "/" + Basename(p) == p
  {
    var k := SplitPoint(p);
    var head := p[..k];
    assert !AllSlashes(head) by {
      assert head[k - 2] != '/';
    }
    assert RStripSlashes(head) == p[..k - 1] by {
      assert head[..k - 1] == p[..k - 1];
    }
  }

  /** A path ending in ".py" has a base name ending in ".py", so `index('.py')` finds it. */
  lemma PythonBasename(p: string)
    requires EndsWith(p, ".py")
    ensures EndsWith(Basename(p), ".py")
    ensures IndexOf(Basename(p), ".py").Some?
  {
    var k := SplitPoint(p);
    assert p[|p| - 3..] == ".py";
    assert k <= |p| - 3;
    var b := Basename(p);
    assert b[|b| - 3..] == p[|p| - 3..];
    assert OccursAt(b, ".py", |b| - 3);
  }

  /** `module[0:module.index('.py')]` on the base name: the part before the first ".py". */
  function ModuleName(p: string): (r: string)
    requires EndsWith(p, ".py")
    ensures StartsWith(Basename(p), r + ".py")
    ensures forall j: nat :: j < |r| ==> !OccursAt(Basename(p), ".py", j)
    ensures '/' !in r
  {
    PythonBasename(p);
    BasenameTail(p);
    var b := Basename(p);
    var i := IndexOf(b, ".py").value;
    assert b[..i + 3] == b[..i] + ".py" by {
      assert b[i..i + 3] == ".py";
    }
    assert forall c :: c in b[..i] ==> c in b;
    b[..i]
  }

  // ---------------------------------------------------------------------
  // The oracles and the search path

  /** What a class attribute of an imported module is, as `_load_custom` tells them apart. */
  datatype Member =
    | NotAClass                 // an attribute that is not a class: `issubclass` refuses it
    | OtherClass                // a class that does not extend AbstractCommand
    | CommandClass(command: Command)  // an AbstractCommand subclass; constructing it registers `command`

  /** An imported module: its attributes by name. */
  type Module = map<string, Member>

  /**
   * The collaborators, each given the working directory that relative paths
   * are resolved against:
   * - `documents`: the YAML document of a file (`yaml.safe_load(open(f))`), None when it cannot be opened;
   * - `isFile`: `os.path.isfile`;
   * - `modules`: `importlib.import_module(name)` with the given `sys.path`, None when the import fails.
   */
  datatype Loader = Loader(
    documents: (string, string) -> Option<Value>,
    isFile: (string, string) -> bool,
    modules: (string, seq<string>, string) -> Option<Module>
  )

  /** `sys.path`. */
  class SearchPath {
    var entries: seq<string>

    constructor (entries: seq<string>)
      ensures this.entries == entries
    {
      this.entries := entries;
    }

    /** `sys.path.insert(0, d)`. */
    method InsertFront(d: string)
      modifies this
      ensures entries == [d] + old(entries)
    {
      entries := [d] + entries;
    }

    /** `sys.path.pop(0)`. */
    method PopFront() returns (d: string)
      requires entries != []
      modifies this
      ensures old(entries) == [d] + entries
    {
      d := entries[0];
      entries := entries[1..];
    }
  }

  // ---------------------------------------------------------------------
  // `_load_module`

  /** The message for a path that is not an existing Python file. */
  function NotPythonFile(path: string): string {
    "Custom command file " + path + " is either not a file or Python (.py) file"
  }

  /**
   * The test `os.path.isfile(path) and path.endswith('.py')`: the path when it
   * passes. An integer is a file descriptor, taken here not to be a file; any
   * other non-string makes `os.stat` raise.
   */
  function CheckPath(path: Value, cwd: string, loader: Loader): (r: Result<string>)
    ensures r.Ok? <==> path.Str? && loader.isFile(cwd, path.s) && EndsWith(path.s, ".py")
    ensures r.Ok? ==> r.value == path.s
    ensures path.Str? && r.Err? ==> r.error == BuildConfigurationError(NotPythonFile(path.s))
  {
    match path
    case Str(p) =>
      if loader.isFile(cwd, p) && EndsWith(p, ".py") then Ok(p)
      else Err(BuildConfigurationError(NotPythonFile(p)))
    case Int(_) => Err(BuildConfigurationError(NotPythonFile(Display(path))))
    case Bool(_) => Err(BuildConfigurationError(NotPythonFile(Display(path))))
    case _ => Err(TypeError("stat: path should be string, bytes, os.PathLike or integer, not " + TypeName(path)))
  }

  /**
   * `_load_module(path)` (customcommands.py:13-38) on `sys.path` = `sysPath`:
   * the search path afterwards and the module, or the exception.
   */
  function LoadModuleSpec(path: Value, cwd: string, sysPath: seq<string>, loader: Loader): (seq<string>, Result<Module>) {
    match CheckPath(path, cwd, loader)
    case Err(e) => (sysPath, Err(e))
    case Ok(p) =>
      var dir := Dirname(p);
      var name := ModuleName(p);
      var during := if dir in sysPath then sysPath else [dir] + sysPath;
      match loader.modules(cwd, during, name)
      case None => (during, Err(ImportError(name)))
      case Some(m) => (sysPath, Ok(m))
  }

  /** A rejected path imports nothing and leaves the search path alone. */
  lemma RejectedPathImportsNothing(path: string, cwd: string, sysPath: seq<string>, loader: Loader)
    requires !(loader.isFile(cwd, path) && EndsWith(path, ".py"))
    ensures LoadModuleSpec(Str(path), cwd, sysPath, loader) == (sysPath, Err(BuildConfigurationError(NotPythonFile(path))))
  {
  }

  /**
   * The import sees the module's directory, at the front when it was not on
   * the path already, and searches for the base name cut at ".py"; after a
   * successful import the search path is what it was.
   */
  lemma ImportSearchesModuleDirectory(path: string, cwd: string, sysPath: seq<string>, loader: Loader)
    requires loader.isFile(cwd, path) && EndsWith(path, ".py")
    ensures var during := if Dirname(path) in sysPath then sysPath else [Dirname(path)] + sysPath;
      LoadModuleSpec(Str(path), cwd, sysPath, loader) ==
        match loader.modules(cwd, during, ModuleName(path))
        case None => (during, Err(ImportError(ModuleName(path))))
        case Some(m) => (sysPath, Ok(m))
  {
  }

  /** Whatever happens, the search path is restored unless the import itself failed. */
  lemma SearchPathRestored(path: Value, cwd: string, sysPath: seq<string>, loader: Loader)
    ensures LoadModuleSpec(path, cwd, sysPath, loader).1.Ok? ==> LoadModuleSpec(path, cwd, sysPath, loader).0 == sysPath
    ensures LoadModuleSpec(path, cwd, sysPath, loader).1.Err? && !LoadModuleSpec(path, cwd, sysPath, loader).1.error.ImportError? ==>
      LoadModuleSpec(path, cwd, sysPath, loader).0 == sysPath
  {
  }

  /** A failed import skips the `pop`: a directory that was inserted stays at the front. */
  lemma FailedImportKeepsDirectory(path: string, cwd: string, sysPath: seq<string>, loader: Loader)
    requires loader.isFile(cwd, path) && EndsWith(path, ".py")
    requires Dirname(path) !in sysPath
    requires loader.modules(cwd, [Dirname(path)] + sysPath, ModuleName(path)).None?
    ensures LoadModuleSpec(Str(path), cwd, sysPath, loader).0 == [Dirname(path)] + sysPath
  {
  }

  /** `_load_module(path)`: check the path, insert its directory if absent, import, and pop what was inserted. */
  method LoadModule(path: Value, cwd: string, sysPath: SearchPath, loader: Loader) returns (r: Result<Module>)
    modifies sysPath
    ensures (sysPath.entries, r) == LoadModuleSpec(path, cwd, old(sysPath.entries), loader)
  {
    var checked := CheckPath(path, cwd, loader);
    if checked.Err? {
      r := Err(checked.error);
      return;
    }
    var p := checked.value;
    var dir := Dirname(p);
    var name := ModuleName(p);
    var inserted := false;
    if dir !in sysPath.entries {
      sysPath.InsertFront(dir);
      inserted := true;
    }
    var m := loader.modules(cwd, sysPath.entries, name);
    if m.None? {
      r := Err(ImportError(name));
      return;
    }
    if inserted {
      assert sysPath.entries == [dir] + old(sysPath.entries);
      var popped := sysPath.PopFront();
      assert sysPath.entries == ([popped] + sysPath.entries)[1..];
    }
    assert sysPath.entries == old(sysPath.entries);
    r := Ok(m.value);
  }

  // ---------------------------------------------------------------------
  // `_load_custom`

  /** The state the loader changes: `sys.path` and the registry's entries. */
  datatype Loaded = Loaded(sysPath: seq<string>, commands: map<string, Command>)

  /** What `_load_custom` does with the attribute `className` of the imported module. */
  function AcceptClass(m: Module, className: Value, path: string, commands: map<string, Command>): (r: (map<string, Command>, Option<Error>))
    ensures r.1.None? <==> className.Str? && className.s in m && m[className.s].CommandClass?
    ensures r.1.None? ==> r.0 == commands[m[className.s].command.name := m[className.s].command]
    ensures r.1.Some? ==> r.0 == commands
  {
    if !className.Str? then (commands, Some(TypeError("attribute name must be string, not '" + TypeName(className) + "'")))
    else if className.s !in m then (commands, Some(BuildConfigurationError("Class " + className.s + " does not exist within " + path)))
    else
      match m[className.s]
      case NotAClass => (commands, Some(TypeError("issubclass() arg 1 must be a class")))
      case OtherClass => (commands, Some(BuildConfigurationError("Command " + className.s + " from " + path + " does not extend AbstractCommand")))
      case CommandClass(c) => (commands[c.name := c], None)
  }

  /** `_load_custom(command)` (customcommands.py:41-58): the state afterwards and the exception, if any. */
  function LoadCustomSpec(command: Value, cwd: string, before: Loaded, loader: Loader): (Loaded, Option<Error>) {
    match Index(command, "file")
    case Err(e) => (before, Some(e))
    case Ok(path) =>
      match Index(command, "class")
      case Err(e) => (before, Some(e))
      case Ok(className) =>
        var (sp, m) := LoadModuleSpec(path, cwd, before.sysPath, loader);
        match m
        case Err(e) => (before.(sysPath := sp), Some(e))
        case Ok(mod) =>
          var (commands, err) := AcceptClass(mod, className, path.s, before.commands);
          (Loaded(sp, commands), err)
  }

  /** An entry naming a class the module lacks is a configuration error, and nothing is registered. */
  lemma MissingClassRejected(path: string, className: string, m: Module, commands: map<string, Command>)
    requires className !in m
    ensures AcceptClass(m, Str(className), path, commands) == (commands, Some(BuildConfigurationError("Class " + className + " does not exist within " + path)))
  {
  }

  /** A class that does not extend AbstractCommand is refused, and nothing is registered. */
  lemma ForeignClassRejected(path: string, className: string, m: Module, commands: map<string, Command>)
    requires className in m && m[className] == OtherClass
    ensures AcceptClass(m, Str(className), path, commands) == (commands, Some(BuildConfigurationError("Command " + className + " from " + path + " does not extend AbstractCommand")))
  {
  }

  /**
   * A well-formed entry whose class extends AbstractCommand registers that
   * command exactly once, under its name; every other registration stays.
   */
  lemma AcceptedClassRegistered(entries: seq<Entry>, path: string, className: string, cwd: string, before: Loaded, loader: Loader, m: Module, c: Command)
    requires "file" in Keys(entries) && Lookup(entries, "file") == Str(path)
    requires "class" in Keys(entries) && Lookup(entries, "class") == Str(className)
    requires LoadModuleSpec(Str(path), cwd, before.sysPath, loader).1 == Ok(m)
    requires className in m && m[className] == CommandClass(c)
    ensures LoadCustomSpec(Dict(entries), cwd, before, loader) == (Loaded(before.sysPath, before.commands[c.name := c]), None)
    ensures forall n :: n != c.name ==> (n in before.commands <==> n in LoadCustomSpec(Dict(entries), cwd, before, loader).0.commands)
  {
    SearchPathRestored(Str(path), cwd, before.sysPath, loader);
  }

  /** An entry without `file` or `class` raises KeyError before anything is checked or imported. */
  lemma MissingKeyFirst(entries: seq<Entry>, cwd: string, before: Loaded, loader: Loader)
    requires !("file" in Keys(entries) && "class" in Keys(entries))
    ensures LoadCustomSpec(Dict(entries), cwd, before, loader).0 == before
    ensures LoadCustomSpec(Dict(entries), cwd, before, loader).1 ==
      Some(KeyError(if "file" !in Keys(entries) then "file" else "class"))
  {
  }

  /** `_load_custom(command)`: look up `file` and `class`, import the module, then accept and construct the class. */
  method LoadCustomCommand(command: Value, cwd: string, sysPath: SearchPath, registry: CommandRegistry, loader: Loader)
    returns (err: Option<Error>)
    modifies sysPath, registry
    ensures (Loaded(sysPath.entries, registry.commands), err) ==
      LoadCustomSpec(command, cwd, Loaded(old(sysPath.entries), old(registry.commands)), loader)
  {
    var path := Index(command, "file");
    if path.Err? {
      err := Some(path.error);
      return;
    }
    var className := Index(command, "class");
    if className.Err? {
      err := Some(className.error);
      return;
    }
    var m := LoadModule(path.value, cwd, sysPath, loader);
    if m.Err? {
      err := Some(m.error);
      return;
    }
    var members := m.value;
    var name := className.value;
    var p := path.value.s;
    if !name.Str? {
      err := Some(TypeError("attribute name must be string, not '" + TypeName(name) + "'"));
    } else if name.s !in members {
      err := Some(BuildConfigurationError("Class " + name.s + " does not exist within " + p));
    } else {
      match members[name.s]
      case NotAClass =>
        err := Some(TypeError("issubclass() arg 1 must be a class"));
      case OtherClass =>
        err := Some(BuildConfigurationError("Command " + name.s + " from " + p + " does not extend AbstractCommand"));
      case CommandClass(c) =>
        var _ := NewCommand(registry, c.name, c.numArgsRequired, c.atLeast, c.max, c.hook);
        err := None;
    }
  }

  // ---------------------------------------------------------------------
  // `load_custom`

  /** One entry's loading as a function of the entry and the state before it. */
  type Step = (Value, Loaded) -> (Loaded, Option<Error>)

  /** `_load_custom` for the manifest in the working directory `cwd`. */
  function Loading(cwd: string, loader: Loader): Step {
    (command: Value, before: Loaded) => LoadCustomSpec(command, cwd, before, loader)
  }

  /** The entries of the manifest, one after another, until one raises. */
  function LoadAll(step: Step, commands: seq<Value>, before: Loaded): (Loaded, Option<Error>)
    decreases |commands|
  {
    if commands == [] then (before, None)
    else
      var (after, err) := step(commands[0], before);
      if err.Some? then (after, err) else LoadAll(step, commands[1..], after)
  }

  /** Entries are handled in order: loading `a + b` is loading `a`, then `b` if `a` raised nothing. */
  lemma {:induction false} LoadAllAppend(step: Step, a: seq<Value>, b: seq<Value>, before: Loaded)
    ensures LoadAll(step, a + b, before) ==
      var (mid, err) := LoadAll(step, a, before);
      if err.Some? then (mid, err) else LoadAll(step, b, mid)
    decreases |a|
  {
    if a == [] {
      assert a + b == b;
    } else {
      assert (a + b)[1..] == a[1..] + b;
      var (after, err) := step(a[0], before);
      if err.None? {
        LoadAllAppend(step, a[1..], b, after);
      }
    }
  }

  /** One turn of the loop: the entry after an accepted prefix either extends it or ends the whole load. */
  lemma LoadAllStep(step: Step, entries: seq<Value>, i: nat, start: Loaded, mid: Loaded)
    requires i < |entries|
    requires LoadAll(step, entries[..i], start) == (mid, None)
    ensures step(entries[i], mid).1.None? ==> LoadAll(step, entries[..i + 1], start) == step(entries[i], mid)
    ensures step(entries[i], mid).1.Some? ==> LoadAll(step, entries, start) == step(entries[i], mid)
  {
    LoadAllAppend(step, entries[..i], [entries[i]], start);
    assert entries[..i + 1] == entries[..i] + [entries[i]];
    LoadAllAppend(step, entries[..i + 1], entries[i + 1..], start);
    assert entries[..i + 1] + entries[i + 1..] == entries;
  }

  /** `load_custom(commands_file)` (customcommands.py:61-72): the state afterwards and the exception, if any. */
  function LoadFileSpec(file: string, cwd: string, before: Loaded, loader: Loader): (Loaded, Option<Error>) {
    match loader.documents(cwd, file)
    case None => (before, Some(OSError("[Errno 2] No such file or directory: '" + file + "'")))
    case Some(data) =>
      match Contains(data, "commands")
      case Err(e) => (before, Some(e))
      case Ok(false) => (before, None)
      case Ok(true) =>
        match Index(data, "commands")
        case Err(e) => (before, Some(e))
        case Ok(commands) =>
          match Iterate(commands)
          case Err(e) => (before, Some(e))
          case Ok(entries) => LoadAll(Loading(cwd, loader), entries, before)
  }

  /** A manifest mapping without a `commands` key loads nothing and changes nothing. */
  lemma NoCommandsKey(file: string, cwd: string, before: Loaded, loader: Loader, es: seq<Entry>)
    requires loader.documents(cwd, file) == Some(Dict(es)) && "commands" !in Keys(es)
    ensures LoadFileSpec(file, cwd, before, loader) == (before, None)
  {
  }

  /** A manifest whose `commands` list is empty also changes nothing. */
  lemma EmptyCommandList(file: string, cwd: string, before: Loaded, loader: Loader, es: seq<Entry>)
    requires loader.documents(cwd, file) == Some(Dict(es)) && "commands" in Keys(es) && Lookup(es, "commands") == List([])
    ensures LoadFileSpec(file, cwd, before, loader) == (before, None)
  {
  }

  /** `load_custom(commands_file)`: read the manifest and load each entry of its `commands` list in turn. */
  method LoadCustomFile(file: string, cwd: string, sysPath: SearchPath, registry: CommandRegistry, loader: Loader)
    returns (err: Option<Error>)
    modifies sysPath, registry
    ensures (Loaded(sysPath.entries, registry.commands), err) ==
      LoadFileSpec(file, cwd, Loaded(old(sysPath.entries), old(registry.commands)), loader)
  {
    var data := loader.documents(cwd, file);
    if data.None? {
      err := Some(OSError("[Errno 2] No such file or directory: '" + file + "'"));
      return;
    }
    var has := Contains(data.value, "commands");
    if has.Err? {
      err := Some(has.error);
      return;
    }
    if !has.value {
      err := None;
      return;
    }
    var commands := Index(data.value, "commands");
    if commands.Err? {
      err := Some(commands.error);
      return;
    }
    var entries := Iterate(commands.value);
    if entries.Err? {
      err := Some(entries.error);
      return;
    }
    err := LoadEach(Loading(cwd, loader), entries.value, cwd, sysPath, registry, loader);
  }

  /** The `for` loop of `load_custom`, against `step`, the function one entry's loading computes. */
  method LoadEach(ghost step: Step, entries: seq<Value>, cwd: string, sysPath: SearchPath, registry: CommandRegistry, loader: Loader)
    returns (err: Option<Error>)
    requires forall command, before :: step(command, before) == LoadCustomSpec(command, cwd, before, loader)
    modifies sysPath, registry
    ensures (Loaded(sysPath.entries, registry.commands), err) ==
      LoadAll(step, entries, Loaded(old(sysPath.entries), old(registry.commands)))
  {
    ghost var start := Loaded(sysPath.entries, registry.commands);
    err := None;
    var i := 0;
    assert entries[..0] == [];
    while i < |entries|
      invariant 0 <= i <= |entries|
      invariant LoadAll(step, entries[..i], start) == (Loaded(sysPath.entries, registry.commands), None)
      invariant err.None?
    {
      ghost var mid := Loaded(sysPath.entries, registry.commands);
      err := LoadCustomCommand(entries[i], cwd, sysPath, registry, loader);
      LoadAllStep(step, entries, i, start, mid);
      if err.Some? {
        return;
      }
      i := i + 1;
    }
    assert entries[..i] == entries;
  }

  // ---------------------------------------------------------------------
  // `change_and_load_custom`

  /** `change_and_load_custom(path)`: the state afterwards and the exception, if any. */
  function ChangeAndLoadSpec(path: Value, dirs: Workdir.Dirs, before: Loaded, loader: Loader): (Workdir.Dirs, Loaded, Option<Error>) {
    if !path.Str? then (dirs, before, Some(TypeError("expected str, bytes or os.PathLike object, not " + TypeName(path))))
    else
      var moved := Workdir.Changed(dirs, Dirname(path.s), false);
      var (after, err) := LoadFileSpec(Basename(path.s), moved.cwd, before, loader);
      if err.Some? then (moved, after, err) else (Workdir.Back(moved), after, None)
  }

  /** When the manifest loads, the directory state is what it was before. */
  lemma ChangeAndLoadReturns(path: Value, dirs: Workdir.Dirs, before: Loaded, loader: Loader)
    requires ChangeAndLoadSpec(path, dirs, before, loader).2.None?
    ensures ChangeAndLoadSpec(path, dirs, before, loader).0 == dirs
    ensures ChangeAndLoadSpec(path, dirs, before, loader).1 == LoadFileSpec(Basename(path.s), Dirname(path.s), before, loader).0
  {
    Workdir.StoredChangeUndone(dirs, Dirname(path.s));
  }

  lemma AcceptNeverFailsBuild(m: Module, className: Value, path: string, commands: map<string, Command>)
    ensures AcceptClass(m, className, path, commands).1 != Some(BuildFailedError)
  {
  }

  /** The exceptions `_load_custom` raises are configuration, key, type and import errors, never BuildFailedError. */
  lemma LoadCustomNeverFailsBuild(command: Value, cwd: string, before: Loaded, loader: Loader)
    ensures LoadCustomSpec(command, cwd, before, loader).1 != Some(BuildFailedError)
  {
    var path := Index(command, "file");
    var className := Index(command, "class");
    if path.Ok? && className.Ok? {
      var checked := CheckPath(path.value, cwd, loader);
      assert checked.Err? ==> checked.error != BuildFailedError;
      var m := LoadModuleSpec(path.value, cwd, before.sysPath, loader).1;
      if m.Ok? {
        AcceptNeverFailsBuild(m.value, className.value, path.value.s, before.commands);
      }
    }
  }

  /** A run of entries none of which can raise BuildFailedError does not raise it either. */
  lemma {:induction false} LoadAllNeverFailsBuild(step: Step, commands: seq<Value>, before: Loaded)
    requires forall command, b :: step(command, b).1 != Some(BuildFailedError)
    ensures LoadAll(step, commands, before).1 != Some(BuildFailedError)
    decreases |commands|
  {
    if commands != [] {
      var (after, err) := step(commands[0], before);
      if err.None? {
        LoadAllNeverFailsBuild(step, commands[1..], after);
      }
    }
  }

  /** Loading a build's custom commands never raises BuildFailedError: what it raises escapes `build()`. */
  lemma ChangeAndLoadNeverFailsBuild(path: Value, dirs: Workdir.Dirs, before: Loaded, loader: Loader)
    ensures ChangeAndLoadSpec(path, dirs, before, loader).2 != Some(BuildFailedError)
  {
    if path.Str? {
      var cwd := Workdir.Changed(dirs, Dirname(path.s), false).cwd;
      forall command, b
        ensures Loading(cwd, loader)(command, b).1 != Some(BuildFailedError)
      {
        LoadCustomNeverFailsBuild(command, cwd, b, loader);
      }
      match loader.documents(cwd, Basename(path.s))
      case None =>
      case Some(data) =>
        if Contains(data, "commands") == Ok(true) && Index(data, "commands").Ok? && Iterate(Index(data, "commands").value).Ok? {
          LoadAllNeverFailsBuild(Loading(cwd, loader), Iterate(Index(data, "commands").value).value, before);
        }
    }
  }

  /**
   * `change_and_load_custom(path)`: change into the manifest's directory,
   * load it by its base name, and change back. An exception from the loading
   * leaves before the change back.
   */
  method ChangeAndLoadCustom(path: Value, dirs: Workdir.DirectoryStack, sysPath: SearchPath, registry: CommandRegistry, loader: Loader)
    returns (err: Option<Error>)
    modifies dirs, sysPath, registry
    ensures (dirs.State(), Loaded(sysPath.entries, registry.commands), err) ==
      ChangeAndLoadSpec(path, old(dirs.State()), Loaded(old(sysPath.entries), old(registry.commands)), loader)
  {
    if !path.Str? {
      err := Some(TypeError("expected str, bytes or os.PathLike object, not " + TypeName(path)));
      return;
    }
    dirs.ChangeDirectory(Dirname(path.s), false);
    err := LoadCustomFile(Basename(path.s), dirs.cwd, sysPath, registry, loader);
    if err.Some? {
      return;
    }
    dirs.ChangeBack();
  }
}
