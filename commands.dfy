/**
 * The command contract and the process-wide command registry (commands.py).
 *
 * A command is a value: its registered name, its argument bounds, and which
 * `_execute` hook its class supplies. The built-in classes of
 * builtincommands.py and the classes a custom-commands file names are the
 * possible hooks.
 */
module Commands {
  import opened Errors
  import opened Text

  /** The concrete class behind a command, which decides what `_execute` does. */
  datatype Hook =
    | Copy                               // CopyCommand
    | ExecuteShell                       // ExecuteSystemCommand
    | SetVariable(secret: bool)          // SetVariableCommand
    | SetVariables                       // SetVariablesCommand
    | GitClone                           // GitCloneCommand
    | ScriptExecutor(interpreter: string)  // ScriptExecutorCommand
    | CreateContainer                    // CreateContainerCommand
    | RunBuild                           // RunBuildCommand
    | Custom(className: string, nameOverride: Option<string>)  // a user class and its `default_name` override, if any

  /** An `AbstractCommand` instance: `name`, `_num_args_required`, `_at_least`, `_max`. */
  datatype Command = Command(name: string, numArgsRequired: int, atLeast: bool, max: int, hook: Hook)

  /** `Command.default_name()` of the base class. */
  const UnnamedLabel := "<unnamed>"

  /** The registry: `commands` is the `name -> command` dictionary. */
  class CommandRegistry {
    var commands: map<string, Command>

    constructor ()
      ensures commands == map[]
    {
      commands := map[];
    }

    /** `register(name, command)`: the entry for `name` now holds `command`; no other entry changes. */
    method Register(name: string, command: Command)
      modifies this
      ensures commands == old(commands)[name := command]
      ensures name in commands && commands[name] == command
      ensures forall other :: other != name ==> (other in commands <==> other in old(commands))
      ensures forall other :: other != name && other in old(commands) ==> commands[other] == old(commands)[other]
    {
      commands := commands[name := command];
    }

    /** `get_command(name)`: the registered command, or ValueError(name) exactly when there is none. */
    method GetCommand(name: string) returns (r: Result<Command>)
      ensures r.Ok? <==> name in commands
      ensures r.Ok? ==> r.value == commands[name]
      ensures r.Err? ==> r.error == ValueError(name)
    {
      if name in commands {
        r := Ok(commands[name]);
      } else {
        r := Err(ValueError(name));
      }
    }
  }

  /** `AbstractCommand.__init__`: build the command and register it under its name. */
  method NewCommand(registry: CommandRegistry, name: string, numArgsRequired: int, atLeast: bool, max: int, hook: Hook)
    returns (c: Command)
    modifies registry
    ensures c == Command(name, numArgsRequired, atLeast, max, hook)
    ensures registry.commands == old(registry.commands)[name := c]
  {
    c := Command(name, numArgsRequired, atLeast, max, hook);
    registry.Register(name, c);
  }

  /** `_at_least_max_predicate`: (error?, message) for the "at least N, at most max" mode. */
  function AtLeastMaxPredicate(c: Command, count: nat): (bool, string) {
    var maxArgs := c.max != -1;
    var maxMessage := if maxArgs then " and maximum " + IntToString(c.max) + " arguments" else "";
    (count < c.numArgsRequired || (maxArgs && count > c.max),
     "The " + c.name + " command requires at least " + IntToString(c.numArgsRequired) + " arguments" + maxMessage)
  }

  /** `_at_least_predicate`: the default mode, which only enforces the minimum. */
  function AtLeastPredicate(c: Command, count: nat): (bool, string) {
    (count < c.numArgsRequired,
     "The " + c.name + " command requires " + IntToString(c.numArgsRequired) + " arguments")
  }

  /** `_validate_num_args`: the CommandError raised for `count` arguments, if any. */
  function ValidateNumArgs(c: Command, count: nat): (r: Option<Error>)
    ensures r.Some? ==> r.value.CommandError?
    ensures !c.atLeast ==> (r.Some? <==> count < c.numArgsRequired)
    ensures c.atLeast ==> (r.Some? <==> count < c.numArgsRequired || (c.max != -1 && count > c.max))
  {
    var (error, msg) := if c.atLeast then AtLeastMaxPredicate(c, count) else AtLeastPredicate(c, count);
    if error then Some(CommandError(msg)) else None
  }

  /** The `except` clause of `execute`: a CommandError passes unchanged, anything else is wrapped. */
  function Normalise(e: Error): (r: Error)
    ensures r.CommandError?
    ensures e.CommandError? ==> r == e
    ensures !e.CommandError? ==> r.message == "An unknown error was thrown executing command: " + Describe(e)
  {
    if e.CommandError? then e else CommandError("An unknown error was thrown executing command: " + Describe(e))
  }

  /**
   * `execute(args)` for `count` arguments, given what the `_execute` hook
   * would raise if it ran. The hook's outcome only matters once the count is valid.
   */
  function Execute(c: Command, count: nat, hook: Option<Error>): (r: Option<Error>)
    ensures r.Some? ==> r.value.CommandError?
    ensures ValidateNumArgs(c, count).Some? ==> r == ValidateNumArgs(c, count)
    ensures ValidateNumArgs(c, count).None? ==> (r.None? <==> hook.None?)
  {
    match ValidateNumArgs(c, count)
    case Some(e) => Some(e)
    case None =>
      match hook
      case None => None
      case Some(e) => Some(Normalise(e))
  }

  /** On a count violation the hook is never consulted: every hook outcome gives the same error. */
  lemma ViolationIgnoresHook(c: Command, count: nat, h1: Option<Error>, h2: Option<Error>)
    requires ValidateNumArgs(c, count).Some?
    ensures Execute(c, count, h1) == Execute(c, count, h2)
  {
  }

  /** The default mode accepts any surplus of arguments, whatever `max` says. */
  lemma DefaultModeIgnoresMax(c: Command, count: nat)
    requires !c.atLeast && count >= c.numArgsRequired
    ensures ValidateNumArgs(c, count) == None
  {
  }

  /** The "and maximum" suffix appears in the at-least message exactly when a maximum is set. */
  lemma MaxSuffixOnlyWhenSet(c: Command, count: nat)
    requires c.atLeast
    ensures c.max == -1 ==> AtLeastMaxPredicate(c, count).1 == "The " + c.name + " command requires at least " + IntToString(c.numArgsRequired) + " arguments"
    ensures c.max != -1 ==>
      AtLeastMaxPredicate(c, count).1 == "The " + c.name + " command requires at least " + IntToString(c.numArgsRequired) + " arguments"
        + " and maximum " + IntToString(c.max) + " arguments"
  {
  }
}
