/**
 * The exception kinds the build engine raises or lets through.
 *
 * The first four are the project's own classes (BuildConfigurationError,
 * CommandError, BuildFailedError and the BuildContextError that context.py
 * imports); the rest are the Python built-in exceptions that the engine's
 * code can raise on malformed input (a missing attribute, a value of the
 * wrong type, a missing dictionary key or list index, a failed import, a file-system error).
 */
module Errors {

  datatype Error =
    | BuildConfigurationError(message: string)
    | CommandError(message: string)
    | BuildFailedError
    | BuildContextError
    | ValueError(message: string)
    | SystemError(message: string)
    | OSError(message: string)
    | TypeError(message: string)
    | AttributeError(message: string)
    | KeyError(key: string)
    | IndexError(message: string)
    | ImportError(moduleName: string)
  {
    /** True for the subclasses of the project's BuildError base class. */
    predicate IsBuildError() {
      BuildConfigurationError? || CommandError? || BuildFailedError?
    }
  }

  /** The text `str(e)` gives for an exception. */
  function Describe(e: Error): string {
    match e
    case BuildConfigurationError(m) => m
    case CommandError(m) => m
    case BuildFailedError => ""
    case BuildContextError => ""
    case ValueError(m) => m
    case SystemError(m) => m
    case OSError(m) => m
    case TypeError(m) => m
    case AttributeError(m) => m
    case KeyError(k) => "'" + k + "'"
    case IndexError(m) => m
    case ImportError(m) => "No module named '" + m + "'"
  }

  datatype Option<+T> = None | Some(value: T)

  datatype Result<+T> = Ok(value: T) | Err(error: Error) {
    predicate IsFailure() { Err? }
    function PropagateFailure<U>(): Result<U>
      requires Err?
    {
      Err(error)
    }
    function Extract(): T
      requires Ok?
    {
      value
    }
  }
}
