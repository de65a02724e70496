/**
 * The result of running an external process (process.py:8-28) and the
 * external collaborators the engine talks to, as oracles: the subprocess
 * runner behind `Execution(args).execute()`, the file-system tests and copies
 * of `os.path` and `shutil`, the platform name, and the few environment
 * constants the source reads once at import time.
 */
module Process {
  import opened Errors
  import opened Values

  datatype ExecutionResult = ExecutionResult(exitCode: int, stdout: string, stderr: string) {
    /** `is_healthy()`: the process exited with code 0. */
    predicate IsHealthy() {
      exitCode == 0
    }
  }

  /**
   * Everything outside the process the engine consults.
   * - `run`: the outcome of spawning a command line through the shell (process.py:34-52);
   *   the words are joined with spaces first, so `run([s])` runs the string `s` as it is.
   * - `isDir`, `isFile`: `os.path.isdir`, `os.path.isfile`.
   * - `copyFile`, `copyTree`: the error, if any, of `shutil.copy` and `shutil.copytree`.
   * - `platform`: `platform.system()` before lower-casing.
   * - `bashPath`: the DOCKER_WIZARD_BASH_PATH constant ("" when unset).
   * - `copyOther`: the error, if any, of the copy command's `os.path.isdir` and `shutil` calls
   *   when an argument is an integer or boolean (which `os.stat` takes for a
   *   file descriptor) or the target is not a string.
   * - `customHook`: the error, if any, that a custom command class's `_execute` raises on the
   *   step's `arguments` value, passed as it is.
   */
  datatype Host = Host(
    run: seq<string> -> ExecutionResult,
    isDir: string -> bool,
    isFile: string -> bool,
    copyFile: (string, string) -> Option<Error>,
    copyTree: (string, string) -> Option<Error>,
    platform: string,
    bashPath: string,
    copyOther: (Value, Value) -> Option<Error>,
    customHook: (string, Value) -> Option<Error>
  )
}
