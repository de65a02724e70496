/**
 * Working-directory management (workdir.py): the process's current directory
 * together with the stack of directories that stored changes left behind.
 * The stack's top is the last element of `previous`, as with the deque's
 * `append`/`pop`.
 */
module Workdir {

  /** The directory state as a value: the current directory and the stack. */
  datatype Dirs = Dirs(cwd: string, previous: seq<string>)

  /** The state after `change_directory(directory, not_store)` (workdir.py:17-26). */
  function Changed(s: Dirs, directory: string, notStore: bool): Dirs {
    Dirs(directory, if notStore then s.previous else s.previous + [s.cwd])
  }

  /** The state after `change_back()` (workdir.py:29-35). */
  function Back(s: Dirs): Dirs {
    if |s.previous| == 0 then s
    else Dirs(s.previous[|s.previous| - 1], s.previous[..|s.previous| - 1])
  }

  /** Stored changes into each of `ds`, in order. */
  function ChangeAll(s: Dirs, ds: seq<string>): Dirs
    decreases |ds|
  {
    if ds == [] then s else ChangeAll(Changed(s, ds[0], false), ds[1..])
  }

  /** `n` calls of `change_back()`. */
  function BackTimes(s: Dirs, n: nat): Dirs
    decreases n
  {
    if n == 0 then s else BackTimes(Back(s), n - 1)
  }

  /** A stored change followed by `change_back` restores the directory and the stack. */
  lemma StoredChangeUndone(s: Dirs, directory: string)
    ensures Back(Changed(s, directory, false)) == s
  {
    assert (s.previous + [s.cwd])[..|s.previous|] == s.previous;
  }

  /** A transient change leaves the stack alone, so a following `change_back` undoes something older. */
  lemma TransientChangeNotUndone(s: Dirs, directory: string)
    ensures Changed(s, directory, true).previous == s.previous
    ensures Back(Changed(s, directory, true)) == Back(Dirs(directory, s.previous))
    ensures s.previous == [] ==> Back(Changed(s, directory, true)) == Dirs(directory, [])
  {
  }

  /** Stored changes stack up: each grows the stack by one and records the directory left. */
  lemma {:induction false} ChangeAllPushes(s: Dirs, ds: seq<string>)
    ensures |ChangeAll(s, ds).previous| == |s.previous| + |ds|
    ensures ChangeAll(s, ds).previous[..|s.previous|] == s.previous
    ensures ds != [] ==> ChangeAll(s, ds).cwd == ds[|ds| - 1]
    decreases |ds|
  {
    if ds != [] {
      var t := Changed(s, ds[0], false);
      ChangeAllPushes(t, ds[1..]);
      assert ChangeAll(t, ds[1..]).previous[..|s.previous|] == ChangeAll(t, ds[1..]).previous[..|t.previous|][..|s.previous|];
      if ds[1..] == [] {
        assert ChangeAll(s, ds) == t;
      } else {
        assert ds[1..][|ds[1..]| - 1] == ds[|ds| - 1];
      }
    }
  }

  /** LIFO: after any number of stored changes, as many `change_back` calls return to the start. */
  lemma {:induction false} ChangesUnwind(s: Dirs, ds: seq<string>)
    ensures BackTimes(ChangeAll(s, ds), |ds|) == s
    decreases |ds|
  {
    if ds != [] {
      var t := Changed(s, ds[0], false);
      ChangesUnwind(t, ds[1..]);
      BackTimesSplit(ChangeAll(t, ds[1..]), |ds| - 1);
      StoredChangeUndone(s, ds[0]);
    }
  }

  lemma {:induction false} BackTimesSplit(s: Dirs, n: nat)
    ensures BackTimes(s, n + 1) == Back(BackTimes(s, n))
    decreases n
  {
    if n > 0 {
      BackTimesSplit(Back(s), n - 1);
    }
  }

  /** The process's working directory and the module-level `_previous_directories` deque. */
  class DirectoryStack {
    var cwd: string
    var previous: seq<string>

    function State(): Dirs
      reads this
    {
      Dirs(cwd, previous)
    }

    constructor (cwd: string)
      ensures State() == Dirs(cwd, [])
    {
      this.cwd := cwd;
      previous := [];
    }

    /**
     * `change_directory(directory, not_store)`: a stored change pushes the
     * current directory first; a `not_store` change only moves.
     */
    method ChangeDirectory(directory: string, notStore: bool)
      modifies this
      ensures cwd == directory
      ensures previous == if notStore then old(previous) else old(previous) + [old(cwd)]
      ensures State() == Changed(old(State()), directory, notStore)
    {
      if !notStore {
        var here := GetWorkingDirectory();
        previous := previous + [here];
      }
      cwd := directory;
    }

    /** `change_back()`: pop the most recent directory and move there; nothing when the stack is empty. */
    method ChangeBack()
      modifies this
      ensures old(previous) == [] ==> cwd == old(cwd) && previous == []
      ensures old(previous) != [] ==> cwd == old(previous)[|old(previous)| - 1] && previous == old(previous)[..|old(previous)| - 1]
      ensures State() == Back(old(State()))
    {
      if |previous| != 0 {
        var top := previous[|previous| - 1];
        previous := previous[..|previous| - 1];
        cwd := top;
      }
    }

    /** `get_working_directory()`: the current directory; nothing changes. */
    method GetWorkingDirectory() returns (d: string)
      ensures d == cwd
    {
      d := cwd;
    }
  }

  /** Two stored changes and two `change_back` calls come back to where they started. */
  method ChangeTwiceAndBack(dirs: DirectoryStack, first: string, second: string)
    modifies dirs
    ensures dirs.State() == old(dirs.State())
  {
    dirs.ChangeDirectory(first, false);
    dirs.ChangeDirectory(second, false);
    assert dirs.cwd == second;
    dirs.ChangeBack();
    assert dirs.cwd == first;
    dirs.ChangeBack();
  }
}
