/**
 * Operating-system detection and the start-up initialisation registry
 * (system.py). The platform name that `platform.system()` reports and the
 * environment are parameters; the registry is the module-level list of
 * initialisations, which `register_system_initialisation` appends to and
 * `initialise_system` walks.
 */
module System {
  import opened Errors
  import opened Text

  /** `OSTypes` and their values. `All` matches every system. */
  datatype OSType = Windows | Linux | Mac | All {
    function Value(): string {
      match this
      case Windows => "windows"
      case Linux => "linux"
      case Mac => "darwin"
      case All => "*"
    }
  }

  /** `_system()`: the platform name, lower-cased. */
  function SystemName(platform: string): string {
    Lower(platform)
  }

  predicate IsWindows(platform: string) {
    SystemName(platform) == Windows.Value()
  }

  predicate IsLinux(platform: string) {
    SystemName(platform) == Linux.Value()
  }

  predicate IsMac(platform: string) {
    SystemName(platform) == Mac.Value()
  }

  /** At most one of the three tests holds on any platform. */
  lemma PlatformsExclusive(platform: string)
    ensures !(IsWindows(platform) && IsLinux(platform))
    ensures !(IsWindows(platform) && IsMac(platform))
    ensures !(IsLinux(platform) && IsMac(platform))
  {
    assert Windows.Value()[0] != Linux.Value()[0];
    assert Windows.Value()[0] != Mac.Value()[0];
    assert Linux.Value()[0] != Mac.Value()[0];
  }

  /** The tests ignore letter case: "Windows", "WINDOWS" and "windows" are the same system. */
  lemma PlatformCaseIgnored(platform: string)
    ensures IsWindows(platform) <==> |platform| == 7 && forall i :: 0 <= i < 7 ==> LowerChar(platform[i]) == "windows"[i]
  {
    if |platform| == 7 && forall i :: 0 <= i < 7 ==> LowerChar(platform[i]) == "windows"[i] {
      assert Lower(platform) == "windows";
    }
  }

  /** What a start-up callback is: the built-in home-directory check, or a callback another module registered. */
  datatype Callback = DockerWizardHomeCheck | Registered(id: nat)

  /** A `SystemInitialisation`: the OS value it is meant for and its callback. */
  datatype SystemInitialisation = SystemInitialisation(osType: string, callback: Callback)

  /** `SystemInitialisation(os_type, callback)`: the enum is stored by its value. */
  function NewInitialisation(osType: OSType, callback: Callback): (r: SystemInitialisation)
    ensures r.osType == osType.Value() && r.callback == callback
  {
    SystemInitialisation(osType.Value(), callback)
  }

  /** Whether `initialise()` runs the callback on this platform. */
  predicate Applies(init: SystemInitialisation, platform: string) {
    init.osType == All.Value() || SystemName(platform) == init.osType
  }

  /** `docker_wizard_home()`: the DOCKER_WIZARD_HOME directory, or SystemError. */
  function DockerWizardHome(env: map<string, string>, isDir: string -> bool): (r: Result<string>)
    ensures r.Ok? <==> "DOCKER_WIZARD_HOME" in env && env["DOCKER_WIZARD_HOME"] != "" && isDir(env["DOCKER_WIZARD_HOME"])
    ensures r.Ok? ==> r.value == env["DOCKER_WIZARD_HOME"]
    ensures r.Err? ==> r.error.SystemError?
  {
    var v := if "DOCKER_WIZARD_HOME" in env then env["DOCKER_WIZARD_HOME"] else "";
    if v == "" then Err(SystemError("DOCKER_WIZARD_HOME needs to be set to the base of the project"))
    else if !isDir(v) then Err(SystemError("DOCKER_WIZARD_HOME " + v + " is not a directory"))
    else Ok(v)
  }

  /**
   * Everything a callback needs: the environment and directory test for the
   * built-in check, and the exception, if any, each registered callback raises.
   */
  datatype Machine = Machine(platform: string, env: map<string, string>, isDir: string -> bool, registeredError: nat -> Option<Error>)

  /** The exception a callback raises when it runs. */
  function CallbackError(cb: Callback, m: Machine): Option<Error> {
    match cb
    case DockerWizardHomeCheck =>
      var home := DockerWizardHome(m.env, m.isDir);
      if home.Err? then Some(home.error) else None
    case Registered(id) => m.registeredError(id)
  }

  /**
   * `initialise_system()` as a value: the callbacks that ran, in order, and the
   * exception that stopped the walk, if any.
   */
  function RunAll(inits: seq<SystemInitialisation>, m: Machine): (seq<Callback>, Option<Error>)
    decreases |inits|
  {
    if inits == [] then ([], None)
    else if !Applies(inits[0], m.platform) then RunAll(inits[1..], m)
    else
      var e := CallbackError(inits[0].callback, m);
      if e.Some? then ([inits[0].callback], e)
      else
        var (rest, err) := RunAll(inits[1..], m);
        ([inits[0].callback] + rest, err)
  }

  /** The callbacks of the entries that apply to this platform, in registration order. */
  function Applicable(inits: seq<SystemInitialisation>, platform: string): seq<Callback>
    decreases |inits|
  {
    if inits == [] then []
    else (if Applies(inits[0], platform) then [inits[0].callback] else []) + Applicable(inits[1..], platform)
  }

  /** Without an exception, every applicable callback runs once, in registration order, and no other. */
  lemma {:induction false} RunAllCallsApplicable(inits: seq<SystemInitialisation>, m: Machine)
    requires RunAll(inits, m).1.None?
    ensures RunAll(inits, m).0 == Applicable(inits, m.platform)
    decreases |inits|
  {
    if inits != [] {
      RunAllCallsApplicable(inits[1..], m);
    }
  }

  /** The walk stops at the first callback that raises: what ran is a prefix of the applicable callbacks. */
  lemma {:induction false} RunAllStopsAtError(inits: seq<SystemInitialisation>, m: Machine)
    requires RunAll(inits, m).1.Some?
    ensures |RunAll(inits, m).0| >= 1
    ensures RunAll(inits, m).0 <= Applicable(inits, m.platform)
    decreases |inits|
  {
    if inits != [] && !(Applies(inits[0], m.platform) && CallbackError(inits[0].callback, m).Some?) {
      RunAllStopsAtError(inits[1..], m);
    }
  }

  /** ... and the exception is the one the last callback that ran raises. */
  lemma {:induction false} RunAllErrorIsLast(inits: seq<SystemInitialisation>, m: Machine)
    requires RunAll(inits, m).1.Some?
    ensures |RunAll(inits, m).0| >= 1
    ensures RunAll(inits, m).1 == CallbackError(RunAll(inits, m).0[|RunAll(inits, m).0| - 1], m)
    decreases |inits|
  {
    if inits != [] && !(Applies(inits[0], m.platform) && CallbackError(inits[0].callback, m).Some?) {
      RunAllErrorIsLast(inits[1..], m);
    }
  }

  /** An initialisation for all systems always runs; one for another system never does. */
  lemma ApplicabilityRules(callback: Callback, os: OSType, platform: string)
    ensures Applies(NewInitialisation(All, callback), platform)
    ensures Applies(NewInitialisation(os, callback), platform) <==> os == All || SystemName(platform) == os.Value()
  {
  }

  /** The module-level `_initialisations` list. */
  class InitialisationRegistry {
    var inits: seq<SystemInitialisation>

    /** At import time the list holds the home-directory check, for all systems. */
    constructor ()
      ensures inits == [NewInitialisation(All, DockerWizardHomeCheck)]
    {
      inits := [NewInitialisation(All, DockerWizardHomeCheck)];
    }

    /** `register_system_initialisation(i)`: appended at the end; earlier entries unchanged. */
    method Register(init: SystemInitialisation)
      modifies this
      ensures inits == old(inits) + [init]
      ensures inits[..|old(inits)|] == old(inits)
    {
      inits := inits + [init];
    }

    /** `initialise_system()`: `initialise()` on every entry, in order; a callback's exception ends the walk. */
    method InitialiseSystem(m: Machine) returns (called: seq<Callback>, err: Option<Error>)
      ensures (called, err) == RunAll(inits, m)
    {
      called := [];
      err := None;
      var i := 0;
      assert inits[0..] == inits;
      while i < |inits|
        invariant 0 <= i <= |inits|
        invariant RunAll(inits, m).0 == called + RunAll(inits[i..], m).0
        invariant RunAll(inits, m).1 == RunAll(inits[i..], m).1
      {
        RunAllFrom(inits, i, m);
        var cb := Initialise(inits[i], m);
        if cb.Some? {
          var e := CallbackError(cb.value, m);
          called := called + [cb.value];
          if e.Some? {
            err := e;
            return;
          }
        }
        i := i + 1;
      }
      assert inits[i..] == [] && called + [] == called;
    }
  }

  /** One entry of the walk: it is skipped, stops the walk, or runs before the rest. */
  lemma RunAllFrom(inits: seq<SystemInitialisation>, i: nat, m: Machine)
    requires i < |inits|
    ensures !Applies(inits[i], m.platform) ==> RunAll(inits[i..], m) == RunAll(inits[i + 1..], m)
    ensures Applies(inits[i], m.platform) && CallbackError(inits[i].callback, m).Some? ==>
      RunAll(inits[i..], m) == ([inits[i].callback], CallbackError(inits[i].callback, m))
    ensures Applies(inits[i], m.platform) && CallbackError(inits[i].callback, m).None? ==>
      RunAll(inits[i..], m) == ([inits[i].callback] + RunAll(inits[i + 1..], m).0, RunAll(inits[i + 1..], m).1)
  {
    assert inits[i..][1..] == inits[i + 1..];
  }

  /** `SystemInitialisation.initialise()`: the callback that runs, if the entry applies. */
  method Initialise(init: SystemInitialisation, m: Machine) returns (ran: Option<Callback>)
    ensures ran.Some? <==> init.osType == "*" || Lower(m.platform) == init.osType
    ensures ran.Some? ==> ran.value == init.callback
  {
    if init.osType == All.Value() || SystemName(m.platform) == init.osType {
      ran := Some(init.callback);
    } else {
      ran := None;
    }
  }
}
