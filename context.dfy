/**
 * The build context (context.py): one object holding the build being run and
 * the step currently executing, reachable through a process-wide slot that
 * `initialise` fills and `teardown` empties.
 */
module Context {
  import opened Errors
  import Models

  /** A `BuildContext`: the `config` and `current_step` properties, each read and written as is. */
  class BuildContext {
    var config: Models.DockerBuild?
    var currentStep: Models.BuildFileObject?

    /** `BuildContext()`: neither property is set. */
    constructor ()
      ensures config == null && currentStep == null
    {
      config := null;
      currentStep := null;
    }

    /** The `config` setter; the getter then returns what was set. */
    method SetConfig(c: Models.DockerBuild?)
      modifies this
      ensures config == c && currentStep == old(currentStep)
    {
      config := c;
    }

    /** The `current_step` setter; `null` is allowed and means no step is running. */
    method SetCurrentStep(s: Models.BuildFileObject?)
      modifies this
      ensures currentStep == s && config == old(config)
    {
      currentStep := s;
    }
  }

  /** The class attribute `BuildContext._INSTANCE`. */
  class ContextSlot {
    var instance: BuildContext?

    /** Before any build the slot is empty. */
    constructor ()
      ensures instance == null
    {
      instance := null;
    }

    /** `BuildContext.context()`: the installed context, or BuildContextError when there is none. */
    method Get() returns (r: Result<BuildContext>)
      ensures r.Ok? <==> instance != null
      ensures r.Ok? ==> r.value == instance
      ensures r.Err? ==> r.error == BuildContextError
    {
      if instance == null {
        r := Err(BuildContextError);
      } else {
        r := Ok(instance);
      }
    }

    /** `initialise()`: install a fresh, empty context and return it; any earlier one is replaced. */
    method Initialise() returns (c: BuildContext)
      modifies this
      ensures fresh(c) && instance == c
      ensures c.config == null && c.currentStep == null
    {
      instance := new BuildContext();
      var got := Get();
      c := got.value;
    }

    /** `teardown()`: the slot is empty afterwards, whatever it held. */
    method Teardown()
      modifies this
      ensures instance == null
    {
      instance := null;
    }
  }

  /** Getters return what the setters last stored, each independently of the other. */
  method SetThenGet(ctx: BuildContext, c: Models.DockerBuild?, s: Models.BuildFileObject?)
    modifies ctx
    ensures ctx.config == c && ctx.currentStep == s
  {
    ctx.SetConfig(c);
    ctx.SetCurrentStep(s);
  }

  /** A repeated `teardown` is harmless, and a later `context()` raises. */
  method TeardownTwice(slot: ContextSlot) returns (r: Result<BuildContext>)
    modifies slot
    ensures slot.instance == null && r == Err(BuildContextError)
  {
    slot.Teardown();
    slot.Teardown();
    r := slot.Get();
  }

  /** A second `initialise` installs a context different from the first. */
  method InitialiseTwice(slot: ContextSlot) returns (first: BuildContext, second: BuildContext)
    modifies slot
    ensures first != second && slot.instance == second
    ensures second.config == null && second.currentStep == null
  {
    first := slot.Initialise();
    second := slot.Initialise();
  }
}
