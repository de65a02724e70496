/**
 * The build model (models.py): property setters that copy values out of a
 * `BuildFileData` node onto a build-file object, and the File, BuildStep and
 * DockerBuild objects they populate.
 *
 * A Python object's attributes are a map from attribute name to value, so
 * `hasattr` is membership and `setattr` is a map update. Each object carries
 * a `tag_name` attribute like its Python counterpart.
 */
module Models {
  import opened Errors
  import opened Text
  import opened Values

  type Attrs = map<string, Value>

  /** The `validate` callable of a setter: none, or `validate_file_library` of DockerBuild. */
  datatype Validator = NoValidation | LibraryDirectory

  /** The `on_error` callable of a setter: none, or `throw_property_error`. */
  datatype ErrorHandler = NoHandler | ThrowPropertyError

  datatype PropertySetter = PropertySetter(name: string, required: bool, validate: Validator, onError: ErrorHandler)

  /** An object's attributes after an update, and the exception that stopped it, if any. */
  datatype Applied = Applied(attrs: Attrs, error: Option<Error>)

  /** `set_property(name, value)` (models.py:59-71). */
  function SetPropertyValue(attrs: Attrs, name: string, value: Value): Applied {
    if name in attrs then
      Applied(if value.Null? then attrs else attrs[name := value], None)
    else
      Applied(attrs, Some(ValueError("Property " + name + " is not valid")))
  }

  /** The message of a required property that is missing or falsy: "{name} not found". */
  function NotFound(name: string): string {
    name + " not found"
  }

  /** `_error(e)`: the exception the handler raises, if it raises one. */
  function Raise(handler: ErrorHandler, message: string): (r: Option<Error>)
    ensures r.Some? <==> handler == ThrowPropertyError
    ensures r.Some? ==> r.value == BuildConfigurationError(message)
  {
    match handler
    case NoHandler => None
    case ThrowPropertyError => Some(BuildConfigurationError(message))  // throw_property_error
  }

  /**
   * Running a validator: the message it returns, or the exception it raises.
   * `os.path.isdir` answers for strings; it refuses None and containers with a
   * TypeError; an integer is a file descriptor, taken here not to be a directory.
   */
  function Validate(v: Validator, value: Value, isDir: string -> bool): Result<Option<string>> {
    match v
    case NoValidation => Ok(None)
    case LibraryDirectory =>
      match value
      case Str(p) => Ok(if isDir(p) then None else Some(p + " is not a directory"))
      case Int(_) => Ok(Some(Display(value) + " is not a directory"))
      case Bool(_) => Ok(Some(Display(value) + " is not a directory"))
      case _ => Err(TypeError("stat: path should be string, bytes, os.PathLike or integer, not " + TypeName(value)))
  }

  /** `PropertySetter.process` exactly as models.py:101-112 has it: the validator also sees None. */
  function ProcessAsWritten(setter: PropertySetter, node: seq<Entry>, attrs: Attrs, isDir: string -> bool): Applied {
    var value := GetProperty(node, setter.name);
    if setter.required && !Truthy(value) then
      Applied(attrs, Raise(setter.onError, NotFound(setter.name)))
    else
      match Validate(setter.validate, value, isDir)
      case Err(e) => Applied(attrs, Some(e))
      case Ok(Some(message)) => Applied(attrs, Raise(setter.onError, message))
      case Ok(None) => SetPropertyValue(attrs, setter.name, value)
  }

  /** `PropertySetter.process` with the absent (None) value never validated. */
  function Process(setter: PropertySetter, node: seq<Entry>, attrs: Attrs, isDir: string -> bool): Applied {
    var value := GetProperty(node, setter.name);
    if setter.required && !Truthy(value) then
      Applied(attrs, Raise(setter.onError, NotFound(setter.name)))
    else
      var verdict: Result<Option<string>> := if value.Null? then Ok(None) else Validate(setter.validate, value, isDir);
      match verdict
      case Err(e) => Applied(attrs, Some(e))
      case Ok(Some(message)) => Applied(attrs, Raise(setter.onError, message))
      case Ok(None) => SetPropertyValue(attrs, setter.name, value)
  }

  /** `set_properties(setters, target)`: the setters in order, until one raises. */
  function ApplySetters(setters: seq<PropertySetter>, node: seq<Entry>, attrs: Attrs, isDir: string -> bool): Applied
    decreases |setters|
  {
    if setters == [] then Applied(attrs, None)
    else
      var a := Process(setters[0], node, attrs, isDir);
      if a.error.Some? then a else ApplySetters(setters[1..], node, a.attrs, isDir)
  }

  /** `set_property` assigns existing attributes, keeps them on None, and refuses unknown ones. */
  lemma SetPropertyRules(attrs: Attrs, name: string, value: Value)
    ensures name !in attrs ==> SetPropertyValue(attrs, name, value) == Applied(attrs, Some(ValueError("Property " + name + " is not valid")))
    ensures name in attrs && value.Null? ==> SetPropertyValue(attrs, name, value) == Applied(attrs, None)
    ensures name in attrs && !value.Null? ==> SetPropertyValue(attrs, name, value).attrs[name] == value
    ensures SetPropertyValue(attrs, name, value).attrs.Keys == attrs.Keys
    ensures forall other :: other != name && other in attrs ==> SetPropertyValue(attrs, name, value).attrs[other] == attrs[other]
  {
  }

  /** A required property with a falsy value reports "{name} not found" and leaves the target alone. */
  lemma RequiredMissing(setter: PropertySetter, node: seq<Entry>, attrs: Attrs, isDir: string -> bool)
    requires setter.required && !Truthy(GetProperty(node, setter.name))
    ensures Process(setter, node, attrs, isDir).attrs == attrs
    ensures Process(setter, node, attrs, isDir).error == Raise(setter.onError, NotFound(setter.name))
  {
  }

  /** A message from the validator goes to the handler and nothing is assigned. */
  lemma ValidationMessage(setter: PropertySetter, node: seq<Entry>, attrs: Attrs, isDir: string -> bool, message: string)
    requires !(setter.required && !Truthy(GetProperty(node, setter.name)))
    requires !GetProperty(node, setter.name).Null?
    requires Validate(setter.validate, GetProperty(node, setter.name), isDir) == Ok(Some(message))
    ensures Process(setter, node, attrs, isDir) == Applied(attrs, Raise(setter.onError, message))
  {
  }

  /** Setters run in list order: applying `first + rest` is applying `first`, then `rest` if nothing was raised. */
  lemma {:induction false} ApplySettersAppend(first: seq<PropertySetter>, rest: seq<PropertySetter>, node: seq<Entry>, attrs: Attrs, isDir: string -> bool)
    ensures ApplySetters(first + rest, node, attrs, isDir) ==
      var a := ApplySetters(first, node, attrs, isDir);
      if a.error.Some? then a else ApplySetters(rest, node, a.attrs, isDir)
    decreases |first|
  {
    if first == [] {
      assert first + rest == rest;
    } else {
      assert (first + rest)[1..] == first[1..] + rest;
      var a := Process(first[0], node, attrs, isDir);
      if a.error.None? {
        ApplySettersAppend(first[1..], rest, node, a.attrs, isDir);
      }
    }
  }

  /** Only attributes the object already has are ever written, and none is ever removed. */
  lemma {:induction false} ApplySettersKeepsKeys(setters: seq<PropertySetter>, node: seq<Entry>, attrs: Attrs, isDir: string -> bool)
    ensures ApplySetters(setters, node, attrs, isDir).attrs.Keys == attrs.Keys
    decreases |setters|
  {
    if setters != [] {
      var a := Process(setters[0], node, attrs, isDir);
      assert a.attrs.Keys == attrs.Keys;
      if a.error.None? {
        ApplySettersKeepsKeys(setters[1..], node, a.attrs, isDir);
      }
    }
  }

  /** The two kinds of object built from a list entry. */
  datatype Kind = FileKind | StepKind

  /** `File.__init__` (models.py:155-158) and `BuildStep.__init__` (models.py:190-194). */
  function Defaults(kind: Kind): Attrs {
    match kind
    case FileKind => map["tag_name" := Null, "path" := Str(""), "relative_to_library" := Bool(true)]
    case StepKind => map["tag_name" := Null, "name" := Null, "command" := Str(""), "arguments" := List([])]
  }

  /** The setters of `File.do_initialise` (models.py:160-166) and `BuildStep.do_initialise` (models.py:196-203). */
  function Setters(kind: Kind): seq<PropertySetter> {
    match kind
    case FileKind => [PropertySetter("path", true, NoValidation, ThrowPropertyError),
                      PropertySetter("relative_to_library", false, NoValidation, NoHandler)]
    case StepKind => [PropertySetter("name", false, NoValidation, ThrowPropertyError),
                      PropertySetter("command", true, NoValidation, ThrowPropertyError),
                      PropertySetter("arguments", true, NoValidation, ThrowPropertyError)]
  }

  /** The error `Files` (models.py:181) and `BuildSteps` (models.py:218) raise when their key is absent. */
  function MissingListMessage(kind: Kind): string {
    match kind
    case FileKind => "Attempted to initialise files but files does not exist in BuildFileData"
    case StepKind => "Attempted to initialise steps but steps does not exist in BuildFileData"
  }

  /** `obj.initialise(data)` on an object whose attributes are `attrs`: `data` must be a BuildFileData. */
  function ObjectInit(setters: seq<PropertySetter>, data: Value, attrs: Attrs, isDir: string -> bool): Applied {
    if data.Data? then ApplySetters(setters, data.fields, attrs, isDir)
    else Applied(attrs, Some(AttributeError("'" + TypeName(data) + "' object has no attribute 'set_properties'")))
  }

  /** `Kind().initialise(e)` on a fresh object, as a function of the entry. */
  function Initialiser(setters: seq<PropertySetter>, defaults: Attrs, isDir: string -> bool): Value -> Applied {
    (e: Value) => ObjectInit(setters, e, defaults, isDir)
  }

  /** Objects initialised from each entry, in order, until one raises. */
  function InitAll(init: Value -> Applied, entries: seq<Value>): Result<seq<Attrs>>
    decreases |entries|
  {
    if entries == [] then Ok([])
    else
      var a := init(entries[0]);
      if a.error.Some? then Err(a.error.value)
      else
        match InitAll(init, entries[1..])
        case Err(e) => Err(e)
        case Ok(rest) => Ok([a.attrs] + rest)
  }

  /** `Files().initialise(...)` (models.py:177-183) and `BuildSteps().initialise(...)` (models.py:214-220). */
  function ListSpec(kind: Kind, list: Value, isDir: string -> bool): Result<seq<Attrs>> {
    if list.Null? then
      Err(BuildConfigurationError(MissingListMessage(kind)))
    else
      match Iterate(list)
      case Err(e) => Err(e)
      case Ok(entries) => InitAll(Initialiser(Setters(kind), Defaults(kind), isDir), entries)
  }

  /** The list succeeds exactly when every entry does, and then holds one object per entry, in order. */
  lemma {:induction false} InitAllElementwise(init: Value -> Applied, entries: seq<Value>)
    ensures InitAll(init, entries).Ok? <==> forall i :: 0 <= i < |entries| ==> init(entries[i]).error.None?
    ensures InitAll(init, entries).Ok? ==>
      |InitAll(init, entries).value| == |entries| &&
      forall i :: 0 <= i < |entries| ==> InitAll(init, entries).value[i] == init(entries[i]).attrs
    decreases |entries|
  {
    if entries != [] {
      InitAllElementwise(init, entries[1..]);
      assert forall i :: 1 <= i < |entries| ==> entries[i] == entries[1..][i - 1];
    }
  }

  /** A failing list reports the error of its first failing entry; the entries before it were accepted. */
  lemma {:induction false} InitAllFirstError(init: Value -> Applied, entries: seq<Value>)
    requires InitAll(init, entries).Err?
    ensures exists i ::
      0 <= i < |entries| && init(entries[i]).error == Some(InitAll(init, entries).error) &&
      (forall j :: 0 <= j < i ==> init(entries[j]).error.None?)
    decreases |entries|
  {
    if init(entries[0]).error.None? {
      InitAllFirstError(init, entries[1..]);
      var i :| 0 <= i < |entries[1..]| && init(entries[1..][i]).error == Some(InitAll(init, entries[1..]).error) &&
        forall j :: 0 <= j < i ==> init(entries[1..][j]).error.None?;
      assert entries[i + 1] == entries[1..][i];
      forall j | 0 <= j < i + 1
        ensures init(entries[j]).error.None?
      {
        if j > 0 {
          assert entries[j] == entries[1..][j - 1];
        }
      }
    }
  }

  /** A File entry without a usable `path` is a configuration error. */
  lemma FileNeedsPath(node: seq<Entry>, attrs: Attrs, isDir: string -> bool)
    requires !Truthy(GetProperty(node, "path"))
    ensures ObjectInit(Setters(FileKind), Data(node), attrs, isDir) == Applied(attrs, Some(BuildConfigurationError(NotFound("path"))))
  {
  }

  /** A File keeps an explicit `relative_to_library: False` and takes the given path. */
  lemma FileStoresFlags(node: seq<Entry>, path: string, flag: bool, isDir: string -> bool)
    requires GetProperty(node, "path") == Str(path) && path != ""
    requires GetProperty(node, "relative_to_library") == Bool(flag)
    ensures ObjectInit(Setters(FileKind), Data(node), Defaults(FileKind), isDir) ==
      Applied(Defaults(FileKind)["path" := Str(path)]["relative_to_library" := Bool(flag)], None)
  {
    var setters := Setters(FileKind);
    var a := Process(setters[0], node, Defaults(FileKind), isDir);
    assert a == Applied(Defaults(FileKind)["path" := Str(path)], None);
    var b := Process(setters[1], node, a.attrs, isDir);
    assert b == Applied(a.attrs["relative_to_library" := Bool(flag)], None);
    assert setters[1..][1..] == [];
    assert ApplySetters(setters[1..], node, a.attrs, isDir) == b;
  }

  /** A File entry that omits `relative_to_library` stays relative to the library. */
  lemma FileDefaultsRelative(node: seq<Entry>, path: string, isDir: string -> bool)
    requires GetProperty(node, "path") == Str(path) && path != ""
    requires GetProperty(node, "relative_to_library") == Null
    ensures ObjectInit(Setters(FileKind), Data(node), Defaults(FileKind), isDir) ==
      Applied(Defaults(FileKind)["path" := Str(path)], None)
  {
    var setters := Setters(FileKind);
    var a := Process(setters[0], node, Defaults(FileKind), isDir);
    assert a == Applied(Defaults(FileKind)["path" := Str(path)], None);
    var b := Process(setters[1], node, a.attrs, isDir);
    assert b == Applied(a.attrs, None);
    assert setters[1..][1..] == [];
    assert ApplySetters(setters[1..], node, a.attrs, isDir) == b;
  }

  /** A step must name a command and give non-empty arguments; an empty list is falsy and refused. */
  lemma StepNeedsArguments(node: seq<Entry>, isDir: string -> bool)
    requires Truthy(GetProperty(node, "command"))
    requires GetProperty(node, "arguments") == List([])
    ensures ObjectInit(Setters(StepKind), Data(node), Defaults(StepKind), isDir).error == Some(BuildConfigurationError(NotFound("arguments")))
  {
    var setters := Setters(StepKind);
    PlainSetter(setters[0], node, Defaults(StepKind), isDir);
    var a := Process(setters[0], node, Defaults(StepKind), isDir);
    assert "command" in a.attrs;
    PlainSetter(setters[1], node, a.attrs, isDir);
    var b := Process(setters[1], node, a.attrs, isDir);
    RequiredMissing(setters[2], node, b.attrs, isDir);
    assert setters[1..][1..] == [setters[2]];
    assert setters[2..][1..] == [];
    assert ApplySetters(setters[2..], node, b.attrs, isDir).error == Process(setters[2], node, b.attrs, isDir).error;
  }

  /** A setter without a validator whose value passes the required test assigns it (or keeps the default on None). */
  lemma PlainSetter(setter: PropertySetter, node: seq<Entry>, attrs: Attrs, isDir: string -> bool)
    requires setter.validate == NoValidation && setter.name in attrs
    requires !(setter.required && !Truthy(GetProperty(node, setter.name)))
    ensures Process(setter, node, attrs, isDir) ==
      Applied(if GetProperty(node, setter.name).Null? then attrs else attrs[setter.name := GetProperty(node, setter.name)], None)
  {
  }

  /** A step without a `name` keeps the default None; the rest comes from the entry. */
  lemma StepNameOptional(node: seq<Entry>, isDir: string -> bool)
    requires GetProperty(node, "name").Null?
    requires Truthy(GetProperty(node, "command")) && Truthy(GetProperty(node, "arguments"))
    ensures ObjectInit(Setters(StepKind), Data(node), Defaults(StepKind), isDir) ==
      Applied(Defaults(StepKind)["command" := GetProperty(node, "command")]["arguments" := GetProperty(node, "arguments")], None)
  {
    var setters := Setters(StepKind);
    PlainSetter(setters[0], node, Defaults(StepKind), isDir);
    var a := Process(setters[0], node, Defaults(StepKind), isDir);
    PlainSetter(setters[1], node, a.attrs, isDir);
    var b := Process(setters[1], node, a.attrs, isDir);
    PlainSetter(setters[2], node, b.attrs, isDir);
    var c := Process(setters[2], node, b.attrs, isDir);
    assert setters[1..][1..] == [setters[2]];
    assert setters[2..][1..] == [];
    assert ApplySetters(setters[2..], node, b.attrs, isDir) == c;
    assert ApplySetters(setters[1..], node, a.attrs, isDir) == c;
  }

  /** The list key must be present, even when the list would be empty. */
  lemma ListKeyRequired(kind: Kind, isDir: string -> bool)
    ensures ListSpec(kind, Null, isDir).Err?
    ensures ListSpec(kind, List([]), isDir) == Ok([])
  {
  }

  /** A build-file object: the attributes `set_property` reads and writes. */
  class BuildFileObject {
    var attrs: Attrs

    constructor (attrs: Attrs)
      ensures this.attrs == attrs
    {
      this.attrs := attrs;
    }

    /** `set_property(name, value)`. */
    method SetProperty(name: string, value: Value) returns (err: Option<Error>)
      modifies this
      ensures Applied(attrs, err) == SetPropertyValue(old(attrs), name, value)
    {
      if name in attrs {
        if !value.Null? {
          attrs := attrs[name := value];
        }
        err := None;
      } else {
        err := Some(ValueError("Property " + name + " is not valid"));
      }
    }

    /** `setter.process(data, self)`. */
    method ProcessSetter(setter: PropertySetter, node: seq<Entry>, isDir: string -> bool) returns (err: Option<Error>)
      modifies this
      ensures Applied(attrs, err) == Process(setter, node, old(attrs), isDir)
    {
      var value := GetProperty(node, setter.name);
      if setter.required && !Truthy(value) {
        err := Raise(setter.onError, NotFound(setter.name));
        return;
      }
      var verdict: Result<Option<string>> := if value.Null? then Ok(None) else Validate(setter.validate, value, isDir);
      match verdict {
        case Err(e) =>
          err := Some(e);
        case Ok(Some(message)) =>
          err := Raise(setter.onError, message);
        case Ok(None) =>
          err := SetProperty(setter.name, value);
      }
    }
  }

  /** `data.set_properties(setters, target)`: the setters one by one; the first exception stops the loop. */
  method SetProperties(node: seq<Entry>, setters: seq<PropertySetter>, target: BuildFileObject, isDir: string -> bool)
    returns (err: Option<Error>)
    modifies target
    ensures Applied(target.attrs, err) == ApplySetters(setters, node, old(target.attrs), isDir)
  {
    var i := 0;
    while i < |setters|
      invariant 0 <= i <= |setters|
      invariant ApplySetters(setters[i..], node, target.attrs, isDir) == ApplySetters(setters, node, old(target.attrs), isDir)
    {
      assert setters[i..][1..] == setters[i + 1..];
      err := target.ProcessSetter(setters[i], node, isDir);
      if err.Some? {
        return;
      }
      i := i + 1;
    }
    err := None;
  }

  /** `obj.initialise(data)` for a File or a BuildStep. */
  method InitialiseObject(obj: BuildFileObject, setters: seq<PropertySetter>, data: Value, isDir: string -> bool) returns (err: Option<Error>)
    modifies obj
    ensures Applied(obj.attrs, err) == ObjectInit(setters, data, old(obj.attrs), isDir)
  {
    if !data.Data? {
      err := Some(AttributeError("'" + TypeName(data) + "' object has no attribute 'set_properties'"));
      return;
    }
    err := SetProperties(data.fields, setters, obj, isDir);
  }

  /** The attributes of each object, in order. */
  function AttrsOf(objs: seq<BuildFileObject>): (r: seq<Attrs>)
    reads objs
    ensures |r| == |objs|
    ensures forall i :: 0 <= i < |objs| ==> r[i] == objs[i].attrs
  {
    if objs == [] then [] else [objs[0].attrs] + AttrsOf(objs[1..])
  }

  /** `Files().initialise(...).files` and `BuildSteps().initialise(...).steps`: one fresh object per entry. */
  method InitialiseList(kind: Kind, list: Value, isDir: string -> bool) returns (objs: seq<BuildFileObject>, err: Option<Error>)
    ensures err.None? <==> ListSpec(kind, list, isDir).Ok?
    ensures err.None? ==> AttrsOf(objs) == ListSpec(kind, list, isDir).value
    ensures err.Some? ==> err.value == ListSpec(kind, list, isDir).error
    ensures forall o :: o in objs ==> fresh(o)
  {
    if list.Null? {
      objs := [];
      err := Some(BuildConfigurationError(MissingListMessage(kind)));
      return;
    }
    var iterated := Iterate(list);
    if iterated.Err? {
      objs := [];
      err := Some(iterated.error);
      return;
    }
    objs, err := InitialiseEntries(Setters(kind), Defaults(kind), iterated.value, isDir);
  }

  /** The comprehension `[Kind().initialise(e) for e in entries]`. */
  method InitialiseEntries(setters: seq<PropertySetter>, defaults: Attrs, entries: seq<Value>, isDir: string -> bool) returns (objs: seq<BuildFileObject>, err: Option<Error>)
    ensures err.None? <==> InitAll(Initialiser(setters, defaults, isDir), entries).Ok?
    ensures err.None? ==> AttrsOf(objs) == InitAll(Initialiser(setters, defaults, isDir), entries).value
    ensures err.Some? ==> err.value == InitAll(Initialiser(setters, defaults, isDir), entries).error
    ensures forall o :: o in objs ==> fresh(o)
  {
    objs, err := InitialiseEach(Initialiser(setters, defaults, isDir), setters, defaults, entries, isDir);
  }

  /** The loop of the comprehension, against `init`, the function one entry's initialisation computes. */
  method InitialiseEach(ghost init: Value -> Applied, setters: seq<PropertySetter>, defaults: Attrs, entries: seq<Value>, isDir: string -> bool)
    returns (objs: seq<BuildFileObject>, err: Option<Error>)
    requires forall e :: init(e) == ObjectInit(setters, e, defaults, isDir)
    ensures err.None? <==> InitAll(init, entries).Ok?
    ensures err.None? ==> AttrsOf(objs) == InitAll(init, entries).value
    ensures err.Some? ==> err.value == InitAll(init, entries).error
    ensures forall o :: o in objs ==> fresh(o)
  {
    ghost var whole := InitAll(init, entries);
    objs := [];
    err := None;
    var i := 0;
    InitAllStart(init, entries);
    while i < |entries|
      invariant 0 <= i <= |entries|
      invariant |objs| == i
      invariant forall o :: o in objs ==> fresh(o)
      invariant whole == Prepended(AttrsOf(objs), InitAll(init, entries[i..]))
      invariant err.None?
    {
      ghost var done := AttrsOf(objs);
      var obj, e := NewObject(setters, defaults, entries[i], isDir);
      assert AttrsOf(objs) == done;
      InitAllStep(init, entries, i, done, Applied(obj.attrs, e));
      if e.Some? {
        err := e;
        return;
      }
      assert AttrsOf(objs + [obj]) == done + [obj.attrs];
      objs := objs + [obj];
      i := i + 1;
    }
    InitAllEnd(init, entries, AttrsOf(objs));
  }

  lemma InitAllStart(init: Value -> Applied, entries: seq<Value>)
    ensures InitAll(init, entries) == Prepended([], InitAll(init, entries[0..]))
  {
    assert entries[0..] == entries;
    if InitAll(init, entries).Ok? {
      assert [] + InitAll(init, entries).value == InitAll(init, entries).value;
    }
  }

  lemma InitAllEnd(init: Value -> Applied, entries: seq<Value>, done: seq<Attrs>)
    ensures Prepended(done, InitAll(init, entries[|entries|..])) == Ok(done)
  {
    assert entries[|entries|..] == [];
    assert done + [] == done;
  }

  /** One entry of the loop: a failing entry ends the list with its error, an accepted one joins the prefix. */
  lemma InitAllStep(init: Value -> Applied, entries: seq<Value>, i: nat, done: seq<Attrs>, a: Applied)
    requires i < |entries| && a == init(entries[i])
    ensures a.error.Some? ==> Prepended(done, InitAll(init, entries[i..])) == Err(a.error.value)
    ensures a.error.None? ==> Prepended(done, InitAll(init, entries[i..])) == Prepended(done + [a.attrs], InitAll(init, entries[i + 1..]))
  {
    InitAllUnfold(init, entries, i);
    PrependedAppend(done, [a.attrs], InitAll(init, entries[i + 1..]));
  }

  /** `Kind().initialise(entry)`: a fresh object with the class defaults, then populated from the entry. */
  method NewObject(setters: seq<PropertySetter>, defaults: Attrs, entry: Value, isDir: string -> bool) returns (obj: BuildFileObject, err: Option<Error>)
    ensures fresh(obj)
    ensures Applied(obj.attrs, err) == ObjectInit(setters, entry, defaults, isDir)
  {
    obj := new BuildFileObject(defaults);
    err := InitialiseObject(obj, setters, entry, isDir);
  }

  lemma InitAllUnfold(init: Value -> Applied, entries: seq<Value>, i: nat)
    requires i < |entries|
    ensures InitAll(init, entries[i..]) ==
      var a := init(entries[i]);
      if a.error.Some? then Err(a.error.value) else Prepended([a.attrs], InitAll(init, entries[i + 1..]))
  {
    assert entries[i..][1..] == entries[i + 1..];
  }

  lemma PrependedAppend(p: seq<Attrs>, q: seq<Attrs>, r: Result<seq<Attrs>>)
    ensures Prepended(p, Prepended(q, r)) == Prepended(p + q, r)
  {
    if r.Ok? {
      assert p + (q + r.value) == (p + q) + r.value;
    }
  }

  function Prepended(prefix: seq<Attrs>, r: Result<seq<Attrs>>): Result<seq<Attrs>> {
    match r
    case Ok(rest) => Ok(prefix + rest)
    case Err(e) => Err(e)
  }

  /** The setters of `DockerBuild.do_initialise` (models.py:246-249). */
  const DockerSetters: seq<PropertySetter> := [
    PropertySetter("image", true, NoValidation, ThrowPropertyError),
    PropertySetter("library", false, LibraryDirectory, ThrowPropertyError)
  ]

  /** `DockerBuild.__init__` (models.py:227-233): the scalar attributes; `library` is the working directory. */
  function BuildDefaults(cwd: string): Attrs {
    map["tag_name" := Str("build"), "image" := Str(""), "library" := Str(cwd)]
  }

  /** The attributes of a DockerBuild and of the objects it holds. */
  datatype Snapshot = Snapshot(props: Attrs, dockerfile: Attrs, files: seq<Attrs>, steps: seq<Attrs>)

  /**
   * `DockerBuild.do_initialise(data)` (models.py:235-266) on a build whose
   * attributes are `before`: the attributes afterwards and the exception
   * raised. The stages run in order, each only if the ones before it raised
   * nothing, and only what ran is assigned.
   */
  function InitialiseSpec(node: seq<Entry>, before: Snapshot, isDir: string -> bool): (Snapshot, Option<Error>) {
    var p := ApplySetters(DockerSetters, node, before.props, isDir);
    if p.error.Some? then (before.(props := p.attrs), p.error)
    else ContentsSpec(node, before.(props := p.attrs), isDir)
  }

  /** After `image` and `library`: the Dockerfile check, the Dockerfile, then the lists. */
  function ContentsSpec(node: seq<Entry>, before: Snapshot, isDir: string -> bool): (Snapshot, Option<Error>) {
    var d := GetProperty(node, "dockerfile");
    if d.Null? then (before, Some(BuildConfigurationError("dockerfile is a required property")))
    else
      var df := ObjectInit(Setters(FileKind), d, before.dockerfile, isDir);
      if df.error.Some? then (before.(dockerfile := df.attrs), df.error)
      else ListsSpec(node, before.(dockerfile := df.attrs), isDir)
  }

  /** The files, then the steps; `self.files` is assigned before the steps are built. */
  function ListsSpec(node: seq<Entry>, before: Snapshot, isDir: string -> bool): (Snapshot, Option<Error>) {
    match ListSpec(FileKind, GetProperty(node, "files"), isDir)
    case Err(e) => (before, Some(e))
    case Ok(fs) => StepsSpec(node, before.(files := fs), isDir)
  }

  /** The last stage: the steps. */
  function StepsSpec(node: seq<Entry>, before: Snapshot, isDir: string -> bool): (Snapshot, Option<Error>) {
    match ListSpec(StepKind, GetProperty(node, "steps"), isDir)
    case Err(e) => (before, Some(e))
    case Ok(ss) => (before.(steps := ss), None)
  }

  /** The root build object. `postSteps` and `customCommands` are read by the builder but never set by `initialise`. */
  class DockerBuild {
    const props: BuildFileObject
    const dockerfile: BuildFileObject
    var files: seq<BuildFileObject>
    var steps: seq<BuildFileObject>
    var postSteps: Option<seq<BuildFileObject>>
    var customCommands: Option<Value>

    /** The build's own attributes, its Dockerfile and its lists are distinct objects. */
    ghost predicate Valid()
      reads this
    {
      props != dockerfile && props !in files && props !in steps && dockerfile !in files && dockerfile !in steps
    }

    function Snap(): Snapshot
      reads this, props, dockerfile, files, steps
    {
      Snapshot(props.attrs, dockerfile.attrs, AttrsOf(files), AttrsOf(steps))
    }

    /** `DockerBuild()`, in the working directory `cwd`. */
    constructor (cwd: string)
      ensures Valid() && fresh(props) && fresh(dockerfile)
      ensures Snap() == Snapshot(BuildDefaults(cwd), Defaults(FileKind), [], [])
      ensures postSteps == None && customCommands == None
    {
      props := new BuildFileObject(BuildDefaults(cwd));
      dockerfile := new BuildFileObject(Defaults(FileKind));
      files := [];
      steps := [];
      postSteps := None;
      customCommands := None;
    }

    /** `initialise(data)`: populate this build in place; the first exception stops it. */
    method Initialise(node: seq<Entry>, isDir: string -> bool) returns (err: Option<Error>)
      requires Valid()
      modifies this, props, dockerfile
      ensures Valid()
      ensures (Snap(), err) == InitialiseSpec(node, old(Snap()), isDir)
      ensures postSteps == old(postSteps) && customCommands == old(customCommands)
    {
      err := SetAttributes(node, isDir);
      if err.Some? {
        return;
      }
      err := InitialiseContents(node, isDir);
    }

    /** The part of `do_initialise` after the setters. */
    method InitialiseContents(node: seq<Entry>, isDir: string -> bool) returns (err: Option<Error>)
      requires Valid()
      modifies this, dockerfile
      ensures Valid()
      ensures (Snap(), err) == ContentsSpec(node, old(Snap()), isDir)
      ensures postSteps == old(postSteps) && customCommands == old(customCommands)
    {
      var dockerfileData := GetProperty(node, "dockerfile");
      if dockerfileData.Null? {
        err := Some(BuildConfigurationError("dockerfile is a required property"));
        return;
      }
      err := InitialiseDockerfile(dockerfileData, isDir);
      if err.Some? {
        return;
      }
      err := InitialiseLists(node, isDir);
    }

    /** `self.files = Files().initialise(...).files`, then the steps. */
    method InitialiseLists(node: seq<Entry>, isDir: string -> bool) returns (err: Option<Error>)
      requires Valid()
      modifies this
      ensures Valid()
      ensures (Snap(), err) == ListsSpec(node, old(Snap()), isDir)
      ensures postSteps == old(postSteps) && customCommands == old(customCommands)
    {
      ghost var before := Snap();
      var fs;
      fs, err := InitialiseList(FileKind, GetProperty(node, "files"), isDir);
      if err.Some? {
        assert Snap() == before;
        assert ListsSpec(node, before, isDir) == (before, err);
        return;
      }
      files := fs;
      assert Snap() == before.(files := AttrsOf(fs));
      ghost var mid := Snap();
      assert ListsSpec(node, before, isDir) == StepsSpec(node, mid, isDir);
      err := InitialiseSteps(node, isDir);
      assert (Snap(), err) == StepsSpec(node, mid, isDir);
    }

    /** `self.steps = BuildSteps().initialise(...).steps`. */
    method InitialiseSteps(node: seq<Entry>, isDir: string -> bool) returns (err: Option<Error>)
      requires Valid()
      modifies this
      ensures Valid()
      ensures (Snap(), err) == StepsSpec(node, old(Snap()), isDir)
      ensures postSteps == old(postSteps) && customCommands == old(customCommands)
    {
      ghost var before := Snap();
      var ss;
      ss, err := InitialiseList(StepKind, GetProperty(node, "steps"), isDir);
      if err.Some? {
        assert Snap() == before;
        assert StepsSpec(node, before, isDir) == (before, err);
        return;
      }
      steps := ss;
      assert Snap() == before.(steps := AttrsOf(ss));
    }

    /** `data.set_properties(setters, self)` for the build's own `image` and `library`. */
    method SetAttributes(node: seq<Entry>, isDir: string -> bool) returns (err: Option<Error>)
      requires Valid()
      modifies props
      ensures Applied(props.attrs, err) == ApplySetters(DockerSetters, node, old(props.attrs), isDir)
      ensures Snap() == old(Snap()).(props := props.attrs)
    {
      err := SetProperties(node, DockerSetters, props, isDir);
    }

    /** `self.dockerfile.initialise(...)`: the File object already in place is populated. */
    method InitialiseDockerfile(data: Value, isDir: string -> bool) returns (err: Option<Error>)
      requires Valid()
      modifies dockerfile
      ensures Applied(dockerfile.attrs, err) == ObjectInit(Setters(FileKind), data, old(dockerfile.attrs), isDir)
      ensures Snap() == old(Snap()).(dockerfile := dockerfile.attrs)
    {
      err := InitialiseObject(dockerfile, Setters(FileKind), data, isDir);
    }
  }

  /** A build without a truthy `image` fails first, with nothing else assigned. */
  lemma ImageCheckedFirst(node: seq<Entry>, before: Snapshot, isDir: string -> bool)
    requires !Truthy(GetProperty(node, "image"))
    ensures InitialiseSpec(node, before, isDir) == (before, Some(BuildConfigurationError(NotFound("image"))))
  {
    RequiredMissing(DockerSetters[0], node, before.props, isDir);
  }

  /** A `library` that is not a directory is reported after `image` is set, before the Dockerfile is looked at. */
  lemma LibraryCheckedSecond(node: seq<Entry>, before: Snapshot, isDir: string -> bool, path: string)
    requires "image" in before.props
    requires Truthy(GetProperty(node, "image"))
    requires GetProperty(node, "library") == Str(path) && !isDir(path)
    ensures InitialiseSpec(node, before, isDir) ==
      (before.(props := before.props["image" := GetProperty(node, "image")]), Some(BuildConfigurationError(path + " is not a directory")))
  {
    PlainSetter(DockerSetters[0], node, before.props, isDir);
    var a := Process(DockerSetters[0], node, before.props, isDir);
    assert DockerSetters[1..][1..] == [];
    assert ApplySetters(DockerSetters[1..], node, a.attrs, isDir) == Process(DockerSetters[1], node, a.attrs, isDir);
  }

  /** With `image` and `library` accepted, a missing `dockerfile` is the next failure; the lists stay as they were. */
  lemma DockerfileCheckedThird(node: seq<Entry>, before: Snapshot, isDir: string -> bool)
    requires ApplySetters(DockerSetters, node, before.props, isDir).error.None?
    requires GetProperty(node, "dockerfile").Null?
    ensures InitialiseSpec(node, before, isDir).1 == Some(BuildConfigurationError("dockerfile is a required property"))
    ensures InitialiseSpec(node, before, isDir).0.dockerfile == before.dockerfile
    ensures InitialiseSpec(node, before, isDir).0.files == before.files
    ensures InitialiseSpec(node, before, isDir).0.steps == before.steps
  {
  }

  /** After the Dockerfile, an absent `files` key fails before `steps` is read, whatever `steps` holds. */
  lemma FilesBeforeSteps(node: seq<Entry>, before: Snapshot, isDir: string -> bool)
    requires ApplySetters(DockerSetters, node, before.props, isDir).error.None?
    requires !GetProperty(node, "dockerfile").Null?
    requires ObjectInit(Setters(FileKind), GetProperty(node, "dockerfile"), before.dockerfile, isDir).error.None?
    requires GetProperty(node, "files").Null?
    ensures InitialiseSpec(node, before, isDir).1 == Some(BuildConfigurationError("Attempted to initialise files but files does not exist in BuildFileData"))
    ensures InitialiseSpec(node, before, isDir).0.files == before.files
    ensures InitialiseSpec(node, before, isDir).0.steps == before.steps
  {
    var p := ApplySetters(DockerSetters, node, before.props, isDir);
    var df := ObjectInit(Setters(FileKind), GetProperty(node, "dockerfile"), before.dockerfile, isDir);
    var s := before.(props := p.attrs, dockerfile := df.attrs);
    assert InitialiseSpec(node, before, isDir) == ContentsSpec(node, before.(props := p.attrs), isDir);
    assert ContentsSpec(node, before.(props := p.attrs), isDir) == ListsSpec(node, s, isDir);
  }

  /** On success every stage ran: one File per `files` entry and one step per `steps` entry, in order. */
  lemma {:induction false} InitialiseSucceeds(node: seq<Entry>, before: Snapshot, isDir: string -> bool, fileEntries: seq<Value>, stepEntries: seq<Value>)
    requires GetProperty(node, "files") == List(fileEntries) && GetProperty(node, "steps") == List(stepEntries)
    requires InitialiseSpec(node, before, isDir).1.None?
    ensures var after := InitialiseSpec(node, before, isDir).0;
      |after.files| == |fileEntries| && |after.steps| == |stepEntries| &&
      (forall i :: 0 <= i < |fileEntries| ==> after.files[i] == ObjectInit(Setters(FileKind), fileEntries[i], Defaults(FileKind), isDir).attrs) &&
      (forall i :: 0 <= i < |stepEntries| ==> after.steps[i] == ObjectInit(Setters(StepKind), stepEntries[i], Defaults(StepKind), isDir).attrs)
  {
    InitAllElementwise(Initialiser(Setters(FileKind), Defaults(FileKind), isDir), fileEntries);
    InitAllElementwise(Initialiser(Setters(StepKind), Defaults(StepKind), isDir), stepEntries);
  }

  /** As written, a build without `library` is refused: `os.path.isdir(None)` raises TypeError. */
  lemma AbsentLibraryRejectedAsWritten(node: seq<Entry>, attrs: Attrs, isDir: string -> bool)
    requires GetProperty(node, "library") == Null
    ensures ProcessAsWritten(DockerSetters[1], node, attrs, isDir) ==
      Applied(attrs, Some(TypeError("stat: path should be string, bytes, os.PathLike or integer, not NoneType")))
  {
    assert "stat: path should be string, bytes, os.PathLike or integer, not " + "NoneType"
      == "stat: path should be string, bytes, os.PathLike or integer, not NoneType";
  }

  /** Skipping validation for None keeps the default library and raises nothing. */
  lemma AbsentLibraryKeepsDefault(node: seq<Entry>, attrs: Attrs, isDir: string -> bool)
    requires GetProperty(node, "library") == Null && "library" in attrs
    ensures Process(DockerSetters[1], node, attrs, isDir) == Applied(attrs, None)
  {
  }

  /** The two readings of `process` agree whenever the value is present. */
  lemma ProcessAgreesWhenPresent(setter: PropertySetter, node: seq<Entry>, attrs: Attrs, isDir: string -> bool)
    requires !GetProperty(node, setter.name).Null?
    ensures Process(setter, node, attrs, isDir) == ProcessAsWritten(setter, node, attrs, isDir)
  {
  }
}
