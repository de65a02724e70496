/**
 * Reading a build file (buildparser.py): the loaded YAML document is
 * checked for its top-level `build` key, every mapping under it becomes a
 * BuildFileData node, and a fresh DockerBuild is initialised from the result.
 *
 * Opening the file and `yaml.safe_load` are outside the model: the parser is
 * handed what they produce, `None` when the file does not exist.
 */
module BuildParser {
  import opened Errors
  import opened Text
  import opened Values
  import Models

  /**
   * `convert_dict_to_build_data(data)` (buildparser.py:24-40) on a raw mapping:
   * the same keys in the same order, each value converted by `ConvertField`.
   */
  function Convert(v: Value): (r: Value)
    requires v.Dict?
    ensures r.Data? && |r.fields| == |v.entries|
    ensures forall i :: 0 <= i < |v.entries| ==> r.fields[i] == Entry(v.entries[i].key, ConvertField(v.entries[i].value))
    decreases v, 0
  {
    Data(seq(|v.entries|, i requires 0 <= i < |v.entries| => Entry(v.entries[i].key, ConvertField(v.entries[i].value))))
  }

  /**
   * One value of the mapping being converted: a mapping is converted, a list
   * has its mapping items converted (and nothing deeper), anything else is kept.
   */
  function ConvertField(w: Value): Value
    decreases w, 1
  {
    match w
    case Dict(_) => Convert(w)
    case List(xs) => List(seq(|xs|, j requires 0 <= j < |xs| => if xs[j].Dict? then Convert(xs[j]) else xs[j]))
    case _ => w
  }

  /** The inverse of the conversion: every BuildFileData node in a converted position is a raw mapping again. */
  function Unconvert(v: Value): (r: Value)
    requires v.Data?
    ensures r.Dict?
    decreases v, 0
  {
    Dict(seq(|v.fields|, i requires 0 <= i < |v.fields| => Entry(v.fields[i].key, UnconvertField(v.fields[i].value))))
  }

  function UnconvertField(w: Value): Value
    decreases w, 1
  {
    match w
    case Data(_) => Unconvert(w)
    case List(xs) => List(seq(|xs|, j requires 0 <= j < |xs| => if xs[j].Data? then Unconvert(xs[j]) else xs[j]))
    case _ => w
  }

  /** A value as `yaml.safe_load` builds it: no BuildFileData anywhere inside. */
  predicate Loaded(v: Value)
    decreases v
  {
    match v
    case Data(_) => false
    case List(xs) => forall j :: 0 <= j < |xs| ==> Loaded(xs[j])
    case Dict(es) => forall i :: 0 <= i < |es| ==> Loaded(es[i].value)
    case _ => true
  }

  /** Converting a loaded mapping and converting back gives the mapping: nothing is lost or reordered. */
  lemma {:induction false} ConvertRoundTrip(v: Value)
    requires v.Dict? && Loaded(v)
    ensures Unconvert(Convert(v)) == v
    decreases v, 0
  {
    var es := v.entries;
    var back := Unconvert(Convert(v)).entries;
    forall i | 0 <= i < |es|
      ensures back[i] == es[i]
    {
      ConvertFieldRoundTrip(es[i].value);
    }
    assert back == es;
  }

  lemma {:induction false} ConvertFieldRoundTrip(w: Value)
    requires Loaded(w)
    ensures UnconvertField(ConvertField(w)) == w
    decreases w, 1
  {
    match w
    case Dict(_) =>
      ConvertRoundTrip(w);
    case List(xs) =>
      var ys := ConvertField(w).items;
      var back := UnconvertField(ConvertField(w)).items;
      forall j | 0 <= j < |xs|
        ensures back[j] == xs[j]
      {
        if xs[j].Dict? {
          ConvertRoundTrip(xs[j]);
        }
      }
      assert back == xs;
    case _ =>
  }

  /**
   * What the conversion guarantees the model: no value of a converted mapping
   * is a raw mapping, and no item of a list value is one either.
   */
  predicate NoRawMappings(fields: seq<Entry>) {
    forall i :: 0 <= i < |fields| ==>
      (!fields[i].value.Dict? &&
       (fields[i].value.List? ==> forall j :: 0 <= j < |fields[i].value.items| ==> !fields[i].value.items[j].Dict?))
  }

  lemma ConvertedHasNoRawMappings(v: Value)
    requires v.Dict?
    ensures NoRawMappings(Convert(v).fields)
  {
    var fs := Convert(v).fields;
    forall i | 0 <= i < |fs|
      ensures !fs[i].value.Dict?
      ensures fs[i].value.List? ==> forall j :: 0 <= j < |fs[i].value.items| ==> !fs[i].value.items[j].Dict?
    {
      assert fs[i].value == ConvertField(v.entries[i].value);
    }
  }

  /** Looking a key up after converting is converting what the lookup finds before. */
  lemma {:induction false} LookupConverted(v: Value, key: string)
    requires v.Dict?
    ensures GetProperty(Convert(v).fields, key) == ConvertField(GetProperty(v.entries, key))
  {
    LookupMapped(v.entries, Convert(v).fields, key);
  }

  lemma {:induction false} LookupMapped(es: seq<Entry>, out: seq<Entry>, key: string)
    requires |out| == |es|
    requires forall i :: 0 <= i < |es| ==> out[i] == Entry(es[i].key, ConvertField(es[i].value))
    ensures Lookup(out, key) == ConvertField(Lookup(es, key))
    decreases |es|
  {
    if es != [] && es[0].key != key {
      LookupMapped(es[1..], out[1..], key);
    }
  }

  /**
   * The part of `YamlBuildParser.parse(file)` (buildparser.py:47-60) before
   * the DockerBuild is made: the converted `build` node, or the exception.
   */
  function BuildNode(file: string, document: Option<Value>): (r: Result<seq<Entry>>)
    ensures document.None? ==> r == Err(BuildConfigurationError("Build Configuration File " + file + " does not exist"))
    ensures document.Some? && document.value.Dict? ==>
      (r.Ok? <==> "build" in Keys(document.value.entries) && Lookup(document.value.entries, "build").Dict?)
  {
    match document
    case None => Err(BuildConfigurationError("Build Configuration File " + file + " does not exist"))
    case Some(d) =>
      match Contains(d, "build")
      case Err(e) => Err(e)
      case Ok(false) => Err(BuildConfigurationError(file + " is an invalid build configuration file as it does not contain a build tag"))
      case Ok(true) =>
        match Index(d, "build")
        case Err(e) => Err(e)
        case Ok(section) =>
          if section.Dict? then Ok(Convert(section).fields)
          else Err(AttributeError("'" + TypeName(section) + "' object has no attribute 'items'"))
  }

  /** The whole of `parse`: the attributes of the initialised build, or the exception. */
  function ParseSpec(file: string, document: Option<Value>, cwd: string, isDir: string -> bool): Result<Models.Snapshot> {
    match BuildNode(file, document)
    case Err(e) => Err(e)
    case Ok(node) =>
      var (snap, err) := Models.InitialiseSpec(node, Models.Snapshot(Models.BuildDefaults(cwd), Models.Defaults(Models.FileKind), [], []), isDir);
      if err.Some? then Err(err.value) else Ok(snap)
  }

  /** A document without a `build` key is rejected, whatever else it holds. */
  lemma MissingBuildTag(file: string, es: seq<Entry>, cwd: string, isDir: string -> bool)
    requires "build" !in Keys(es)
    ensures ParseSpec(file, Some(Dict(es)), cwd, isDir) == Err(BuildConfigurationError(file + " is an invalid build configuration file as it does not contain a build tag"))
  {
  }

  /** A `build` key with no mapping under it (`build:` alone loads as None) fails in the conversion. */
  lemma EmptyBuildSection(file: string, es: seq<Entry>, cwd: string, isDir: string -> bool)
    requires "build" in Keys(es) && Lookup(es, "build") == Null
    ensures ParseSpec(file, Some(Dict(es)), cwd, isDir) == Err(AttributeError("'" + "NoneType" + "' object has no attribute 'items'"))
  {
  }

  /** An empty file loads as None, and the key test itself raises. */
  lemma EmptyDocument(file: string, cwd: string, isDir: string -> bool)
    ensures ParseSpec(file, Some(Null), cwd, isDir) == Err(TypeError("argument of type '" + "NoneType" + "' is not iterable"))
  {
  }

  /** A well-formed document is initialised from the converted `build` node. */
  lemma ParseInitialisesConverted(file: string, es: seq<Entry>, cwd: string, isDir: string -> bool)
    requires "build" in Keys(es) && Lookup(es, "build").Dict?
    ensures BuildNode(file, Some(Dict(es))) == Ok(Convert(Lookup(es, "build")).fields)
    ensures NoRawMappings(Convert(Lookup(es, "build")).fields)
  {
    ConvertedHasNoRawMappings(Lookup(es, "build"));
  }

  /**
   * `YamlBuildParser().parse(file)`: a new DockerBuild in the working
   * directory `cwd`, initialised from the file's `build` node.
   */
  method Parse(file: string, document: Option<Value>, cwd: string, isDir: string -> bool) returns (build: Models.DockerBuild?, err: Option<Error>)
    ensures err.None? <==> ParseSpec(file, document, cwd, isDir).Ok?
    ensures err.None? ==> build != null && build.Valid() && build.Snap() == ParseSpec(file, document, cwd, isDir).value
    ensures err.Some? ==> build == null && err.value == ParseSpec(file, document, cwd, isDir).error
    ensures build != null ==> fresh(build) && build.postSteps.None? && build.customCommands.None?
  {
    build := null;
    var node := BuildNode(file, document);
    if node.Err? {
      err := Some(node.error);
      return;
    }
    var b := new Models.DockerBuild(cwd);
    err := b.Initialise(node.value, isDir);
    if err.None? {
      build := b;
    }
  }
}
