/**
 * The values a loaded YAML document is made of, and the `BuildFileData`
 * wrapper (models.py:14-32) that the parser puts around every mapping.
 *
 * Python dictionaries keep insertion order, so a mapping is an ordered list
 * of key/value entries. `Dict` is a raw mapping as `yaml.safe_load` returns
 * it; `Data` is a `BuildFileData` node. `Null` is Python's `None`.
 */
module Values {
  import opened Errors
  import opened Text

  datatype Value =
    | Null
    | Bool(b: bool)
    | Int(i: int)
    | Str(s: string)
    | List(items: seq<Value>)
    | Dict(entries: seq<Entry>)
    | Data(fields: seq<Entry>)

  datatype Entry = Entry(key: string, value: Value)

  /** The keys of a mapping, in order. */
  function Keys(entries: seq<Entry>): (ks: seq<string>)
    ensures |ks| == |entries|
    ensures forall i :: 0 <= i < |entries| ==> ks[i] == entries[i].key
  {
    if entries == [] then [] else [entries[0].key] + Keys(entries[1..])
  }

  /** `dict.get(key)`: the value stored under `key`, or None when there is none. */
  function Lookup(entries: seq<Entry>, key: string): (v: Value)
    ensures key !in Keys(entries) ==> v == Null
    ensures key in Keys(entries) ==> exists i :: 0 <= i < |entries| && entries[i].key == key && entries[i].value == v
  {
    if entries == [] then Null
    else if entries[0].key == key then entries[0].value
    else Lookup(entries[1..], key)
  }

  /** `BuildFileData.get_property(key)` (models.py:21-22). */
  function GetProperty(node: seq<Entry>, key: string): Value {
    Lookup(node, key)
  }

  /** Python truthiness. A BuildFileData defines neither `__bool__` nor `__len__`, so it is always true. */
  predicate Truthy(v: Value) {
    match v
    case Null => false
    case Bool(b) => b
    case Int(i) => i != 0
    case Str(s) => s != ""
    case List(xs) => xs != []
    case Dict(es) => es != []
    case Data(_) => true
  }

  /** `type(v).__name__`. */
  function TypeName(v: Value): string {
    match v
    case Null => "NoneType"
    case Bool(_) => "bool"
    case Int(_) => "int"
    case Str(_) => "str"
    case List(_) => "list"
    case Dict(_) => "dict"
    case Data(_) => "BuildFileData"
  }

  /** What a `for` loop over the value visits: list items, the characters of a string, the keys of a dict. */
  function Iterate(v: Value): (r: Result<seq<Value>>)
    ensures r.Err? <==> !(v.List? || v.Str? || v.Dict?)
    ensures v.List? ==> r == Ok(v.items)
    ensures r.Err? ==> r.error == TypeError("'" + TypeName(v) + "' object is not iterable")
  {
    match v
    case List(xs) => Ok(xs)
    case Str(s) => Ok(seq(|s|, i requires 0 <= i < |s| => Str([s[i]])))
    case Dict(es) => Ok(seq(|es|, i requires 0 <= i < |es| => Str(es[i].key)))
    case _ => Err(TypeError("'" + TypeName(v) + "' object is not iterable"))
  }

  /** `key in container` for a string key. */
  function Contains(container: Value, key: string): (r: Result<bool>)
    ensures container.Dict? ==> r == Ok(key in Keys(container.entries))
    ensures r.Err? <==> !(container.Dict? || container.List? || container.Str?)
  {
    match container
    case Dict(es) => Ok(key in Keys(es))
    case List(xs) => Ok(Str(key) in xs)
    case Str(s) => Ok(IndexOf(s, key).Some?)
    case _ => Err(TypeError("argument of type '" + TypeName(container) + "' is not iterable"))
  }

  /** `container[key]` for a string key. */
  function Index(container: Value, key: string): (r: Result<Value>)
    ensures r.Ok? <==> container.Dict? && key in Keys(container.entries)
    ensures r.Ok? ==> r.value == Lookup(container.entries, key)
    ensures container.Dict? && r.Err? ==> r.error == KeyError(key)
  {
    match container
    case Dict(es) => if key in Keys(es) then Ok(Lookup(es, key)) else Err(KeyError(key))
    case List(_) => Err(TypeError("list indices must be integers or slices, not str"))
    case Str(_) => Err(TypeError("string indices must be integers"))
    case _ => Err(TypeError("'" + TypeName(container) + "' object is not subscriptable"))
  }

  /** `str(v)` for the scalar values; composite values get a placeholder text. */
  function Display(v: Value): string {
    match v
    case Null => "None"
    case Bool(b) => if b then "True" else "False"
    case Int(i) => IntToString(i)
    case Str(s) => s
    case List(_) => "<list>"
    case Dict(_) => "<dict>"
    case Data(_) => "<BuildFileData>"
  }

  /** The elements of a list when every one of them is a string. */
  function Strings(xs: seq<Value>): (r: Option<seq<string>>)
    ensures r.Some? ==> |r.value| == |xs| && forall i :: 0 <= i < |xs| ==> xs[i] == Str(r.value[i])
    ensures r.None? ==> exists i :: 0 <= i < |xs| && !xs[i].Str?
  {
    if xs == [] then Some([])
    else if !xs[0].Str? then None
    else
      match Strings(xs[1..])
      case None => None
      case Some(rest) => Some([xs[0].s] + rest)
  }
}
