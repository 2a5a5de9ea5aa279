/**
 * Parsed JSON / YAML documents as the Python source sees them after
 * `json.load` or `yaml.safe_load`: None, booleans, numbers, strings, lists
 * and dicts.  A dict keeps its entries in document order.
 */
module Json {
  import opened Wrappers

  datatype Value =
    | Null
    | Bool(b: bool)
    | Num(r: real)
    | Str(s: string)
    | List(items: seq<Value>)
    | Object(fields: seq<(string, Value)>)

  /** Python truthiness (`if v:`). */
  predicate Truthy(v: Value)
  {
    match v
    case Null => false
    case Bool(b) => b
    case Num(r) => r != 0.0
    case Str(s) => s != ""
    case List(xs) => xs != []
    case Object(fs) => fs != []
  }

  /**
   * `d.get(key)` on a dict read from a document: when a key is written twice
   * the later entry is the one the dict holds.
   */
  function Lookup(fields: seq<(string, Value)>, key: string): (r: Option<Value>)
    ensures r.None? <==> forall i :: 0 <= i < |fields| ==> fields[i].0 != key
    ensures r.Some? ==> exists i :: 0 <= i < |fields| && fields[i] == (key, r.value)
                                    && forall j :: i < j < |fields| ==> fields[j].0 != key
  {
    if fields == [] then None
    else if fields[|fields| - 1].0 == key then Some(fields[|fields| - 1].1)
    else Lookup(fields[..|fields| - 1], key)
  }

  /** `d.get(key, default)` when `d` is known to be a dict. */
  function GetOr(fields: seq<(string, Value)>, key: string, default: Value): (r: Value)
    ensures (forall i :: 0 <= i < |fields| ==> fields[i].0 != key) ==> r == default
    ensures (exists i :: 0 <= i < |fields| && fields[i].0 == key) ==> exists i :: 0 <= i < |fields| && fields[i] == (key, r)
  {
    match Lookup(fields, key)
    case None => default
    case Some(v) => v
  }

  /** `d.get(key)` with its `None` default, the common case in the source. */
  function Get(fields: seq<(string, Value)>, key: string): Value
  {
    GetOr(fields, key, Null)
  }

  /** `key in d` for a dict. */
  predicate HasKey(fields: seq<(string, Value)>, key: string)
  {
    exists i :: 0 <= i < |fields| && fields[i].0 == key
  }
}
