/** The Python values that the configuration sequence handles: whatever
    `json.load` can produce, and the settings held by the backend's
    common state. Only the shape of a value matters here, so a float is
    kept as an abstract real and no textual form is modelled. */
module Json {

  datatype Option<T> = None | Some(value: T)

  datatype Value =
    | Null                                    // None
    | Bool(b: bool)                           // True / False
    | Int(i: int)                             // an integer JSON number
    | Float(x: real)                          // a JSON number with a fraction or exponent
    | Str(s: string)
    | List(items: seq<Value>)
    | Dict(members: seq<(string, Value)>)     // an object's members in document order

  /** Python can test membership in a set only for hashable values:
      lists and dicts raise TypeError. */
  predicate Hashable(v: Value)
  {
    !v.List? && !v.Dict?
  }

  /** `v in {...}` for a set of string literals, when `v` is hashable. */
  predicate StrIn(v: Value, domain: set<string>)
  {
    v.Str? && v.s in domain
  }

  predicate HasKey(members: seq<(string, Value)>, key: string)
  {
    exists i :: 0 <= i < |members| && members[i].0 == key
  }

  /** The value a dict built from `members` holds for `key`: a repeated key
      keeps its last value, as in the dict json.load returns. */
  function Lookup(members: seq<(string, Value)>, key: string): (r: Option<Value>)
    ensures r.None? <==> !HasKey(members, key)
    ensures r.Some? ==> exists i :: 0 <= i < |members| && members[i] == (key, r.value) &&
                                    !HasKey(members[i + 1..], key)
  {
    if members == [] then None
    else if members[|members| - 1].0 == key then Some(members[|members| - 1].1)
    else
      var r := Lookup(members[..|members| - 1], key);
      assert forall i :: 0 <= i < |members| - 1 ==> members[..|members| - 1][i] == members[i];
      r
  }

  /** `d.get(key, default)` on the dict json.load built from `members`. */
  function Get(members: seq<(string, Value)>, key: string, default: Value): (r: Value)
    ensures !HasKey(members, key) ==> r == default
    ensures HasKey(members, key) ==>
              exists i :: 0 <= i < |members| && members[i] == (key, r) && !HasKey(members[i + 1..], key)
  {
    match Lookup(members, key)
    case Some(v) => v
    case None => default
  }
}
