/**
  The slice of JavaScript value semantics that the route handlers depend on:
  JSON values as parsed from a request or a response body, truthiness,
  indexing with `[0]` and property access with `.name`, where a missing
  element or property is `undefined` (`None`).
 */
module Json {
  import opened Wrappers

  datatype Value =
    | Null
    | Bool(b: bool)
    | Num(n: real)
    | Str(s: string)
    | Arr(items: seq<Value>)
    | Obj(fields: map<string, Value>)

  /** JavaScript truthiness: `null`, `false`, `0` and `""` are falsy, every array and object is truthy. */
  predicate Truthy(v: Value)
  {
    match v
    case Null => false
    case Bool(b) => b
    case Num(n) => n != 0.0
    case Str(s) => s != ""
    case Arr(_) => true
    case Obj(_) => true
  }

  /**
    `v[0]`: the first element of an array, the first character of a string,
    the property named "0" of an object, and `undefined` for the rest.
   */
  function First(v: Value): (r: Option<Value>)
    ensures v.Arr? ==> (r.Some? <==> v.items != [])
    ensures r.Some? && v.Arr? ==> r.value == v.items[0]
    ensures (v.Null? || v.Bool? || v.Num?) ==> r.None?
  {
    match v
    case Arr(items) => if items == [] then None else Some(items[0])
    case Str(s) => if s == "" then None else Some(Str([s[0]]))
    case Obj(fields) => if "0" in fields then Some(fields["0"]) else None
    case _ => None
  }

  /**
    `v.label` or `v.score` on a value other than `null` (reading a property
    of `null` throws): defined only on an object that has the property, since
    no array, string, number or boolean carries a property of either name.
   */
  function Member(v: Value, name: string): (r: Option<Value>)
    requires v != Null
    requires name == "label" || name == "score"
    ensures r.Some? <==> v.Obj? && name in v.fields
    ensures r.Some? ==> r.value == v.fields[name]
  {
    match v
    case Obj(fields) => if name in fields then Some(fields[name]) else None
    case _ => None
  }
}
