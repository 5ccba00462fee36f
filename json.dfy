/**
 * Decoded JSON values as the client receives them from the server, with
 * Python's subscript, `dict.get`, iteration and truthiness on them.
 * Numbers are integers: floating point is not part of this model.
 */
module JsonData {
  import opened Wrappers

  datatype Json =
    | Null
    | Bool(b: bool)
    | Int(i: int)
    | Str(s: string)
    | Arr(items: seq<Json>)
    | Obj(fields: map<string, Json>)

  /** The exceptions the client code can raise. */
  datatype Failure =
    | KeyError(key: string)
    | TypeError(message: string)
    | ResponseError(message: string)

  /** Python's `bool(x)`. */
  predicate Truthy(j: Json)
    ensures Truthy(j) <==>
      j != Null && j != Bool(false) && j != Int(0) && j != Str("") && j != Arr([]) && j != Obj(map[])
  {
    match j
    case Null => false
    case Bool(b) => b
    case Int(i) => i != 0
    case Str(s) => s != ""
    case Arr(items) => |items| != 0
    case Obj(fields) => |fields| != 0
  }

  const NotSubscriptable := TypeError("value is not subscriptable by a string")
  const NotIterable := TypeError("value is not iterable")

  /** `j[key]`: a dictionary lookup that raises on a missing key or a non-dictionary. */
  function Get(j: Json, key: string): (r: Result<Json, Failure>)
    ensures r.Ok? <==> j.Obj? && key in j.fields
    ensures r.Ok? ==> r.value == j.fields[key]
    ensures r.Err? ==> r.error == (if j.Obj? then KeyError(key) else NotSubscriptable)
  {
    if !j.Obj? then Err(NotSubscriptable)
    else if key !in j.fields then Err(KeyError(key))
    else Ok(j.fields[key])
  }

  /** `j[outer][inner]`. */
  function Get2(j: Json, outer: string, inner: string): (r: Result<Json, Failure>)
    ensures r.Ok? <==> j.Obj? && outer in j.fields && j.fields[outer].Obj? && inner in j.fields[outer].fields
    ensures r.Ok? ==> r.value == j.fields[outer].fields[inner]
  {
    var o :- Get(j, outer);
    Get(o, inner)
  }

  /**
   * The elements a `for` loop sees.  Iterating a dictionary or a string
   * yields keys or characters, which are strings; only an empty one can be
   * iterated without yielding a string.
   */
  function Elements(j: Json): (r: Result<seq<Json>, Failure>)
    ensures j.Arr? ==> r == Ok(j.items)
    ensures r.Ok? && !j.Arr? ==> r.value == []
  {
    match j
    case Arr(items) => Ok(items)
    case Obj(fields) => if |fields| == 0 then Ok([]) else Err(NotSubscriptable)
    case Str(s) => if s == "" then Ok([]) else Err(NotSubscriptable)
    case _ => Err(NotIterable)
  }
}
