/** The Python values the client passes around: decoded JSON documents, Python's
    None and str (which behave like JSON null and JSON strings wherever the client
    uses them), the exceptions the client lets escape, and Python's unspecified
    dictionary iteration order. */
module Values {

  datatype Option<T> = None | Some(value: T)

  /** A JSON document as `json.loads` returns it. Numbers are integers here. */
  datatype Json =
    | JNull
    | JBool(b: bool)
    | JNum(n: int)
    | JStr(s: string)
    | JArr(items: seq<Json>)
    | JObj(fields: map<string, Json>)

  /** The Python exceptions the client raises or lets through. */
  datatype Error =
    | KeyError(key: string)        // d[key] on a dict without key
    | BareKeyError                 // `raise KeyError` with no argument
    | TypeError                    // indexing or iterating a value that does not support it
    | AttributeError(name: string) // a missing attribute or method; `name` is the attribute
                                   // accessed, not the exception's arguments (cmiskit raises
                                   // a bare AttributeError)
    | ValueError                   // json.loads rejected the body

  datatype Result<T> = Ok(value: T) | Err(error: Error)

  datatype Outcome = Pass | Fail(error: Error)

  /** Python's truth value of a decoded value (`if info:`): a value is false
      exactly when it is None, False, zero or empty. */
  predicate Truthy(v: Json)
    ensures !Truthy(v) <==> v in {JNull, JBool(false), JNum(0), JStr(""), JArr([]), JObj(map[])}
  {
    match v
    case JNull => false
    case JBool(b) => b
    case JNum(n) => n != 0
    case JStr(s) => s != ""
    case JArr(xs) => xs != []
    case JObj(m) => m != map[]
  }

  /** Python's `v[key]` with a string key. */
  function Index(v: Json, key: string): (r: Result<Json>)
    ensures r.Ok? <==> v.JObj? && key in v.fields
    ensures r.Ok? ==> r.value == v.fields[key]
    ensures v.JObj? && key !in v.fields ==> r == Err(KeyError(key))
    ensures !v.JObj? ==> r == Err(TypeError)
  {
    match v
    case JObj(m) => if key in m then Ok(m[key]) else Err(KeyError(key))
    case _ => Err(TypeError)
  }

  /** `v[k1][k2][k3]`: the first failing lookup decides the error. */
  function Index3(v: Json, k1: string, k2: string, k3: string): (r: Result<Json>)
    ensures r.Ok? <==>
      && v.JObj? && k1 in v.fields
      && v.fields[k1].JObj? && k2 in v.fields[k1].fields
      && v.fields[k1].fields[k2].JObj? && k3 in v.fields[k1].fields[k2].fields
    ensures r.Ok? ==> r.value == v.fields[k1].fields[k2].fields[k3]
  {
    match Index(v, k1)
    case Err(e) => Err(e)
    case Ok(a) =>
      match Index(a, k2)
      case Err(e) => Err(e)
      case Ok(b) => Index(b, k3)
  }

  /** `order` is one iteration order of a dictionary with key set `keys`:
      every key exactly once. */
  ghost predicate Enumerates<K(!new)>(order: seq<K>, keys: set<K>)
  {
    && (forall i, j :: 0 <= i < j < |order| ==> order[i] != order[j])
    && (forall i :: 0 <= i < |order| ==> order[i] in keys)
    && (forall k :: k in order <==> k in keys)
  }

  /** An enumeration of a set has one entry per element. */
  lemma {:induction false} EnumerationSize<K(!new)>(order: seq<K>, keys: set<K>)
    requires Enumerates(order, keys)
    ensures |order| == |keys|
    decreases |order|
  {
    if |order| > 0 {
      var last := order[|order| - 1];
      var front := order[..|order| - 1];
      assert forall k :: k in front ==> k in order;
      assert last !in front;
      assert forall k :: k in front <==> k in keys - {last} by {
        forall k ensures k in front <==> k in keys - {last} {
          if k in keys - {last} {
            assert k in order;
            var i :| 0 <= i < |order| && order[i] == k;
            assert i < |order| - 1;
            assert front[i] == k;
          }
        }
      }
      EnumerationSize(front, keys - {last});
    }
  }
}
