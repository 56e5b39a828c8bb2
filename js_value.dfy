/**
  The JavaScript values the client handles once a response has been parsed:
  the tree that xml2js produces with `explicitArray: false` (text as strings,
  elements as objects keyed by tag name, repeated elements as arrays, an empty
  document as null), the `undefined` that a missing property reads as, the
  truthiness test behind `||`, and property access `v[key]`, which throws a
  TypeError on `undefined` and `null`.
 */
module JsValue {

  datatype JVal =
    | JUndefined
    | JNull
    | JStr(s: string)
    | JObj(fields: map<string, JVal>)
    | JArr(items: seq<JVal>)

  /** `undefined` and `null`: the values whose properties cannot be read. */
  predicate Nullish(v: JVal) {
    v.JUndefined? || v.JNull?
  }

  /** JavaScript truthiness for the values above: `undefined`, `null` and the
      empty string are falsy; every object and array is truthy. */
  predicate Truthy(v: JVal) {
    match v
    case JUndefined => false
    case JNull => false
    case JStr(s) => s != ""
    case JObj(_) => true
    case JArr(_) => true
  }

  /** The values `catch` can receive in the client. */
  datatype JsError =
    | TransportError(message: string, response: ResponseBody)  // rejected HTTP request
    | ParseError(message: string)                              // xml2js rejected the text
    | TypeError(property: string)                              // read `property` of undefined/null

  /** The body of an HTTP response attached to a rejected request, if the
      server answered at all. */
  datatype ResponseBody = NoResponse | Body(data: string)

  /** Either a value or the error a JavaScript expression throws. */
  datatype Result<+T> = Ok(value: T) | Err(error: JsError) {
    predicate IsFailure() {
      Err?
    }

    function PropagateFailure<U>(): Result<U>
      requires Err?
    {
      Err(error)
    }

    function Extract(): T
      requires Ok?
    {
      value
    }
  }

  /** The property read `v[key]`. Objects give their own property or
      `undefined`; strings and arrays give `undefined` (no tag name the client
      reads is an index or a prototype member); `undefined` and `null` throw. */
  function Get(v: JVal, key: string): (r: Result<JVal>)
    ensures r.Err? <==> Nullish(v)
    ensures r.Err? ==> r.error == TypeError(key)
    ensures r.Ok? && !Nullish(r.value) ==> v.JObj? && key in v.fields && r.value == v.fields[key]
  {
    match v
    case JUndefined => Err(TypeError(key))
    case JNull => Err(TypeError(key))
    case JObj(fields) => Ok(if key in fields then fields[key] else JUndefined)
    case JStr(_) => Ok(JUndefined)
    case JArr(_) => Ok(JUndefined)
  }

  /** The chained read `v[k0][k1]...`; it stops at the first read that throws. */
  function Path(v: JVal, keys: seq<string>): (r: Result<JVal>)
    ensures r.Err? ==> r.error.TypeError? && r.error.property in keys
    ensures keys == [] ==> r == Ok(v)
    decreases |keys|
  {
    if keys == [] then Ok(v)
    else
      var child :- Get(v, keys[0]);
      Path(child, keys[1..])
  }

  /** The own property `key` of an object, which the chain below walks. */
  predicate HasChild(v: JVal, key: string) {
    v.JObj? && key in v.fields
  }

  /** `v` contains `target` at the end of the given chain of own properties,
      each step an object. */
  predicate At(v: JVal, keys: seq<string>, target: JVal)
    decreases |keys|
  {
    if keys == [] then v == target
    else HasChild(v, keys[0]) && At(v.fields[keys[0]], keys[1..], target)
  }

  /** A chained read succeeds with a value that is neither `undefined` nor
      `null` exactly when the chain is present as own properties of objects. */
  lemma {:induction false} PathDefined(v: JVal, keys: seq<string>, target: JVal)
    requires !Nullish(target)
    ensures Path(v, keys) == Ok(target) <==> At(v, keys, target)
    decreases |keys|
  {
    if keys != [] {
      var g := Get(v, keys[0]);
      if g.Ok? {
        PathDefined(g.value, keys[1..], target);
        if Nullish(g.value) && keys[1..] != [] {
          assert Path(g.value, keys[1..]).Err?;
        }
      }
    }
  }
}
