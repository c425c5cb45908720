/**
 * Values shared by every component: optional values, thrown errors, and the
 * loosely typed parameter records (`Record<string, any>`) that commands,
 * request bodies and preference rows carry.
 */
module Common {

  datatype Option<+T> = None | Some(value: T)

  /** The outcome of a call that may throw: its value, or the message of the thrown error. */
  datatype Result<+T> = Ok(value: T) | Err(message: string)

  /** A parameter value: a string, a list of strings, a number or a boolean. */
  datatype Value = Str(s: string) | Strs(items: seq<string>) | Num(n: int) | Flag(b: bool)

  /** A record of named values: command parameters, request bodies, preference rows. */
  type Fields = map<string, Value>

  /** JavaScript truthiness: the empty string, 0 and false are falsy; every array is truthy. */
  predicate Truthy(v: Value)
  {
    match v
    case Str(s) => s != ""
    case Strs(_) => true
    case Num(n) => n != 0
    case Flag(b) => b
  }

  /** `record.key`, undefined when the key is absent. */
  function Get(f: Fields, key: string): (r: Option<Value>)
    ensures r.Some? <==> key in f
    ensures r.Some? ==> r.value == f[key]
  {
    if key in f then Some(f[key]) else None
  }

  /** `!!record.key`: the key is present and its value is truthy. */
  predicate Given(f: Fields, key: string)
  {
    key in f && Truthy(f[key])
  }

  /** The optional value `v` read through the falsy test `!v`. */
  predicate GivenOpt(v: Option<Value>)
  {
    v.Some? && Truthy(v.value)
  }

  /** What a client request (`fetch`, then `response.json()`) yields: a thrown error's message, a non-ok status, or the JSON payload. */
  datatype Exchange<T> = Threw(message: string) | NotOk | Replied(payload: T)

  /** The message a hook stores for a failed request: the thrown one, or the request's own for a non-ok status. */
  function FailureMessage<T>(response: Exchange<T>, notOk: string): (m: string)
    requires !response.Replied?
    ensures response.Threw? ==> m == response.message
    ensures response.NotOk? ==> m == notOk
  {
    if response.Threw? then response.message else notOk
  }
}
