/**
 * Decoded JSON values as the relay and its clients see them, the abstract
 * `json.dumps(...).encode('utf-8')` / `json.loads(data.decode('utf-8'))` pair,
 * and the seven protocol messages.
 */
module Json {
  import opened Wrappers
  import opened Octets

  /**
   * A decoded JSON value. Every non-object value (null, a boolean, a number,
   * a string, an array) behaves alike in the code except for its Python
   * truthiness: indexing it raises TypeError and `.get` raises AttributeError.
   * An object is a map from keys to string values.
   */
  datatype Value = Scalar(truthy: bool) | Object(fields: map<string, string>)

  /** Python truthiness (`if not data`): an object is true exactly when it is non-empty. */
  predicate Truthy(v: Value) {
    match v
    case Scalar(t) => t
    case Object(f) => f != map[]
  }

  /** `v[key]`: None stands for the KeyError or TypeError it raises. */
  function Index(v: Value, key: string): (r: Option<string>)
    ensures r.Some? <==> v.Object? && key in v.fields
    ensures r.Some? ==> r.value == v.fields[key]
  {
    if v.Object? && key in v.fields then Some(v.fields[key]) else None
  }

  /** The value of `v.get('type')` on an object (None when the key is absent). */
  function TypeOf(v: Value): (r: Option<string>)
    requires v.Object?
    ensures r.Some? <==> "type" in v.fields
    ensures r.Some? ==> r.value == v.fields["type"]
  {
    Index(v, "type")
  }

  /** JSON encoding to UTF-8 bytes and decoding back; `loads` yields None where Python raises. */
  datatype Codec = Codec(dumps: Value -> Bytes, loads: Bytes -> Option<Value>)

  /** The one law the model assumes of JSON: decoding what was encoded gives the value back. */
  ghost predicate Lawful(c: Codec) {
    forall v :: c.loads(c.dumps(v)) == Some(v)
  }

  function RegisterMsg(username: string, publicKey: string): Value {
    Object(map["type" := "register", "username" := username, "public_key" := publicKey])
  }

  function RegisteredMsg(username: string): Value {
    Object(map["type" := "registered", "username" := username])
  }

  function GetKeyMsg(username: string): Value {
    Object(map["type" := "get_key", "username" := username])
  }

  function KeyResponseMsg(publicKey: string): Value {
    Object(map["type" := "key_response", "public_key" := publicKey])
  }

  function SendMsgMsg(to: string, data: string): Value {
    Object(map["type" := "send_msg", "to" := to, "data" := data])
  }

  function ForwardMsg(from: string, data: string): Value {
    Object(map["type" := "forward_msg", "from" := from, "data" := data])
  }

  function ErrorMsg(message: string): Value {
    Object(map["type" := "error", "message" := message])
  }
}
