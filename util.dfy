/**
  The three helpers every host wrapper is built from (src/util.rs:5-18;
  the older copies are src/lib.rs:46-59). serde is uninterpreted: the
  serialiser and the deserialiser are parameters.
 */
module Util {
  import opened Prelude
  import opened Errors

  /** `js_from_serde`: a serialisation failure becomes `JsonSerialization`. */
  function JsFromSerde<T>(v: T, serialize: T -> Result<JsValue, SerdeError>): (r: Result<JsValue, Error>)
    ensures serialize(v).Ok? ==> r == Ok(serialize(v).value)
    ensures serialize(v).Err? ==> r == Err(JsonSerialization(serialize(v).error))
  {
    match serialize(v)
    case Ok(js) => Ok(js)
    case Err(e) => Err(JsonSerialization(e))
  }

  /** `object_from_js`: only an object gets through, and it is not changed. */
  function ObjectFromJs(v: JsValue): (r: Result<JsValue, Error>)
    ensures r.Ok? <==> v.Object?
    ensures r.Ok? ==> r.value == v
    ensures r.Err? ==> r.error == ObjectConversion
  {
    if v.Object? then Ok(v) else Err(ObjectConversion)
  }

  /**
    `serde_from_js_result`: a host rejection is reported as the host's own
    value (via `From<JsValue> for Error`); only a host success is handed to
    the deserialiser, whose failure becomes `JsonDeserialization`.
   */
  function SerdeFromJsResult<T>(v: Result<JsValue, JsValue>, deserialize: JsValue -> Result<T, SerdeError>)
    : (r: Result<T, Error>)
    ensures v.Err? ==> r == Err(JsError(v.error))
    ensures v.Ok? && deserialize(v.value).Err? ==> r == Err(JsonDeserialization(deserialize(v.value).error))
    ensures v.Ok? && deserialize(v.value).Ok? ==> r == Ok(deserialize(v.value).value)
  {
    match v
    case Err(e) => Err(FromJsValue(e))
    case Ok(js) =>
      match deserialize(js)
      case Ok(t) => Ok(t)
      case Err(e) => Err(JsonDeserialization(e))
  }

  /** A host rejection is reported without consulting the deserialiser at all. */
  lemma RejectionIgnoresDeserializer<T>(e: JsValue, d1: JsValue -> Result<T, SerdeError>, d2: JsValue -> Result<T, SerdeError>)
    ensures SerdeFromJsResult(Err(e), d1) == SerdeFromJsResult(Err(e), d2) == Err(JsError(e))
  {
  }

  /**
    The helpers are pass-through: if deserialising undoes serialising and the
    host echoes the object it is given, a value sent through
    `js_from_serde`, `object_from_js`, the host and `serde_from_js_result`
    comes back unchanged, provided its serialised form is an object.
   */
  lemma EchoRoundTrip<T>(v: T, serialize: T -> Result<JsValue, SerdeError>,
                         deserialize: JsValue -> Result<T, SerdeError>)
    requires serialize(v).Ok? && serialize(v).value.Object?
    requires deserialize(serialize(v).value) == Ok(v)
    ensures JsFromSerde(v, serialize).Ok?
    ensures ObjectFromJs(JsFromSerde(v, serialize).value).Ok?
    ensures SerdeFromJsResult(Ok(ObjectFromJs(JsFromSerde(v, serialize).value).value), deserialize) == Ok(v)
  {
  }
}
