/**
  The crate's error type and the conversion from a host value
  (src/error.rs:6-17; the older copy is src/lib.rs:32-44).
 */
module Errors {
  import opened Prelude

  /**
    How a wrapped host call can fail: the host rejected it, its reply could
    not be deserialised, the request could not be serialised, or the
    serialised request was not an object.
   */
  datatype Error =
    | JsError(value: JsValue)
    | JsonDeserialization(cause: SerdeError)
    | JsonSerialization(cause: SerdeError)
    | ObjectConversion

  /** `From<JsValue> for Error`: a host value becomes a host error carrying it. */
  function FromJsValue(v: JsValue): (e: Error)
    ensures e.JsError? && e.value == v
  {
    JsError(v)
  }

  /** Distinct host values give distinct errors: nothing of the value is lost. */
  lemma FromJsValueInjective(a: JsValue, b: JsValue)
    ensures FromJsValue(a) == FromJsValue(b) <==> a == b
  {
  }
}

/**
  `FromWasmAbiResult`, the crate's own result type used at the wasm
  boundary, and its conversions to and from Rust's `Result`
  (src/error.rs:19-43; the older copy is src/lib.rs:62-86).
  It lives in a module of its own because its constructors share the
  names `Ok` and `Err` with `Prelude.Result`.
 */
module WasmAbi {
  import P = Prelude

  datatype FromWasmAbiResult<+T, +E> = Ok(value: T) | Err(error: E)

  /** `From<FromWasmAbiResult<T, E>> for Result<T, E>`. */
  function IntoResult<T, E>(r: FromWasmAbiResult<T, E>): (res: P.Result<T, E>)
    ensures res.Ok? <==> r.Ok?
    ensures res.Ok? ==> res.value == r.value
    ensures res.Err? ==> res.error == r.error
  {
    match r
    case Ok(v) => P.Ok(v)
    case Err(e) => P.Err(e)
  }

  /** `From<Result<T, E>> for FromWasmAbiResult<T, E>`. */
  function FromResult<T, E>(res: P.Result<T, E>): (r: FromWasmAbiResult<T, E>)
    ensures r.Ok? <==> res.Ok?
    ensures r.Ok? ==> r.value == res.value
    ensures r.Err? ==> r.error == res.error
  {
    match res
    case Ok(v) => Ok(v)
    case Err(e) => Err(e)
  }

  /** Result -> FromWasmAbiResult -> Result is the identity, on both arms. */
  lemma ResultRoundTrip<T, E>(res: P.Result<T, E>)
    ensures IntoResult(FromResult(res)) == res
  {
  }

  /** FromWasmAbiResult -> Result -> FromWasmAbiResult is the identity. */
  lemma AbiResultRoundTrip<T, E>(r: FromWasmAbiResult<T, E>)
    ensures FromResult(IntoResult(r)) == r
  {
  }
}
