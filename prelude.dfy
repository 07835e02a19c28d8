/**
  Rust's Option and Result, Rust's i32, and the dynamically typed values
  the browser host hands to the bindings (wasm-bindgen's JsValue).
  Everything else in the project is stated over these.
 */
module Prelude {

  datatype Option<+T> = None | Some(value: T)

  datatype Result<+T, +E> = Ok(value: T) | Err(error: E)

  /** Rust's i32. */
  newtype Int32 = x: int | -0x8000_0000 <= x < 0x8000_0000

  /**
    A host value. Only the distinctions the bindings inspect are kept:
    whether it is a string (`as_string`) and whether it is an object
    (`Object::try_from`); an object is known by its host handle.
    JavaScript numbers are doubles; here they are integers, which is all
    the model needs to tell them apart from strings and objects.
   */
  datatype JsValue =
    | Undefined
    | Null
    | Bool(b: bool)
    | Number(n: int)
    | Str(s: string)
    | Object(handle: nat)

  /** An opaque serde_json failure. */
  datatype SerdeError = SerdeError(message: string)

  /** `JsValue::as_string`: the text of a string value, nothing otherwise. */
  function AsString(v: JsValue): (r: Option<string>)
    ensures r.Some? <==> v.Str?
    ensures r.Some? ==> r.value == v.s
  {
    if v.Str? then Some(v.s) else None
  }

  /** True when every character is an ASCII lower-case letter. */
  predicate IsLowerAscii(s: string)
  {
    forall i :: 0 <= i < |s| ==> 'a' <= s[i] <= 'z'
  }
}
