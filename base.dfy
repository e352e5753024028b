/** Value types shared by every part of the model: Java's 32-bit `int`, null-able
    references, thrown exceptions, and the opaque values (floats, JSON bodies,
    callback objects) that the library only stores and passes on. */
module Base {

  /** Java's `int`. */
  newtype int32 = x: int | -0x8000_0000 <= x < 0x8000_0000

  /** A reference that may be `null`. */
  datatype Option<+T> = None | Some(value: T)

  /** The exceptions the modelled code can throw. */
  datatype Exception =
    | IllegalStateException(message: string)
    | NullPointerException

  /** The result of a Java method that returns a value or throws. */
  datatype Result<+T> = Success(value: T) | Failure(exception: Exception)

  /** The result of a Java `void` method that returns normally or throws. */
  datatype Outcome = Normal | Thrown(exception: Exception)

  /** A Java `float`, carried as its IEEE 754 binary32 bit pattern; the model
      never computes with it. */
  datatype Float = Float(bits: bv32)

  /** A `JSONObject` body, carried as its serialised text; it is never inspected. */
  datatype Json = Json(text: string)

  /** `new JSONObject()`. */
  const EMPTY_JSON: Json := Json("{}")

  /** The identity of a callback object handed in by the application. */
  datatype Callback = Callback(id: nat)

  /** `HttpRequest.Method`: the HTTP methods a request may use. */
  datatype Method = GET | POST | PUT | DELETE

  /** The contents of a lazily created map field: `null` reads as empty. */
  function MapOf<K, V>(m: Option<map<K, V>>): map<K, V>
  {
    if m.Some? then m.value else map[]
  }
}
