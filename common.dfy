/** Small shared vocabulary: optional values, results of operations that can
    throw, and the byte buffers that MQTT messages arrive in. */
module Common {

  /** A value that may be absent (`null`/`undefined`, or `NaN` from parseInt). */
  datatype Option<+T> = None | Some(value: T)

  /** The outcome of an operation that either returns a value or throws. */
  datatype Result<+T, +E> = Ok(value: T) | Err(error: E)

  type Byte = bv8

  /** A Node.js `Buffer`: a view of `length` bytes starting at `byteOffset`
      into a (possibly larger, pooled) backing `ArrayBuffer`. */
  datatype Buffer = Buffer(backing: seq<Byte>, byteOffset: nat, length: nat)
}
