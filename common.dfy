/** Small value types shared by every module of the model. */
module Common {

  /** An octet, as stored in a `Uint8Array` or written by `DataView.setUint8`. */
  type Byte = b: int | 0 <= b < 256

  /** A present-or-absent value (JavaScript's `undefined`, Python's missing key). */
  datatype Option<+T> = None | Some(value: T)

  /** The outcome of an operation that can throw. */
  datatype Result<+T, +E> = Success(value: T) | Failure(error: E)

  /** The code unit of a character, reduced the way a `Uint8Array` store reduces it. */
  function Latin1(c: char): (b: Byte)
    ensures (c as int) < 256 ==> b == c as int
  {
    (c as int) % 256
  }
}
