/** Types shared by every module: identifiers, bytes and the Option datatype. */
module Base {
  newtype byte = b: int | 0 <= b < 256

  type Bytes = seq<byte>
  type UserId = string
  type MediaId = string
  type Path = string

  datatype Option<+T> = None | Some(value: T)

  function Max(a: int, b: int): int {
    if a >= b then a else b
  }

  function Min(a: int, b: int): int {
    if a <= b then a else b
  }
}
