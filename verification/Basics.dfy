/** Types shared by the modules: bytes, machine integers, status codes and roles. */
module Basics {

  newtype Byte = b: int | 0 <= b < 0x100

  type Int8 = x: int | -0x80 <= x < 0x80

  type Int16 = x: int | -0x8000 <= x < 0x8000

  /** The C enum is an int, and errno values are cast into it unchanged. */
  type Status = int

  const OK: Status := 0
  const INVALID_ARGUMENT: Status := -1
  const INVALID_STATE: Status := -2
  const NOT_FOUND: Status := -3
  const NO_MEMORY: Status := -4
  const QUEUE_FULL: Status := -5
  const SIZE_MISMATCH: Status := -6

  datatype Option<+T> = None | Some(value: T)

  datatype Result<+T> = Ok(value: T) | Err(status: Status)

  datatype Role = Unknown | KeyboardInput | ConsumerInput | MouseInput | MouseFeature | LedOutput

  function Min(a: int, b: int): int {
    if a <= b then a else b
  }
}
