/** Types shared by the whole model. */
module Basics {

  datatype Option<+T> = None | Some(value: T)

  /** One octet. */
  type Byte = x: int | 0 <= x < 256

  /** The value of a TEXT key column: a user id, a session id, a token. */
  type Id = string

  /** What the random supplies return (a UUID or 32 hex digits); in particular never the empty string. */
  type Uuid = s: string | s != "" witness "0"
}
