/** Value types shared by the whole model: Go's fixed-width integers and an optional value. */
module Basics {

  /** Go's `int32`. */
  newtype int32 = x: int | -0x8000_0000 <= x < 0x8000_0000

  /** Go's `int64`. */
  newtype int64 = x: int | -0x8000_0000_0000_0000 <= x < 0x8000_0000_0000_0000

  /** Go's `uint32`, the type PostgreSQL's `oid` column is scanned into. */
  newtype uint32 = x: int | 0 <= x < 0x1_0000_0000

  datatype Option<+T> = None | Some(value: T)
}
