/** What the readers have in common. */
module Streams {
  import opened Basics

  newtype int64 = x: int | -0x8000_0000_0000_0000 <= x < 0x8000_0000_0000_0000

  const MAX_INT64: int64 := 0x7FFF_FFFF_FFFF_FFFF

  /** How a read ends besides the bytes it gives. */
  datatype Ending = More | Eof | Fault(error: Error)

  datatype Whence = FromStart | FromCurrent | FromEnd | Unknown
}
