/** Go's `byte`: an unsigned 8-bit value. */
module Bytes {

  newtype byte = b: int | 0 <= b < 256
}
