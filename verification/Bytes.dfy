/** Byte strings, as Go's `string` and `[]byte` hold them. */
module Bytes {
  type byte = bv8
}
