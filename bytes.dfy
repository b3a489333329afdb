/** Raw bytes, as Go's []byte. */
module Bytes {
  /** One octet. */
  type Byte = b: int | 0 <= b < 256
}
