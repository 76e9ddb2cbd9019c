module Bytes {
  newtype byte = i: int | 0 <= i < 256
}
