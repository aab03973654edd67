// Text as the bytes it is made of.
module ByteStrings {
  type Byte = b: int | 0 <= b < 256
  type Bytes = seq<Byte>
}
