/** Bytes and their SHA-256. The digest is a constructor, so equal digests come from equal bytes: no
    collisions are modelled. */
module Digests {
  newtype Byte = x: int | 0 <= x < 0x100

  datatype Sha = Sha(digested: seq<Byte>)
}
