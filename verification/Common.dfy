/** Small types and arithmetic shared by the whole model. */
module Common {

  datatype Option<+T> = None | Some(value: T)

  /** File contents. The checks the code makes on contents (hashes, signatures) are
      left as parameters of the model, so contents need no structure. */
  type Bytes = string

  /** Go's `int` on the 64-bit targets this code is built for. */
  const MAX_INT: int := 0x7FFF_FFFF_FFFF_FFFF
  const TWO_TO_THE_64: int := 0x1_0000_0000_0000_0000

  function Min(a: nat, b: nat): nat { if a < b then a else b }

  function Max(a: int, b: int): int { if a < b then b else a }
}
