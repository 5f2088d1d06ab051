/** Small value types shared by every module of the ledger model. */
module Common {

  /** Python's `None` next to a value. */
  datatype Option<+T> = None | Some(value: T)

  /** A hexadecimal SHA-256 digest, as `hexdigest()` returns it. */
  type Digest = string

  /** A wallet address: the hex export of a key. */
  type Address = string
}
