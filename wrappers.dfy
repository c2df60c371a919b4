/** Option and Result values shared by the wallet, identity and strategy models. */
module Wrappers {

  datatype Option<+T> = None | Some(value: T)

  datatype Result<+T, +E> = Ok(value: T) | Err(error: E)

  /** Raw byte strings (keys, hashes, serialized messages). */
  type Byte = x: int | 0 <= x < 256
  type Bytes = seq<Byte>
}
