/** Option and Result, the two wrapper types the element's code pattern-matches on, and raw bytes. */
module Wrappers {

  datatype Option<+T> = None | Some(value: T)

  datatype Result<+R, +E> = Ok(value: R) | Err(error: E)

  /** The raw content of an asset or a file. */
  type Bytes = seq<bv8>
}
