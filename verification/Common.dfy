/** Failure-carrying values and small helpers shared by every component. */
module Common {

  /** Byte limit of a page on the wire and of every bounded response, and what its envelope may take. */
  const MAX_PAGE_BYTES := 16 * 1024 * 1024
  const PAGE_ENVELOPE_RESERVE := 16 * 1024

  datatype Option<+T> = None | Some(value: T)

  datatype Result<+T, +E> = Ok(value: T) | Err(error: E)

  function Max(a: int, b: int): int {
    if a < b then b else a
  }

  function RemoveAt<T>(xs: seq<T>, k: nat): seq<T>
    requires k < |xs|
  {
    xs[..k] + xs[k + 1..]
  }

  function Min(a: int, b: int): int {
    if a < b then a else b
  }
}
