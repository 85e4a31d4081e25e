/** Types shared by every part of the cache: bytes, optional values and the
    errors that a store's Update can report. */
module Common {

  /** One octet of a response body or a digest. */
  newtype byte = x: int | 0 <= x < 256

  /** An opaque byte sequence: a cached response body. A Go `nil` slice is the
      empty sequence. */
  type Bytes = seq<byte>

  datatype Option<+T> = None | Some(value: T)

  /** The error values a store's Update returns:
      - KeyNotExists: "key not exists" (every store),
      - ExistsFailed: the backend's existence check failed (Redis only),
      - SetFailed: the backend's rewrite failed (Redis only). */
  datatype CacheError = KeyNotExists | ExistsFailed | SetFailed
}
