/** Shared value types: optional values, results carrying the error that Go
    returns beside a value (or that lang.FatalOnError would abort on), and
    raw byte blobs as read from or written to disk. */
module Base {

  datatype Option<+T> = None | Some(value: T)

  /** A Go `(value, error)` pair with the error path made explicit. */
  datatype Result<+T> = Ok(value: T) | Err(error: string)

  type Byte = b: int | 0 <= b < 256

  type Bytes = seq<Byte>
}
