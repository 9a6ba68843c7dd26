/** Values shared by every part of the model: optional values, Go-style error
    returns, the opaque database and transaction handles, Go's `time.Duration`
    and the values a goroutine can panic with. */
module Base {

  datatype Option<T> = None | Some(value: T)

  /** The errors the model distinguishes. Errors produced by code outside the
      package (the driver, the database, user callbacks) are `External`. */
  datatype Error =
    | MissingEnvVar(name: string)
    | MalformedDsn
    | External(message: string)

  /** A Go `(T, error)` return: exactly one of the two is meaningful. */
  datatype Result<T> = Ok(value: T) | Err(error: Error)

  /** A Go `error` return on its own: nil (`Done`) or not. */
  datatype Outcome = Done | Failed(error: Error)

  /** An opened `*sql.DB`, identified only by which handle it is. */
  datatype Handle = Handle(id: nat)

  /** An open `*sql.Tx`. */
  datatype Tx = Tx(id: nat)

  /** Go's `time.Duration`: a signed 64-bit count of nanoseconds. */
  newtype Duration = d: int | -0x8000_0000_0000_0000 <= d < 0x8000_0000_0000_0000

  const Second: Duration := 1_000_000_000

  /** What a goroutine can be unwinding with: a nil pointer dereference, a call
      of a nil function value, or a value a test body passed to `panic`. */
  datatype Panic =
    | NilDereference
    | NilFuncCall
    | Raised(payload: string)
}
