/** The outcome of a Go call that either returns normally or panics. */
module Wrappers {

  /** `Ok(v)`: the call returned `v`; `Panic(reason)`: the call panicked (the reason is the panic text, abridged). */
  datatype Result<+T> = Ok(value: T) | Panic(reason: string)

  /** Go's nil-able references (a nil interface, a nil pointer argument). */
  datatype Option<+T> = None | Some(value: T)
}
