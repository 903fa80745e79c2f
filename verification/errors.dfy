/** The error reports of the core: a root cause and the chain of contexts
    attached to it while it propagated (eyre's `wrap_err`, Daft's `DaftError`). */
module Errors {
  import opened Results

  /** The classes of failure the core distinguishes. */
  datatype ErrorKind =
    | MissingField          // a required structural field is absent
    | InvalidArgument       // a present field holds a disallowed value
    | UnsupportedOperation  // a recognised but unimplemented, or compiled-out, path
    | UnderlyingFailure     // raised by the evaluation engine, an encoder or the Python runtime

  /** A root cause with its contexts, outermost first. */
  datatype Error = Error(kind: ErrorKind, message: string, context: seq<string>)

  /** Attaches `ctx` as the new outermost context. */
  function Wrap(e: Error, ctx: string): Error {
    e.(context := [ctx] + e.context)
  }

  /** `wrap_err` on a result: successes pass through, failures gain `ctx`. */
  function WrapErr<T>(r: Result<T, Error>, ctx: string): Result<T, Error> {
    match r
    case Ok(v) => Ok(v)
    case Err(e) => Err(Wrap(e, ctx))
  }
}
