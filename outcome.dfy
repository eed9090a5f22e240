/** Business results and their two representations (src/runtime.rs:9-25). */
module Outcome {

  /** Rust's `Result`: the business-level result of a call. */
  datatype Result<T, E> = Ok(value: T) | Err(error: E)

  datatype Option<T> = None | Some(value: T)

  /** `RuntimeResult`: the value the dispatch loop forwards to a waiting caller. */
  datatype RuntimeResult<O, E> = RtOk(ok: O) | RtErr(err: E)

  /** The `Into<Result>` conversion (src/runtime.rs:14-25): keeps the tag and the payload. */
  function IntoResult<O, E>(r: RuntimeResult<O, E>): (res: Result<O, E>)
    ensures res.Ok? <==> r.RtOk?
    ensures r.RtOk? ==> res.value == r.ok
    ensures r.RtErr? ==> res.error == r.err
  {
    match r
    case RtOk(o) => Ok(o)
    case RtErr(e) => Err(e)
  }

  /** The match the dispatch loop applies before forwarding an outcome
      (src/runtime.rs:122-125 and 134-137); `IntoResult` undoes it. */
  function FromResult<O, E>(res: Result<O, E>): (r: RuntimeResult<O, E>)
    ensures IntoResult(r) == res
  {
    match res
    case Ok(o) => RtOk(o)
    case Err(e) => RtErr(e)
  }

  /** The other direction of the round trip: `FromResult` undoes `IntoResult`. */
  lemma FromIntoResult<O, E>(r: RuntimeResult<O, E>)
    ensures FromResult(IntoResult(r)) == r
  {
  }
}
