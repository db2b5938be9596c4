/** Shapes shared by the three request handlers and the client page: optional
    values, the outcome of an awaited upstream step, an HTTP reply as `fetch`
    delivers it, a handler's JSON response, and a handler run paired with the
    ordered log of the upstream calls it made. */
module Upstream {

  /** A JSON field that may be absent (`undefined` / `null`). */
  datatype Option<+T> = None | Some(value: T)

  /** An awaited step either produced a value or threw (transport error,
      unparsable body, ...). */
  datatype Outcome<+T> = Done(value: T) | Threw

  /** What an awaited `fetch` gives: the `ok` flag of its status and what
      `.json()` on its body yields. */
  datatype Reply<+T> = Reply(ok: bool, json: Outcome<T>)

  /** The JSON response of a route handler: status 200 with a body, or an
      error status with `{ error: message }`. */
  datatype Response<+T> = Ok(body: T) | Error(status: int, error: string)

  /** The result of one handler invocation together with the upstream calls it
      made, in the order it made them. */
  datatype Run<+R, +C> = Run(result: R, calls: seq<C>)

  /** `run`, preceded by the calls in `before`. */
  function Then<R, C>(before: seq<C>, run: Run<R, C>): Run<R, C>
  {
    Run(run.result, before + run.calls)
  }

  lemma ThenThen<R, C>(a: seq<C>, b: seq<C>, run: Run<R, C>)
    ensures Then(a, Then(b, run)) == Then(a + b, run)
  {
    assert a + (b + run.calls) == (a + b) + run.calls;
  }

  /** A JSON string is truthy when it is present and not empty. */
  predicate Truthy(s: Option<string>)
  {
    s.Some? && s.value != ""
  }
}
