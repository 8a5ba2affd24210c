/**
 * The two halves of Python's async machinery that the blocking bridge relies on.
 * Calling an `async def` method does not run it: it returns a coroutine object
 * that captures the call. asyncio.run drives a coroutine to completion and
 * returns what it returned, or re-raises what it raised.
 */
module Async {
  import opened Wrappers
  import opened Exceptions

  /** A coroutine object: the captured call, whose outcome appears only when it is driven. */
  datatype Coroutine<T> = Coroutine(step: () -> Result<T, Failure>)

  /** asyncio.run(co): the coroutine's return value, or its exception unchanged. */
  function Run<T>(co: Coroutine<T>): Result<T, Failure> {
    co.step()
  }
}
