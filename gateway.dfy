/**
 * The remote calls of the application, reduced to their outcomes.  Nothing
 * here is executed: each outcome is an input to the functions that react to it.
 */
module Gateway {

  /**
   * What an edge function's `fetch` to the AI gateway gives back: a 2xx reply
   * with its body, a reply with another status, or an exception (network
   * failure, a body that is not JSON, a reply without `choices`).
   */
  datatype Reply<T> = Success(body: T) | HttpError(status: int) | Threw

  /**
   * What `supabase.functions.invoke` gives the client: the decoded body of a
   * 2xx reply, or an error (any other status, or no reply at all).
   */
  datatype Invoke<T> = Data(value: T) | InvokeError

  /** What `invoke` makes of an edge function's reply. */
  function InvokeOf<T>(status: int, body: T): (r: Invoke<T>)
    ensures r.Data? <==> 200 <= status < 300
    ensures r.Data? ==> r.value == body
  {
    if 200 <= status < 300 then Data(body) else InvokeError
  }

  /** The HTTP status codes the functions pass through: 429 and 402. */
  const TooManyRequests: int := 429
  const PaymentRequired: int := 402
  const InternalError: int := 500
}
