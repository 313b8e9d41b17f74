/** The client's view of the backend: every HTTP call is an abstract result,
    success with the response body or failure with the server's optional
    `message`. */
module Http {

  datatype Option<+T> = None | Some(value: T)

  /** The outcome of one request: the response body, or a failure that may
      carry the `message` field of the error response. */
  datatype Response<+T> = Ok(data: T) | Fail(message: Option<string>)

  /** How an awaited call ended for its caller: it resolved, or it threw with
      the server's optional message. */
  datatype Completion = Resolved | Rejected(message: Option<string>)

  /** `error.response?.data?.message || fallback`. JavaScript's `||` falls
      back both when the message is missing and when it is the empty string,
      so the text shown is the server's own message when it has one and the
      page's default otherwise; it is never empty when the default is not. */
  function ErrorText(message: Option<string>, fallback: string): (r: string)
    ensures r == fallback || message == Some(r)
    ensures message.Some? && message.value != "" ==> r == message.value
    ensures fallback != "" ==> r != ""
  {
    if message.Some? && message.value != "" then message.value else fallback
  }

  /** `Promise.all` over three requests, treated as one atomic result: it
      succeeds with all three bodies exactly when every request succeeds.
      `Promise.all` rejects with the first rejection in time; since timing
      is not modelled, the model keeps the message of the first failing
      request in argument order instead. */
  function All3<A, B, C>(a: Response<A>, b: Response<B>, c: Response<C>): (r: Response<(A, B, C)>)
    ensures r.Ok? <==> a.Ok? && b.Ok? && c.Ok?
    ensures r.Ok? ==> r.data == (a.data, b.data, c.data)
  {
    if a.Fail? then Fail(a.message)
    else if b.Fail? then Fail(b.message)
    else if c.Fail? then Fail(c.message)
    else Ok((a.data, b.data, c.data))
  }
}
