/** The shape of the HTTP responses the two serverless handlers produce. */
module Http {
  import opened Wrappers

  /**
   * A response: its status code, its `Content-Type` header (None when the
   * handler sets none) and its body (None for a `null` body).
   */
  datatype Response = Response(status: int, contentType: Option<string>, body: Option<string>)

  /** `new Response(null, { status })`: a response without a body. */
  function EmptyResponse(status: int): Response
  {
    Response(status, None, None)
  }

  /** `new Response(text, { status })`: a string body, which the runtime types as plain text. */
  function TextResponse(text: string, status: int): Response
  {
    Response(status, Some("text/plain;charset=UTF-8"), Some(text))
  }

  /**
   * What the edge runtime (`Deno.serve`) sends when a handler throws an exception it
   * does not catch: status 500 with a plain-text body.
   */
  const UncaughtException: Response := TextResponse("Internal Server Error", 500)
}
