/** The response both ECS handlers hand back to API Gateway or to the direct invoker. */
module Lambda {
  datatype Response = Response(statusCode: int, headers: map<string, string>, body: string)

  const TextPlain: map<string, string> := map["Content-Type" := "text/plain"]

  /** The one shape either handler returns: status 200, plain text, the message as body. */
  function TextResponse(body: string): Response {
    Response(200, TextPlain, body)
  }
}
