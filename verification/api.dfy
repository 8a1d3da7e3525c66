/** What the two HTTP API handlers hand back to API Gateway. */
module ApiGateway {
  import opened Json

  const Ok := 200
  const BadRequest := 400
  const ServerError := 500

  /** A proxy response; `body` is the document the handler passes to
      `JSON.stringify`. */
  datatype Response = Response(statusCode: int, body: Json)

  /** A handler either resolves with a response or rejects. */
  datatype HandlerResult = Answered(response: Response) | Threw(error: string)

  /** `{ message }`, the error responses' body. */
  function ErrorResponse(statusCode: int, message: string): Response {
    Response(statusCode, JObj([("message", JStr(message))]))
  }

  /** The handler resolved, with status `code`. */
  predicate AnsweredWith(r: HandlerResult, code: int) {
    r.Answered? && r.response.statusCode == code
  }
}
