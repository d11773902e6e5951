/**
 * The pieces both handlers share: Go's `error` values, the API Gateway
 * request and response shapes, and `RespondWithError` (common/utils.go).
 */
module Common {
  import opened Models

  datatype Option<T> = None | Some(value: T)

  /** An opaque Go `error`; only its identity matters to the handlers. */
  datatype Error = Error(message: string)

  datatype Result<T> = Ok(value: T) | Err(error: Error)

  /** `events.APIGatewayProxyRequest`, restricted to what the handlers read. */
  datatype Request = Request(
    httpMethod: string,
    path: string,
    pathParameters: map<string, string>,
    body: string)

  /**
   * The response body. The handlers put the HTML-escaped JSON text of a
   * response struct here; the model keeps the struct itself. `Empty` is
   * Go's zero string.
   */
  datatype Body =
    | Empty
    | Created(id: string, message: string)   // CreateResponse
    | UserFound(user: User)                  // UserResponse

  /** `events.APIGatewayProxyResponse`. */
  datatype Response = Response(
    statusCode: int,
    isBase64Encoded: bool,
    body: Body,
    headers: map<string, string>)

  /** What a handler returns: a response and a possibly-nil error. */
  datatype Reply = Reply(response: Response, err: Option<Error>)

  /** A struct literal `events.APIGatewayProxyResponse{StatusCode: code}`. */
  function StatusOnly(code: int): (r: Response)
    ensures r.statusCode == code && !r.isBase64Encoded
    ensures r.body == Empty && r.headers == map[]
  {
    Response(code, false, Empty, map[])
  }

  /** The two headers every success response carries. */
  function ReplyHeaders(funcReply: string): (h: map<string, string>)
    ensures h.Keys == {"Content-Type", "X-MyCompany-Func-Reply"}
    ensures h["Content-Type"] == "application/json" && h["X-MyCompany-Func-Reply"] == funcReply
  {
    map["Content-Type" := "application/json", "X-MyCompany-Func-Reply" := funcReply]
  }

  /** Both handlers' client-error exit: status 400, the error passed through. */
  function RespondWithError(err: Error): (r: Reply)
    ensures r.response.statusCode == 400
    ensures r.err == Some(err)
    ensures r.response.body == Empty && r.response.headers == map[]
    ensures !r.response.isBase64Encoded
  {
    Reply(StatusOnly(400), Some(err))
  }
}
