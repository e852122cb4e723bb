/** Values exchanged with the HTTP client: request configurations, error responses
    and what a caller's promise is rejected with. */
module Http {

  datatype Option<+T> = None | Some(value: T)

  /** A request configuration as the client keeps it: its URL and its headers. */
  datatype Request = Request(url: string, headers: map<string, string>)

  /** The body of an error response, reduced to its `message` field (absent when missing or
      not a string). */
  datatype Body = Body(message: Option<string>)

  /** A response: its status code and its body (absent when the response carries none). */
  datatype Response = Response(status: int, data: Option<Body>)

  /** A failed request: the response (absent for a network failure) and the
      configuration of the request that failed. */
  datatype ResponseError = ResponseError(response: Option<Response>, config: Request)

  /** What a promise is rejected with. */
  datatype Failure =
    | Raw(error: ResponseError)          // the error object, unchanged
    | AppError(message: Option<string>)  // an application error carrying the server's message
    | StorageFailure                     // the token store could not be read or written

  const AuthorizationHeader: string := "Authorization"

  /** The header value `Bearer <token>`. */
  function Bearer(token: string): (v: string)
    ensures |v| == |token| + 7 && v[..7] == "Bearer " && v[7..] == token
  {
    "Bearer " + token
  }

  /** The request re-stamped with a new credential: only its Authorization header changes. */
  function Stamp(req: Request, token: string): (r: Request)
    ensures r.url == req.url
    ensures r.headers.Keys == req.headers.Keys + {AuthorizationHeader}
    ensures r.headers[AuthorizationHeader] == Bearer(token)
    ensures forall k :: k in req.headers && k != AuthorizationHeader ==> r.headers[k] == req.headers[k]
  {
    req.(headers := req.headers[AuthorizationHeader := Bearer(token)])
  }
}
