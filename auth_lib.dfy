/**
 * The route guard helpers: `validateToken` reads the `admin-token` cookie and verifies it,
 * `withAuth` wraps a handler with that check. Verification (`jsonwebtoken.verify`) is the
 * parameter `verify`, which answers `None` where the library throws.
 */
module AuthLib {
  import opened Wrappers
  import opened Http

  /** `validateToken`: the decoded payload, or the 401 response to return instead. */
  function ValidateToken<Payload>(token: string, verify: string -> Option<Payload>): (r: Response<Payload>)
    ensures token == "" ==> r == Err(401, "Требуется авторизация")
    ensures token != "" && verify(token).None? ==> r == Err(401, "Недействительный токен")
    ensures r.Ok? <==> token != "" && verify(token).Some?
    ensures r.Ok? ==> r.value == verify(token).value
  {
    if token == "" then Err(401, "Требуется авторизация")
    else
      match verify(token)
      case None => Err(401, "Недействительный токен")
      case Some(payload) => Ok(200, payload)
  }

  /**
   * `withAuth(handler)` applied to a request whose cookie holds `token`: the validation error,
   * or whatever the handler answers for the same request.
   */
  function WithAuth<Payload, Req, T>(token: string, verify: string -> Option<Payload>, request: Req,
                                     handler: Req -> Response<T>): (r: Response<T>)
    ensures ValidateToken(token, verify).Err? ==>
              r == Err(ValidateToken(token, verify).status, ValidateToken(token, verify).error)
    ensures ValidateToken(token, verify).Ok? ==> r == handler(request)
  {
    match ValidateToken(token, verify)
    case Err(status, error) => Err(status, error)
    case Ok(_, _) => handler(request)
  }

  /** A rejected request never reaches the handler: its answer does not depend on the handler. */
  lemma RejectedRequestIgnoresHandler<Payload, Req, T>(token: string, verify: string -> Option<Payload>,
                                                      request: Req, h1: Req -> Response<T>, h2: Req -> Response<T>)
    requires ValidateToken(token, verify).Err?
    ensures WithAuth(token, verify, request, h1) == WithAuth(token, verify, request, h2)
  {
  }
}
