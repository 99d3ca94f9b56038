/**
 * `POST /api/auth/verify-code`: looks the session up, rejects it once expired (deleting it),
 * compares the code, deletes the session on success and sets a signed `admin-token` cookie.
 * The signer (HS256 over a server secret, section 3.2 of RFC 7518) is the parameter `sign`.
 */
module VerifyCode {
  import opened Http
  import opened Schema

  /** One day in seconds: the token lifetime and the cookie's `maxAge`. */
  const DaySeconds: int := 24 * 60 * 60

  /** The token's payload and registered claims; `iat` and `exp` are in seconds. */
  datatype TokenClaims = TokenClaims(
    authorized: bool,
    phone: string,
    timestamp: int,
    alg: string,
    issuedAt: int,
    expiresAt: int)

  /** A `Set-Cookie` as the handler configures it (attributes of section 4.1 of RFC 6265). */
  datatype Cookie = Cookie(
    name: string,
    value: string,
    httpOnly: bool,
    secure: bool,
    sameSite: string,
    maxAge: int,
    path: string)

  /** The claims signed for a session verified at `now` (milliseconds). */
  function Claims(session: Session, now: int): (c: TokenClaims)
    ensures c.authorized && c.phone == session.phone && c.alg == "HS256"
    ensures c.expiresAt - c.issuedAt == DaySeconds
  {
    TokenClaims(true, session.phone, now, "HS256", now / 1000, now / 1000 + DaySeconds)
  }

  /** The cookie carrying the signed token. */
  function AdminCookie(token: string, production: bool): (c: Cookie)
    ensures c.name == "admin-token" && c.value == token
    ensures c.httpOnly && c.path == "/" && c.maxAge == DaySeconds && c.sameSite == "lax"
    ensures c.secure <==> production
  {
    Cookie("admin-token", token, true, production, "lax", DaySeconds, "/")
  }

  /** The session is present, not yet expired at `now`, and holds `code`. */
  predicate Accepts(sessions: map<string, Session>, sessionId: string, code: string, now: int) {
    sessionId in sessions && !(now > sessions[sessionId].expiresAt) && sessions[sessionId].code == code
  }

  /** The response of `POST` and the session table it leaves behind. */
  function Outcome(sessions: map<string, Session>, sessionId: string, code: string, now: int,
                   production: bool, sign: TokenClaims -> string): (out: (Response<Cookie>, map<string, Session>))
    ensures out.0.Ok? <==> sessionId != "" && code != "" && Accepts(sessions, sessionId, code, now)
    ensures out.0.Ok? ==>
              out.1 == sessions - {sessionId} &&
              out.0 == Ok(200, AdminCookie(sign(Claims(sessions[sessionId], now)), production))
    ensures out.0.Err? && out.0.status == 410 <==>
              sessionId != "" && code != "" && sessionId in sessions && now > sessions[sessionId].expiresAt
    ensures out.0.Err? && out.0.status == 410 ==> out.1 == sessions - {sessionId}
    ensures out.0.Err? && out.0.status != 410 ==> out.1 == sessions
    ensures sessionId == "" || code == "" ==> out == (Err(400, "Session ID и код обязательны"), sessions)
    ensures sessionId != "" && code != "" && sessionId !in sessions ==>
              out == (Err(404, "Сессия не найдена или истекла"), sessions)
    ensures (sessionId != "" && code != "" && sessionId in sessions &&
             now <= sessions[sessionId].expiresAt && sessions[sessionId].code != code) ==>
              out == (Err(401, "Неверный код"), sessions)
  {
    if sessionId == "" || code == "" then (Err(400, "Session ID и код обязательны"), sessions)
    else if sessionId !in sessions then (Err(404, "Сессия не найдена или истекла"), sessions)
    else
      var session := sessions[sessionId];
      if now > session.expiresAt then (Err(410, "Код истек. Запросите новый код"), sessions - {sessionId})
      else if session.code != code then (Err(401, "Неверный код"), sessions)
      else (Ok(200, AdminCookie(sign(Claims(session, now)), production)), sessions - {sessionId})
  }

  /** `POST`, with the early returns of the source. */
  method Post(sessions: SessionTable, sessionId: string, code: string, now: int, production: bool,
              sign: TokenClaims -> string) returns (r: Response<Cookie>)
    modifies sessions
    ensures (r, sessions.rows) == Outcome(old(sessions.rows), sessionId, code, now, production, sign)
  {
    if sessionId == "" || code == "" {
      return Err(400, "Session ID и код обязательны");
    }
    if sessionId !in sessions.rows {
      return Err(404, "Сессия не найдена или истекла");
    }
    var session := sessions.rows[sessionId];
    if now > session.expiresAt {
      sessions.rows := sessions.rows - {sessionId};
      return Err(410, "Код истек. Запросите новый код");
    }
    if session.code != code {
      return Err(401, "Неверный код");
    }
    sessions.rows := sessions.rows - {sessionId};
    var token := sign(Claims(session, now));
    r := Ok(200, AdminCookie(token, production));
  }

  // ---------------------------------------------------------------- properties

  /** Expiry is checked before the code: an expired session answers 410 even to its own code. */
  lemma ExpiryBeforeCode(sessions: map<string, Session>, sessionId: string, now: int, production: bool,
                         sign: TokenClaims -> string)
    requires sessionId in sessions && sessions[sessionId].code != "" && sessionId != ""
    requires now > sessions[sessionId].expiresAt
    ensures Outcome(sessions, sessionId, sessions[sessionId].code, now, production, sign).0.status == 410
  {
  }

  /** The comparison is strict: at the very millisecond of expiry the code is still accepted. */
  lemma AcceptedAtExpiryInstant(sessions: map<string, Session>, sessionId: string, production: bool,
                                sign: TokenClaims -> string)
    requires sessionId in sessions && sessions[sessionId].code != "" && sessionId != ""
    ensures Outcome(sessions, sessionId, sessions[sessionId].code, sessions[sessionId].expiresAt, production, sign).0.Ok?
  {
  }

  /** A wrong code is not fatal: the session stays, and the right code is accepted afterwards. */
  lemma WrongCodeIsRetryable(sessions: map<string, Session>, sessionId: string, wrong: string, now: int,
                             later: int, production: bool, sign: TokenClaims -> string)
    requires sessionId != "" && sessionId in sessions && sessions[sessionId].code != ""
    requires wrong != "" && wrong != sessions[sessionId].code
    requires now <= later <= sessions[sessionId].expiresAt
    ensures var first := Outcome(sessions, sessionId, wrong, now, production, sign);
            first.0 == Err(401, "Неверный код") &&
            Outcome(first.1, sessionId, sessions[sessionId].code, later, production, sign).0.Ok?
  {
  }

  /** Sessions are single use: once a code has been accepted, the same session id answers 404. */
  lemma SingleUse(sessions: map<string, Session>, sessionId: string, code: string, now: int, code2: string,
                  later: int, production: bool, sign: TokenClaims -> string)
    requires Outcome(sessions, sessionId, code, now, production, sign).0.Ok?
    requires code2 != ""
    ensures var rows := Outcome(sessions, sessionId, code, now, production, sign).1;
            Outcome(rows, sessionId, code2, later, production, sign).0 == Err(404, "Сессия не найдена или истекла")
  {
  }
}
