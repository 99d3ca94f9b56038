/**
 * `POST /api/auth/resend-code`: draws a new code for an existing session, overwrites the
 * session's code and expiry, and reports delivery. Its `sendTelegramMessage` only checks that
 * some settings row has a non-empty bot token.
 */
module ResendCode {
  import opened Wrappers
  import opened Http
  import opened Schema
  import SendCode

  /** This route's `sendTelegramMessage`: true exactly when a non-empty bot token exists. */
  function Delivers(settings: seq<Setting>): (sent: bool)
    ensures sent <==> FirstWithTelegramKey(settings).Some? && SendCode.BotToken(settings) != ""
  {
    SendCode.BotToken(settings) != ""
  }

  /** The session after a resend: same phone, new code, new expiry. */
  function Renewed(session: Session, now: int, offset: nat): (s: Session)
    requires offset < 900000
    ensures s.phone == session.phone
    ensures s.code == SendCode.GenerateCode(offset) && s.expiresAt == now + SendCode.CodeLifetime
  {
    session.(code := SendCode.GenerateCode(offset), expiresAt := now + SendCode.CodeLifetime)
  }

  /** The response of `POST` and the session table it leaves behind. */
  function Outcome(sessions: map<string, Session>, sessionId: string, now: int, offset: nat,
                   delivered: bool): (out: (Response<string>, map<string, Session>))
    requires offset < 900000
    ensures out.0.Ok? <==> sessionId != "" && sessionId in sessions && delivered
    ensures sessionId == "" || sessionId !in sessions ==> out.1 == sessions
    ensures sessionId != "" && sessionId in sessions ==>
              out.1 == sessions[sessionId := Renewed(sessions[sessionId], now, offset)]
    ensures out.0.Err? && out.0.status == 404 <==> sessionId != "" && sessionId !in sessions
    ensures sessionId == "" ==> out.0 == Err(400, "Session ID обязателен")
    ensures sessionId != "" && sessionId !in sessions ==> out.0 == Err(404, "Сессия не найдена")
    ensures sessionId != "" && sessionId in sessions && !delivered ==>
              out.0 == Err(500, "Ошибка отправки кода в Telegram")
    ensures out.0.Ok? ==> out.0 == Ok(200, "Новый код отправлен в Telegram")
  {
    if sessionId == "" then (Err(400, "Session ID обязателен"), sessions)
    else if sessionId !in sessions then (Err(404, "Сессия не найдена"), sessions)
    else
      var rows := sessions[sessionId := Renewed(sessions[sessionId], now, offset)];
      if !delivered then (Err(500, "Ошибка отправки кода в Telegram"), rows)
      else (Ok(200, "Новый код отправлен в Telegram"), rows)
  }

  /** `POST`: the update happens before delivery, so it persists even when delivery fails. */
  method Post(settings: SettingTable, sessions: SessionTable, sessionId: string, now: int, offset: nat)
    returns (r: Response<string>)
    requires offset < 900000
    modifies sessions
    ensures (r, sessions.rows) == Outcome(old(sessions.rows), sessionId, now, offset, Delivers(settings.rows))
  {
    if sessionId == "" {
      return Err(400, "Session ID обязателен");
    }
    if sessionId !in sessions.rows {
      return Err(404, "Сессия не найдена");
    }
    var session := sessions.rows[sessionId];
    sessions.rows := sessions.rows[sessionId := Renewed(session, now, offset)];
    var sent := Delivers(settings.rows);
    if !sent {
      return Err(500, "Ошибка отправки кода в Telegram");
    }
    r := Ok(200, "Новый код отправлен в Telegram");
  }
}
