/**
 * `POST /api/auth/send-code`: checks the admin credentials and the phone number, clears expired
 * two-factor sessions, stores a new session with a fresh six-digit code and hands the code to
 * the Telegram bot. Time is `now` in milliseconds, the random draw is `offset`, the database
 * assigns the new session's `id`, and what the Bot API answers is a `BotApi` value.
 */
module SendCode {
  import opened Wrappers
  import opened Text
  import opened Http
  import opened Schema
  import ValidateLogin

  /** Five minutes, in milliseconds: how long a code stays valid. */
  const CodeLifetime: int := 5 * 60 * 1000

  /**
   * `generateCode`: `Math.floor(100000 + Math.random() * 900000)` written in decimal, where
   * `offset` is the whole part of `Math.random() * 900000`.
   */
  function GenerateCode(offset: nat): (code: string)
    requires offset < 900000
    ensures |code| == 6 && AllDigits(code)
    ensures ParseNat(code) == 100000 + offset
  {
    assert Pow10(5) == 100000 && Pow10(6) == 1000000;
    NatToStringLength(100000 + offset, 6);
    ParseNatToString(100000 + offset);
    NatToString(100000 + offset)
  }

  /** Different draws give different codes: every code in 100000..999999 comes from exactly one draw. */
  lemma GenerateCodeInjective(a: nat, b: nat)
    requires a < 900000 && b < 900000 && GenerateCode(a) == GenerateCode(b)
    ensures a == b
  {
    assert ParseNat(GenerateCode(a)) == ParseNat(GenerateCode(b));
  }

  /** The sessions `deleteMany({ where: { expires_at: { lt: now } } })` leaves. */
  function Unexpired(sessions: map<string, Session>, now: int): (r: map<string, Session>)
    ensures forall id :: id in r ==> id in sessions && r[id] == sessions[id] && now <= r[id].expiresAt
    ensures forall id :: id in sessions && now <= sessions[id].expiresAt ==> id in r
  {
    map id | id in sessions && !(sessions[id].expiresAt < now) :: sessions[id]
  }

  /** `cleanupExpiredSessions`: deletes every session whose expiry is strictly earlier than `now`. */
  method CleanupExpiredSessions(sessions: SessionTable, now: int)
    modifies sessions
    ensures sessions.rows == Unexpired(old(sessions.rows), now)
    ensures forall id :: id in sessions.rows ==> now <= sessions.rows[id].expiresAt
    ensures forall id :: id in old(sessions.rows) && now <= old(sessions.rows)[id].expiresAt ==>
              id in sessions.rows && sessions.rows[id] == old(sessions.rows)[id]
  {
    sessions.rows := Unexpired(sessions.rows, now);
  }

  // ---------------------------------------------------------------- Telegram delivery

  /** What the Bot API answers: `getMe` reports `ok`, `sendMessage` answers with a 2xx status. */
  datatype BotApi = BotApi(getMeOk: bool, sendMessageOk: bool)

  /** Token values that switch the handler into demo mode (the code only goes to the log). */
  predicate IsPlaceholderToken(key: string) {
    key == "YOUR_BOT_TOKEN_HERE" || key == "DEMO_BOT_TOKEN" || key == "YOUR_REAL_TOKEN_HERE"
  }

  /** The bot token of the first row that has one, or "" when there is none. */
  function BotToken(settings: seq<Setting>): (t: string)
    ensures (forall i :: 0 <= i < |settings| ==> settings[i].telegramKey.None?) ==> t == ""
    ensures t != "" ==> exists i :: 0 <= i < |settings| && settings[i].telegramKey == Some(t) &&
                                    forall j :: 0 <= j < i ==> settings[j].telegramKey.None?
    ensures forall i :: (0 <= i < |settings| && settings[i].telegramKey.Some? &&
                         forall j :: 0 <= j < i ==> settings[j].telegramKey.None?) ==>
                          t == settings[i].telegramKey.value
  {
    match FirstWithTelegramKey(settings)
    case None => ""
    case Some(row) =>
      row.telegramKey.GetOr("")
  }

  /**
   * `sendTelegramMessage`'s answer. `chatId` is the row's `chat_id` property, "" when the row has
   * none; a network error counts as a failed call.
   */
  function TelegramDelivers(settings: seq<Setting>, chatId: string, api: BotApi): (sent: bool)
    ensures FirstWithTelegramKey(settings).None? ==> !sent
    ensures IsPlaceholderToken(BotToken(settings)) ==> sent
    ensures sent && !IsPlaceholderToken(BotToken(settings)) ==>
              BotToken(settings) != "" && chatId != "" && api.getMeOk && api.sendMessageOk
    ensures (BotToken(settings) != "" && !IsPlaceholderToken(BotToken(settings)) && chatId != "" &&
             api.getMeOk && api.sendMessageOk) ==> sent
  {
    var key := BotToken(settings);
    if key == "" then false
    else if IsPlaceholderToken(key) then true
    else if chatId == "" then false
    else api.getMeOk && api.sendMessageOk
  }

  // ---------------------------------------------------------------- the handler

  /** The JSON body; an absent field is "". */
  datatype Request = Request(login: string, password: string, phoneNumber: string)

  /** The success body: the new session's id and the phone number echoed back. */
  datatype CodeSent = CodeSent(sessionId: string, phoneNumber: string)

  /** The session `POST` stores for this request. */
  function NewSession(req: Request, now: int, offset: nat): (s: Session)
    requires offset < 900000
    ensures s.phone == req.phoneNumber && s.expiresAt == now + CodeLifetime
    ensures |s.code| == 6 && AllDigits(s.code) && 100000 <= ParseNat(s.code) <= 999999
  {
    Session(req.phoneNumber, GenerateCode(offset), now + CodeLifetime)
  }

  /** The response of `POST` and the session table it leaves behind. */
  function Outcome(settings: seq<Setting>, sessions: map<string, Session>, req: Request, now: int,
                   offset: nat, id: string, delivered: bool): (out: (Response<CodeSent>, map<string, Session>))
    requires offset < 900000
    ensures out.0.Ok? <==> req.phoneNumber != "" && ValidateLogin.Post(settings, req.login, req.password).Ok? && delivered
    ensures out.0.Ok? ==> out.0 == Ok(200, CodeSent(id, req.phoneNumber))
    ensures req.phoneNumber == "" || ValidateLogin.Post(settings, req.login, req.password).Err? ==> out.1 == sessions
    ensures req.phoneNumber != "" && ValidateLogin.Post(settings, req.login, req.password).Ok? ==>
              out.1 == Unexpired(sessions, now)[id := NewSession(req, now, offset)]
    ensures req.login == "" || req.password == "" ==> out.0 == Err(400, "Логин и пароль обязательны")
    ensures req.login != "" && req.password != "" && req.phoneNumber == "" ==>
              out.0 == Err(400, "Номер телефона обязателен")
    ensures var check := ValidateLogin.Post(settings, req.login, req.password);
            (req.login != "" && req.password != "" && req.phoneNumber != "" && check.Err?) ==>
              out.0 == Err(check.status, check.error)
    ensures (req.phoneNumber != "" && ValidateLogin.Post(settings, req.login, req.password).Ok? && !delivered) ==>
              out.0 == Err(500, "Ошибка отправки кода в Telegram")
  {
    if req.login == "" || req.password == "" then (Err(400, "Логин и пароль обязательны"), sessions)
    else if req.phoneNumber == "" then (Err(400, "Номер телефона обязателен"), sessions)
    else
      var check := ValidateLogin.Post(settings, req.login, req.password);
      if check.Err? then (Err(check.status, check.error), sessions)
      else
        var rows := Unexpired(sessions, now)[id := NewSession(req, now, offset)];
        if !delivered then (Err(500, "Ошибка отправки кода в Telegram"), rows)
        else (Ok(200, CodeSent(id, req.phoneNumber)), rows)
  }

  /**
   * `POST`: the credential checks, then cleanup, then the new session, then delivery. `id` is the
   * id the database gives the new row.
   */
  method Post(settings: SettingTable, sessions: SessionTable, req: Request, now: int, offset: nat,
              id: string, chatId: string, api: BotApi) returns (r: Response<CodeSent>)
    requires offset < 900000
    modifies sessions
    ensures (r, sessions.rows) ==
            Outcome(settings.rows, old(sessions.rows), req, now, offset, id, TelegramDelivers(settings.rows, chatId, api))
  {
    if req.login == "" || req.password == "" {
      return Err(400, "Логин и пароль обязательны");
    }
    if req.phoneNumber == "" {
      return Err(400, "Номер телефона обязателен");
    }
    var admin := FirstAdmin(settings.rows);
    if admin.None? {
      return Err(500, "Настройки админа не найдены в базе данных");
    }
    if admin.value.loginAdmin != Some(req.login) || admin.value.passwordAdmin != Some(req.password) {
      return Err(401, "Неверный логин или пароль");
    }
    CleanupExpiredSessions(sessions, now);
    sessions.rows := sessions.rows[id := NewSession(req, now, offset)];
    var sent := TelegramDelivers(settings.rows, chatId, api);
    if !sent {
      return Err(500, "Ошибка отправки кода в Telegram");
    }
    r := Ok(200, CodeSent(id, req.phoneNumber));
  }

  // ---------------------------------------------------------------- properties

  /** Without the login, the password or the phone number nothing is written and the answer is 400. */
  lemma MissingFieldsWriteNothing(settings: seq<Setting>, sessions: map<string, Session>, req: Request,
                                  now: int, offset: nat, id: string, delivered: bool)
    requires offset < 900000
    requires req.login == "" || req.password == "" || req.phoneNumber == ""
    ensures var out := Outcome(settings, sessions, req, now, offset, id, delivered);
            out.0.Err? && out.0.status == 400 && out.1 == sessions
  {
  }

  /** A failed delivery still leaves the new session in the table. */
  lemma FailedDeliveryKeepsSession(settings: seq<Setting>, sessions: map<string, Session>, req: Request,
                                   now: int, offset: nat, id: string)
    requires offset < 900000
    requires req.phoneNumber != "" && ValidateLogin.Post(settings, req.login, req.password).Ok?
    ensures var out := Outcome(settings, sessions, req, now, offset, id, false);
            out.0 == Err(500, "Ошибка отправки кода в Telegram") && id in out.1 && out.1[id] == NewSession(req, now, offset)
  {
  }

  /** After a successful call the table holds no session that expired before `now`. */
  lemma NoExpiredSessionSurvives(settings: seq<Setting>, sessions: map<string, Session>, req: Request,
                                 now: int, offset: nat, id: string, delivered: bool)
    requires offset < 900000
    requires Outcome(settings, sessions, req, now, offset, id, delivered).0.Ok?
    ensures var rows := Outcome(settings, sessions, req, now, offset, id, delivered).1;
            forall sid :: sid in rows ==> now <= rows[sid].expiresAt
  {
  }
}
