/**
 * The admin login page: a three-step machine (credentials, phone, code) whose handlers call
 * the auth routes. The route's reply to each call is a parameter; a handler's `throw` is the
 * `thrown` part of its `Effect`.
 */
module LoginPage {
  import opened Wrappers
  import opened Text
  import PhoneInput
  import TwoFactor

  datatype Step = LoginStep | PhoneStep | CodeStep

  datatype LoginData = LoginData(login: string, password: string)

  datatype SessionData = SessionData(sessionId: string, phoneNumber: string)

  /** The request a handler sends. */
  datatype ApiCall =
    | ValidateLoginCall(login: string, password: string)
    | SendCodeCall(login: string, password: string, phoneNumber: string)
    | VerifyCodeCall(sessionId: string, code: string)
    | ResendCodeCall(sessionId: string)

  /** What came back: `response.ok` and the JSON fields the page reads ("" when absent). */
  datatype Reply = Reply(ok: bool, success: bool, error: string, sessionId: string, phoneNumber: string)

  /** A handler's observable effects besides the state: the request, the error thrown, the redirect. */
  datatype Effect = Effect(call: Option<ApiCall>, thrown: Option<string>, redirect: Option<string>)

  /** `data.error || fallback`. */
  function ErrorText(reply: Reply, fallback: string): (msg: string)
    ensures reply.error != "" ==> msg == reply.error
    ensures reply.error == "" ==> msg == fallback
  {
    if reply.error != "" then reply.error else fallback
  }

  class AdminLoginPage {
    var step: Step
    var loginData: Option<LoginData>
    var sessionData: Option<SessionData>

    /** Past the first step the page always holds the checked credentials. */
    ghost predicate Valid()
      reads this
    {
      step != LoginStep ==> loginData.Some?
    }

    constructor()
      ensures Valid()
      ensures step == LoginStep && loginData == None && sessionData == None
    {
      step := LoginStep;
      loginData := None;
      sessionData := None;
    }

    /** The code-entry screen is rendered only at the last step and with a session in hand. */
    predicate ShowsCodeEntry()
      reads this
    {
      step == CodeStep && sessionData.Some?
    }

    /** `handleLogin`: a successful check stores the credentials and moves to the phone step. */
    method HandleLogin(login: string, password: string, reply: Reply) returns (e: Effect)
      requires Valid()
      modifies this
      ensures Valid()
      ensures e.call == Some(ValidateLoginCall(login, password)) && e.redirect == None
      ensures reply.ok ==> e.thrown == None && step == PhoneStep && loginData == Some(LoginData(login, password)) &&
                           sessionData == old(sessionData)
      ensures !reply.ok ==> e.thrown == Some(ErrorText(reply, "Ошибка проверки данных")) &&
                            step == old(step) && loginData == old(loginData) && sessionData == old(sessionData)
    {
      var call := Some(ValidateLoginCall(login, password));
      if !reply.ok {
        return Effect(call, Some(ErrorText(reply, "Ошибка проверки данных")), None);
      }
      loginData := Some(LoginData(login, password));
      step := PhoneStep;
      e := Effect(call, None, None);
    }

    /** `handlePhoneSubmit`: without credentials it throws before any request. */
    method HandlePhoneSubmit(phoneNumber: string, reply: Reply) returns (e: Effect)
      requires Valid()
      modifies this
      ensures Valid()
      ensures e.redirect == None
      ensures old(loginData).None? ==> e == Effect(None, Some("Данные логина не найдены"), None) &&
                                       step == old(step) && loginData == old(loginData) && sessionData == old(sessionData)
      ensures old(loginData).Some? ==>
                e.call == Some(SendCodeCall(old(loginData).value.login, old(loginData).value.password, phoneNumber))
      ensures old(loginData).Some? && reply.ok ==>
                e.thrown == None && step == CodeStep && loginData == old(loginData) &&
                sessionData == Some(SessionData(reply.sessionId, reply.phoneNumber))
      ensures old(loginData).Some? && !reply.ok ==>
                e.thrown == Some(ErrorText(reply, "Ошибка отправки кода")) &&
                step == old(step) && loginData == old(loginData) && sessionData == old(sessionData)
    {
      if loginData.None? {
        return Effect(None, Some("Данные логина не найдены"), None);
      }
      var call := Some(SendCodeCall(loginData.value.login, loginData.value.password, phoneNumber));
      if !reply.ok {
        return Effect(call, Some(ErrorText(reply, "Ошибка отправки кода")), None);
      }
      sessionData := Some(SessionData(reply.sessionId, reply.phoneNumber));
      step := CodeStep;
      e := Effect(call, None, None);
    }

    /** `handleVerifyCode`: on success the browser goes to `/admin`; the page state is untouched. */
    method HandleVerifyCode(code: string, reply: Reply) returns (e: Effect)
      ensures sessionData.None? ==> e == Effect(None, Some("Сессия не найдена"), None)
      ensures sessionData.Some? ==> e.call == Some(VerifyCodeCall(sessionData.value.sessionId, code))
      ensures sessionData.Some? && reply.ok && reply.success ==> e.thrown == None && e.redirect == Some("/admin")
      ensures sessionData.Some? && !reply.ok ==>
                e.thrown == Some(ErrorText(reply, "Ошибка проверки кода")) && e.redirect == None
      ensures sessionData.Some? && reply.ok && !reply.success ==>
                e.thrown == Some(ErrorText(reply, "Ошибка при проверке кода")) && e.redirect == None
    {
      if sessionData.None? {
        return Effect(None, Some("Сессия не найдена"), None);
      }
      var call := Some(VerifyCodeCall(sessionData.value.sessionId, code));
      if !reply.ok {
        return Effect(call, Some(ErrorText(reply, "Ошибка проверки кода")), None);
      }
      if reply.success {
        e := Effect(call, None, Some("/admin"));
      } else {
        e := Effect(call, Some(ErrorText(reply, "Ошибка при проверке кода")), None);
      }
    }

    /** `handleResendCode`. */
    method HandleResendCode(reply: Reply) returns (e: Effect)
      ensures sessionData.None? ==> e == Effect(None, Some("Сессия не найдена"), None)
      ensures sessionData.Some? ==> e.call == Some(ResendCodeCall(sessionData.value.sessionId)) && e.redirect == None
      ensures sessionData.Some? ==> (e.thrown == None <==> reply.ok)
      ensures sessionData.Some? && !reply.ok ==> e.thrown == Some(ErrorText(reply, "Ошибка повторной отправки"))
    {
      if sessionData.None? {
        return Effect(None, Some("Сессия не найдена"), None);
      }
      var call := Some(ResendCodeCall(sessionData.value.sessionId));
      if !reply.ok {
        return Effect(call, Some(ErrorText(reply, "Ошибка повторной отправки")), None);
      }
      e := Effect(call, None, None);
    }

    /** `handleBackToLogin`: back to the start, forgetting credentials and session. */
    method BackToLogin()
      modifies this
      ensures Valid()
      ensures step == LoginStep && loginData == None && sessionData == None
    {
      step := LoginStep;
      loginData := None;
      sessionData := None;
    }

    /** `handleBackToPhone`: forgets only the session. */
    method BackToPhone()
      requires Valid() && step != LoginStep
      modifies this
      ensures Valid()
      ensures step == PhoneStep && loginData == old(loginData) && sessionData == None
    {
      step := PhoneStep;
      sessionData := None;
    }
  }

  /**
   * The number the phone step submits is always shown as given on the code screen: it starts
   * with `+996`, and the code screen only masks `+7` numbers.
   */
  lemma SubmittedNumberShownAsIs(field: string)
    ensures TwoFactor.FormatPhone(PhoneInput.RawPhone(field)) == PhoneInput.RawPhone(field)
  {
    var raw := PhoneInput.RawPhone(field);
    assert raw[..4] == "+996";
    assert raw[1] != '7';
    assert raw[..2] != "+7";
  }
}
