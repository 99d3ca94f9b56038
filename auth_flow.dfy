/**
 * How the three code routes fit together over one session table: a code that send-code stores
 * is accepted by verify-code for five minutes, a resend replaces it, and cleanup only removes
 * sessions that verify-code would reject anyway.
 */
module AuthFlow {
  import opened Http
  import opened Schema
  import SendCode
  import VerifyCode
  import ResendCode

  /** A delivered code is accepted by verify-code at any time up to five minutes later. */
  lemma SentCodeVerifies(settings: seq<Setting>, sessions: map<string, Session>, req: SendCode.Request,
                         now: int, offset: nat, id: string, later: int, production: bool,
                         sign: VerifyCode.TokenClaims -> string)
    requires offset < 900000 && id != ""
    requires SendCode.Outcome(settings, sessions, req, now, offset, id, true).0.Ok?
    requires later <= now + SendCode.CodeLifetime
    ensures var rows := SendCode.Outcome(settings, sessions, req, now, offset, id, true).1;
            VerifyCode.Outcome(rows, id, SendCode.GenerateCode(offset), later, production, sign).0.Ok?
  {
    var rows := SendCode.Outcome(settings, sessions, req, now, offset, id, true).1;
    assert rows[id] == SendCode.NewSession(req, now, offset);
  }

  /** Once five minutes have passed the same code answers 410, and the session is gone. */
  lemma SentCodeExpires(settings: seq<Setting>, sessions: map<string, Session>, req: SendCode.Request,
                        now: int, offset: nat, id: string, later: int, production: bool,
                        sign: VerifyCode.TokenClaims -> string)
    requires offset < 900000 && id != ""
    requires SendCode.Outcome(settings, sessions, req, now, offset, id, true).0.Ok?
    requires later > now + SendCode.CodeLifetime
    ensures var rows := SendCode.Outcome(settings, sessions, req, now, offset, id, true).1;
            var v := VerifyCode.Outcome(rows, id, SendCode.GenerateCode(offset), later, production, sign);
            v.0.status == 410 && id !in v.1
  {
    var rows := SendCode.Outcome(settings, sessions, req, now, offset, id, true).1;
    assert rows[id] == SendCode.NewSession(req, now, offset);
  }

  /** Resend has no expiry check: it revives an expired session, whose new code is then accepted. */
  lemma ResendRevivesExpired(sessions: map<string, Session>, sessionId: string, now: int, offset: nat,
                             production: bool, sign: VerifyCode.TokenClaims -> string)
    requires offset < 900000 && sessionId != "" && sessionId in sessions
    requires sessions[sessionId].expiresAt < now
    ensures var rows := ResendCode.Outcome(sessions, sessionId, now, offset, true).1;
            ResendCode.Outcome(sessions, sessionId, now, offset, true).0.Ok? &&
            VerifyCode.Outcome(rows, sessionId, SendCode.GenerateCode(offset), now, production, sign).0.Ok?
  {
  }

  /**
   * After a resend the previous code is refused, provided the new draw differs from the draw that
   * produced it (two draws agree with probability 1/900000; nothing in the source excludes it).
   */
  lemma ResendInvalidatesOldCode(sessions: map<string, Session>, sessionId: string, now: int,
                                 oldOffset: nat, offset: nat, delivered: bool, later: int,
                                 production: bool, sign: VerifyCode.TokenClaims -> string)
    requires offset < 900000 && oldOffset < 900000 && offset != oldOffset
    requires sessionId != "" && sessionId in sessions && sessions[sessionId].code == SendCode.GenerateCode(oldOffset)
    requires later <= now + SendCode.CodeLifetime
    ensures var rows := ResendCode.Outcome(sessions, sessionId, now, offset, delivered).1;
            VerifyCode.Outcome(rows, sessionId, SendCode.GenerateCode(oldOffset), later, production, sign).0 ==
              Err(401, "Неверный код")
  {
    if SendCode.GenerateCode(oldOffset) == SendCode.GenerateCode(offset) {
      SendCode.GenerateCodeInjective(oldOffset, offset);
    }
  }

  /** Cleanup at `now` removes only sessions that verify-code would refuse at `now` or later. */
  lemma CleanupRemovesOnlyDeadSessions(sessions: map<string, Session>, now: int, sessionId: string,
                                       code: string, later: int)
    requires now <= later && sessionId in sessions && sessionId !in SendCode.Unexpired(sessions, now)
    ensures !VerifyCode.Accepts(sessions, sessionId, code, later)
  {
  }
}
