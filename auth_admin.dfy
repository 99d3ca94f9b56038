/**
 * `POST /api/auth`: looks the admin row up by login and checks the password with bcrypt's
 * `compare`, a parameter here. The login and password are `None` when the body omits them.
 */
module AdminAuth {
  import opened Wrappers
  import opened Http
  import opened Schema

  /** What a successful login returns about the admin: never the password. */
  datatype AdminInfo = AdminInfo(id: string, login: Option<string>, description: Option<string>)

  /**
   * `findFirst({ where: { login_admin: login } })`. A filter whose value is `undefined` is no
   * filter at all, so without a login this is simply the first row.
   */
  function FindAdmin(settings: seq<Setting>, login: Option<string>): (r: Option<Setting>)
    ensures login.Some? && r.Some? ==> r.value.loginAdmin == login
    ensures login.Some? && r.None? ==> forall i :: 0 <= i < |settings| ==> settings[i].loginAdmin != login
  {
    First(settings, (s: Setting) => login.None? || s.loginAdmin == login)
  }

  /**
   * The handler. `compare(password, hash)` is bcrypt's check; calling it without a password
   * throws, which the handler's `catch` turns into a 500.
   */
  function Post(settings: seq<Setting>, login: Option<string>, password: Option<string>,
                compare: (string, string) -> bool): (r: Response<AdminInfo>)
    ensures FindAdmin(settings, login).None? ==> r == Err(401, "Неверные учетные данные")
    ensures FindAdmin(settings, login).Some? && FindAdmin(settings, login).value.passwordAdmin.GetOr("") == "" ==>
              r == Err(500, "Пароль не установлен")
    ensures r.Ok? <==> var row := FindAdmin(settings, login);
              row.Some? && row.value.passwordAdmin.GetOr("") != "" && password.Some? &&
              compare(password.value, row.value.passwordAdmin.value)
    ensures r.Ok? ==> var row := FindAdmin(settings, login).value;
              r == Ok(200, AdminInfo(row.id, row.loginAdmin, row.description))
    ensures login.Some? && r.Ok? ==> r.value.login == login
    ensures var row := FindAdmin(settings, login);
            (row.Some? && row.value.passwordAdmin.GetOr("") != "" && password.Some? &&
             !compare(password.value, row.value.passwordAdmin.value)) ==> r == Err(401, "Неверные учетные данные")
    ensures r.Err? && r.status == 401 ==> r.error == "Неверные учетные данные"
  {
    match FindAdmin(settings, login)
    case None => Err(401, "Неверные учетные данные")
    case Some(admin) =>
      var hash := admin.passwordAdmin.GetOr("");
      if hash == "" then Err(500, "Пароль не установлен")
      else if password.None? then Err(500, "Ошибка при аутентификации")
      else if !compare(password.value, hash) then Err(401, "Неверные учетные данные")
      else Ok(200, AdminInfo(admin.id, admin.loginAdmin, admin.description))
  }

  /** An unknown login and a wrong password are indistinguishable to the caller. */
  lemma UnknownLoginLooksLikeWrongPassword(settings: seq<Setting>, login: string, password: string,
                                           other: seq<Setting>, compare: (string, string) -> bool)
    requires FindAdmin(settings, Some(login)).None?
    requires var row := FindAdmin(other, Some(login));
             row.Some? && row.value.passwordAdmin.Some? && row.value.passwordAdmin.value != "" &&
             !compare(password, row.value.passwordAdmin.value)
    ensures Post(settings, Some(login), Some(password), compare) == Post(other, Some(login), Some(password), compare)
  {
  }
}
