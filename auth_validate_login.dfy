/**
 * `POST /api/auth/validate-login`: the first step of the admin login, a read-only check of the
 * plaintext login and password against the first settings row that holds credentials.
 */
module ValidateLogin {
  import opened Wrappers
  import opened Http
  import opened Schema

  /** The first credentials row exists and both of its columns equal the submitted strings. */
  predicate CredentialsMatch(settings: seq<Setting>, login: string, password: string) {
    var admin := FirstAdmin(settings);
    admin.Some? && admin.value.loginAdmin == Some(login) && admin.value.passwordAdmin == Some(password)
  }

  /**
   * The handler. Empty strings stand for absent fields (both are falsy). It reads the settings
   * table and writes nothing, which is why it takes the rows as a value.
   */
  function Post(settings: seq<Setting>, login: string, password: string): (r: Response<string>)
    ensures r.Ok? <==> login != "" && password != "" && CredentialsMatch(settings, login, password)
    ensures r.Ok? ==> r == Ok(200, "Данные верны, можно переходить к вводу телефона")
    ensures (login == "" || password == "") ==> r == Err(400, "Логин и пароль обязательны")
    ensures login != "" && password != "" && FirstAdmin(settings).None? ==>
              r == Err(500, "Настройки админа не найдены в базе данных")
    ensures login != "" && password != "" && FirstAdmin(settings).Some? && !CredentialsMatch(settings, login, password) ==>
              r == Err(401, "Неверный логин или пароль")
  {
    if login == "" || password == "" then Err(400, "Логин и пароль обязательны")
    else
      match FirstAdmin(settings)
      case None => Err(500, "Настройки админа не найдены в базе данных")
      case Some(admin) =>
        if admin.loginAdmin != Some(login) || admin.passwordAdmin != Some(password) then
          Err(401, "Неверный логин или пароль")
        else
          Ok(200, "Данные верны, можно переходить к вводу телефона")
  }
}
