/**
 * `/api/admin`: the list of administrator accounts and the creation of a new one. Accounts are
 * rows of the settings table with a login; the password is stored hashed.
 */
module AdminAccounts {
  import opened Wrappers
  import opened Http
  import opened Schema
  import opened Seqs
  import ValidateLogin

  /** The columns GET selects: no password. */
  datatype AdminSummary = AdminSummary(id: string, loginAdmin: Option<string>, description: Option<string>, createdAt: int)

  /** What POST answers: the new row without its password. */
  datatype NewAdmin = NewAdmin(id: string, loginAdmin: Option<string>, description: Option<string>)

  /** The request body; "" stands for an absent or empty field. */
  datatype AdminForm = AdminForm(login: string, password: string, description: string)

  const CredentialsRequired := "Логин и пароль обязательны"
  const LoginTaken := "Администратор с таким логином уже существует"
  const AddSucceeded := "Администратор успешно добавлен"

  /** `login_admin: { not: null }`. */
  predicate HasLogin(s: Setting) { s.loginAdmin.Some? }

  function Summary(s: Setting): AdminSummary {
    AdminSummary(s.id, s.loginAdmin, s.description, s.createdAt)
  }

  /** `GET /api/admin`: one summary per row with a login, in table order. */
  function Get(rows: seq<Setting>): (r: seq<AdminSummary>)
    ensures |r| <= |rows|
    ensures forall i :: 0 <= i < |r| ==> exists k :: 0 <= k < |rows| && HasLogin(rows[k]) && r[i] == Summary(rows[k])
    ensures forall k :: 0 <= k < |rows| && HasLogin(rows[k]) ==> Summary(rows[k]) in r
  {
    var admins := Filter(rows, HasLogin);
    var r := seq(|admins|, i requires 0 <= i < |admins| => Summary(admins[i]));
    forall i | 0 <= i < |r|
      ensures exists k :: 0 <= k < |rows| && HasLogin(rows[k]) && r[i] == Summary(rows[k])
    {
      var k :| 0 <= k < |rows| && rows[k] == admins[i];
    }
    forall k | 0 <= k < |rows| && HasLogin(rows[k])
      ensures Summary(rows[k]) in r
    {
      var j :| 0 <= j < |admins| && admins[j] == rows[k];
      assert r[j] == Summary(rows[k]);
    }
    r
  }

  /** `findFirst({ where: { login_admin: login } })` finds a row. */
  predicate LoginExists(rows: seq<Setting>, login: string) {
    exists k :: 0 <= k < |rows| && rows[k].loginAdmin == Some(login)
  }

  /** `description || \`Администратор ${login}\``. */
  function DescriptionFor(form: AdminForm): (d: string)
    ensures form.description != "" ==> d == form.description
    ensures form.description == "" ==> d == "Администратор " + form.login
  {
    if form.description != "" then form.description else "Администратор " + form.login
  }

  /**
   * The POST handler on the settings rows: `hash` is bcrypt's hash, `id`, `isSecureDefault` and
   * `now` what the database fills in.
   */
  function Outcome(rows: seq<Setting>, form: AdminForm, hash: string -> string, id: string, isSecureDefault: bool, now: int)
    : (out: (Response<NewAdmin>, seq<Setting>))
    ensures form.login == "" || form.password == "" ==> out == (Err(400, CredentialsRequired), rows)
    ensures form.login != "" && form.password != "" && LoginExists(rows, form.login) ==> out == (Err(400, LoginTaken), rows)
    ensures out.0.Ok? <==> form.login != "" && form.password != "" && !LoginExists(rows, form.login)
    ensures out.0.Ok? ==>
              out.0.status == 200 && |out.1| == |rows| + 1 && out.1[..|rows|] == rows &&
              out.1[|rows|].loginAdmin == Some(form.login) && out.1[|rows|].passwordAdmin == Some(hash(form.password)) &&
              out.1[|rows|].description == Some(DescriptionFor(form)) &&
              out.0.value == NewAdmin(id, Some(form.login), Some(DescriptionFor(form)))
  {
    if form.login == "" || form.password == "" then (Err(400, CredentialsRequired), rows)
    else if LoginExists(rows, form.login) then (Err(400, LoginTaken), rows)
    else
      var row := Setting(id, Some(form.login), Some(hash(form.password)), None, Some(DescriptionFor(form)), isSecureDefault, now);
      (Ok(200, NewAdmin(id, row.loginAdmin, row.description)), rows + [row])
  }

  /** No two rows share a login. */
  predicate UniqueLogins(rows: seq<Setting>) {
    forall i, j :: 0 <= i < j < |rows| && rows[i].loginAdmin.Some? ==> rows[i].loginAdmin != rows[j].loginAdmin
  }

  /** Adding administrators only through this handler keeps logins unique. */
  lemma PostKeepsLoginsUnique(rows: seq<Setting>, form: AdminForm, hash: string -> string, id: string,
                              isSecureDefault: bool, now: int)
    requires UniqueLogins(rows)
    ensures UniqueLogins(Outcome(rows, form, hash, id, isSecureDefault, now).1)
  {
    var out := Outcome(rows, form, hash, id, isSecureDefault, now);
    if out.0.Ok? {
      var r := out.1;
      forall i, j | 0 <= i < j < |r| && r[i].loginAdmin.Some?
        ensures r[i].loginAdmin != r[j].loginAdmin
      {
        if j == |rows| {
          assert r[i] == rows[i];
        } else {
          assert r[i] == rows[i] && r[j] == rows[j];
        }
      }
    }
  }

  /**
   * The login check compares the stored password as plain text, so an administrator added here,
   * on a table without credentials, passes it only with a password that equals its own hash.
   */
  lemma AddedAdminLoginNeedsHash(rows: seq<Setting>, form: AdminForm, hash: string -> string, id: string,
                                 isSecureDefault: bool, now: int)
    requires forall k :: 0 <= k < |rows| ==> !HasCredentials(rows[k])
    requires Outcome(rows, form, hash, id, isSecureDefault, now).0.Ok?
    ensures var after := Outcome(rows, form, hash, id, isSecureDefault, now).1;
            ValidateLogin.Post(after, form.login, form.password).Ok? <==> hash(form.password) == form.password
  {
    var after := Outcome(rows, form, hash, id, isSecureDefault, now).1;
    assert forall k :: 0 <= k < |rows| ==> !HasCredentials(after[k]);
    assert HasCredentials(after[|rows|]);
    FirstAdminIsFirstWithCredentials(after, |rows|);
  }

  lemma {:induction false} FirstAdminIsFirstWithCredentials(rows: seq<Setting>, k: nat)
    requires k < |rows| && HasCredentials(rows[k])
    requires forall j :: 0 <= j < k ==> !HasCredentials(rows[j])
    ensures FirstAdmin(rows) == Some(rows[k])
  {
    if k > 0 {
      FirstAdminIsFirstWithCredentials(rows[1..], k - 1);
    }
  }

  /** `POST /api/admin`. */
  method Post(table: SettingTable, form: AdminForm, hash: string -> string, id: string, isSecureDefault: bool, now: int)
    returns (r: Response<NewAdmin>)
    modifies table
    ensures (r, table.rows) == Outcome(old(table.rows), form, hash, id, isSecureDefault, now)
  {
    if form.login == "" || form.password == "" {
      return Err(400, CredentialsRequired);
    }
    var i := 0;
    while i < |table.rows|
      invariant 0 <= i <= |table.rows|
      invariant forall k :: 0 <= k < i ==> table.rows[k].loginAdmin != Some(form.login)
    {
      if table.rows[i].loginAdmin == Some(form.login) {
        return Err(400, LoginTaken);
      }
      i := i + 1;
    }
    var row := Setting(id, Some(form.login), Some(hash(form.password)), None, Some(DescriptionFor(form)), isSecureDefault, now);
    table.rows := table.rows + [row];
    r := Ok(200, NewAdmin(id, row.loginAdmin, row.description));
  }
}
