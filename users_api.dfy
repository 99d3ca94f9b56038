/**
 * `/api/users`: customer registration and the user list. Neither answer ever carries the
 * password hash.
 */
module UsersApi {
  import opened Wrappers
  import opened Http
  import opened Schema

  /** A user as both handlers answer: every column but `password_hash`. */
  datatype PublicUser = PublicUser(id: string, name: string, email: string, phone: Option<string>, role: Role, createdAt: int)

  /** The request body; None stands for a missing field. */
  datatype Registration = Registration(name: Option<string>, email: Option<string>, password: Option<string>, phone: Option<string>)

  const EmailTaken := "Пользователь с таким email уже существует"
  const CreateFailed := "Ошибка при создании пользователя"

  /** The user without its password hash. */
  function WithoutPassword(u: User): (p: PublicUser)
    ensures p.id == u.id && p.name == u.name && p.email == u.email && p.phone == u.phone
    ensures p.role == u.role && p.createdAt == u.createdAt
  {
    PublicUser(u.id, u.name, u.email, u.phone, u.role, u.createdAt)
  }

  /**
   * The POST handler on the user rows: `hash` is bcrypt's hash, `id` and `now` what the database
   * fills in. A missing email makes the lookup throw, a missing password the hash, and a
   * missing name the insert: each of these answers 500 and writes nothing.
   */
  function Outcome(users: seq<User>, body: Registration, hash: string -> string, id: string, now: int)
    : (out: (Response<PublicUser>, seq<User>))
    ensures out.0.Err? ==> out.1 == users
    ensures body.email.Some? && FindUserByEmail(users, body.email.value).Some? ==> out.0 == Err(400, EmailTaken)
    ensures out.0.Ok? <==> body.email.Some? && FindUserByEmail(users, body.email.value).None? &&
                           body.password.Some? && body.name.Some?
    ensures out.0.Err? && out.0.status != 400 ==> out.0 == Err(500, CreateFailed)
    ensures out.0.Ok? ==>
              var u := User(id, body.name.value, body.email.value, body.phone, hash(body.password.value), Client, now);
              out == (Ok(200, WithoutPassword(u)), users + [u])
  {
    if body.email.None? then (Err(500, CreateFailed), users)
    else if FindUserByEmail(users, body.email.value).Some? then (Err(400, EmailTaken), users)
    else if body.password.None? || body.name.None? then (Err(500, CreateFailed), users)
    else
      var u := User(id, body.name.value, body.email.value, body.phone, hash(body.password.value), Client, now);
      (Ok(200, WithoutPassword(u)), users + [u])
  }

  /** Registering only through this handler keeps e-mail addresses unique. */
  lemma RegistrationKeepsEmailsUnique(users: seq<User>, body: Registration, hash: string -> string, id: string, now: int)
    requires forall i, j :: 0 <= i < j < |users| ==> users[i].email != users[j].email
    ensures var users' := Outcome(users, body, hash, id, now).1;
            forall i, j :: 0 <= i < j < |users'| ==> users'[i].email != users'[j].email
  {
    var out := Outcome(users, body, hash, id, now);
    if out.0.Ok? {
      var users' := out.1;
      forall i, j | 0 <= i < j < |users'|
        ensures users'[i].email != users'[j].email
      {
        if j == |users| {
          assert users'[i] == users[i];
        }
      }
    }
  }

  /** A registered user is a client whose stored password is the hash of the submitted one. */
  lemma RegisteredAsClient(users: seq<User>, body: Registration, hash: string -> string, id: string, now: int)
    requires Outcome(users, body, hash, id, now).0.Ok?
    ensures var users' := Outcome(users, body, hash, id, now).1;
            users'[|users|].role == Client && users'[|users|].passwordHash == hash(body.password.value) &&
            users'[|users|].email == body.email.value
  {
  }

  /** `POST /api/users`. */
  method Post(table: UserTable, body: Registration, hash: string -> string, id: string, now: int)
    returns (r: Response<PublicUser>)
    modifies table
    ensures (r, table.rows) == Outcome(old(table.rows), body, hash, id, now)
  {
    if body.email.None? {
      return Err(500, CreateFailed);
    }
    if FindUserByEmail(table.rows, body.email.value).Some? {
      return Err(400, EmailTaken);
    }
    if body.password.None? || body.name.None? {
      return Err(500, CreateFailed);
    }
    var u := User(id, body.name.value, body.email.value, body.phone, hash(body.password.value), Client, now);
    table.rows := table.rows + [u];
    r := Ok(200, WithoutPassword(u));
  }

  /** `GET /api/users`: every user, in table order, without the password hash. */
  function Get(users: seq<User>): (r: seq<PublicUser>)
    ensures |r| == |users|
    ensures forall i :: 0 <= i < |r| ==> r[i] == WithoutPassword(users[i])
  {
    seq(|users|, i requires 0 <= i < |users| => WithoutPassword(users[i]))
  }
}
