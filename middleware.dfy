/**
 * The request gate in front of `/admin` and `/api/admin`: the login page passes, other admin
 * paths need an `admin-token` cookie whose token `jwtVerify` accepts. `jwtVerify` is a
 * parameter that answers `None` where the library throws.
 */
module Middleware {
  import opened Wrappers
  import opened Text

  /** `NextResponse.next()`, or a redirect to the login page that may also delete the cookie. */
  datatype Decision = Next | RedirectToLogin(deleteCookie: bool)

  /** `verifyToken`: any verification error becomes `false`; it never throws. */
  function VerifyToken<Claims>(token: string, jwtVerify: string -> Option<Claims>): (valid: bool)
    ensures valid <==> jwtVerify(token).Some?
  {
    match jwtVerify(token)
    case Some(_) => true
    case None => false
  }

  const LoginPath: string := "/admin/login"

  /** The paths the gate guards: the admin pages and the admin API. */
  function IsProtected(path: string): (b: bool)
    ensures b <==> StartsWith(path, "/admin") || StartsWith(path, "/api/admin")
    ensures b ==> |path| >= 6 && path[0] == '/'
  {
    StartsWith(path, "/admin") || StartsWith(path, "/api/admin")
  }

  /** `middleware`; `token` is the cookie's value, "" when there is none. */
  function Decide<Claims>(path: string, token: string, jwtVerify: string -> Option<Claims>): (d: Decision)
    ensures d == Next <==> path == LoginPath || !IsProtected(path) || (token != "" && jwtVerify(token).Some?)
    ensures d.RedirectToLogin? ==> (d.deleteCookie <==> token != "")
  {
    if path == LoginPath then Next
    else if !IsProtected(path) then Next
    else if token == "" then RedirectToLogin(false)
    else if !VerifyToken(token, jwtVerify) then RedirectToLogin(true)
    else Next
  }

  /** The login page passes whatever the cookie holds and without consulting the verifier. */
  lemma LoginPageAlwaysPasses<Claims>(token: string, jwtVerify: string -> Option<Claims>)
    ensures Decide(LoginPath, token, jwtVerify) == Next
  {
  }

  /**
   * Only the exact login path is exempt: any longer path that starts with it, such as
   * `/admin/login/x`, is guarded like every admin page, so without a token the verifier
   * accepts it is redirected (and a rejected token's cookie deleted).
   */
  lemma LoginSubpathIsGuarded<Claims>(rest: string, token: string, jwtVerify: string -> Option<Claims>)
    requires rest != ""
    requires token == "" || jwtVerify(token).None?
    ensures Decide(LoginPath + rest, token, jwtVerify) == RedirectToLogin(token != "")
  {
    var path := LoginPath + rest;
    assert path[..|"/admin"|] == "/admin";
    assert |path| > |LoginPath|;
  }
}
