/** The account endpoints: how registration, login, logout and "who am I"
    turn service results into replies. */
module AuthHandler {
  import opened Wrappers
  import opened Schema
  import Response
  import U = UserRules
  import AuthMiddleware

  datatype LoginRequest = LoginRequest(email: string, password: string)

  /** `Register`: every failure but a taken email is a 500. */
  function Register(t: Tables, kv: map<string, string>, bind: Response.Bind<U.RegisterRequest>, suffix: string,
                    lookupFails: bool, hashed: Option<string>, createFails: bool, signed: Option<string>)
    : (r: (Tables, map<string, string>, Response.Reply<U.AuthResponse>))
    requires |suffix| == 11
    ensures bind.BindFailed? ==> r == (t, kv, Response.BadRequest("Invalid request: " + bind.reason))
    ensures bind.Bound? ==>
      var (t1, kv1, res) := U.Register(t, kv, bind.value, suffix, lookupFails, hashed, createFails, signed);
      r.0 == t1 && r.1 == kv1
      && (res.Ok? ==> r.2 == Response.Created(res.value))
      && (res == Err(U.EmailExists) ==> r.2 == Response.BadRequest("Email already registered"))
      && (res.Err? && res.error != U.EmailExists ==> r.2 == Response.InternalError("Registration failed"))
    ensures bind.Bound? && (lookupFails || hashed.None? || createFails || signed.None?) ==> r.2.status != 201
    ensures r.2.status == 201 || r.2.status == 400 || r.2.status == 500
  {
    if bind.BindFailed? then (t, kv, Response.BadRequest("Invalid request: " + bind.reason))
    else
      var (t1, kv1, res) := U.Register(t, kv, bind.value, suffix, lookupFails, hashed, createFails, signed);
      if res.Ok? then (t1, kv1, Response.Created(res.value))
      else if res.error == U.EmailExists then (t1, kv1, Response.BadRequest("Email already registered"))
      else (t1, kv1, Response.InternalError("Registration failed"))
  }

  /** A password bcrypt refuses (longer than 72 bytes, say) is answered
      with a 500, not a 201, for a new email. */
  lemma HashRefusalIsInternalError(t: Tables, kv: map<string, string>, req: U.RegisterRequest, suffix: string,
                                   createFails: bool, signed: Option<string>)
    requires |suffix| == 11
    requires U.FindByEmail(t.users, req.email).None?
    ensures Register(t, kv, Response.Bound(req), suffix, false, None, createFails, signed)
            == (t, kv, Response.InternalError("Registration failed"))
  {
  }

  /** The status a login failure is reported with. */
  function LoginFailure(e: U.UserError): (r: Response.Reply<U.AuthResponse>)
    ensures e == U.UserNotFound ==> r == Response.Unauthorized("User not found")
    ensures e == U.InvalidPassword ==> r == Response.Unauthorized("Invalid password")
    ensures e == U.UserDisabled ==> r == Response.Forbidden("Account is disabled")
    ensures e !in {U.UserNotFound, U.InvalidPassword, U.UserDisabled} ==> r == Response.InternalError("Login failed")
  {
    match e
    case UserNotFound => Response.Unauthorized("User not found")
    case InvalidPassword => Response.Unauthorized("Invalid password")
    case UserDisabled => Response.Forbidden("Account is disabled")
    case _ => Response.InternalError("Login failed")
  }

  /** `Login`. */
  function Login(t: Tables, kv: map<string, string>, bind: Response.Bind<LoginRequest>, matches: (string, string) -> bool,
                 lookupFails: bool, signed: Option<string>, now: int)
    : (r: (Tables, map<string, string>, Response.Reply<U.AuthResponse>))
    ensures bind.BindFailed? ==> r == (t, kv, Response.BadRequest("Invalid request: " + bind.reason))
    ensures bind.Bound? ==>
      var (t1, kv1, res) := U.Login(t, kv, bind.value.email, bind.value.password, matches, lookupFails, signed, now);
      r == (t1, kv1, if res.Ok? then Response.Success(res.value) else LoginFailure(res.error))
  {
    if bind.BindFailed? then (t, kv, Response.BadRequest("Invalid request: " + bind.reason))
    else
      var (t1, kv1, res) := U.Login(t, kv, bind.value.email, bind.value.password, matches, lookupFails, signed, now);
      (t1, kv1, if res.Ok? then Response.Success(res.value) else LoginFailure(res.error))
  }

  /** A wrong password and an unknown email look the same to the client
      apart from the message, and neither succeeds; when the lookup itself
      fails the answer is a 500 instead. Nothing is written either way. */
  lemma LoginRefusals(t: Tables, kv: map<string, string>, req: LoginRequest, matches: (string, string) -> bool,
                      lookupFails: bool, signed: Option<string>, now: int)
    requires U.FindByEmail(t.users, req.email).None? ||
             (t.users[U.FindByEmail(t.users, req.email).value].status != UserStatusDisabled
              && !matches(t.users[U.FindByEmail(t.users, req.email).value].passwordHash, req.password))
    ensures Login(t, kv, Response.Bound(req), matches, lookupFails, signed, now).2.status == if lookupFails then 500 else 401
    ensures Login(t, kv, Response.Bound(req), matches, lookupFails, signed, now).0 == t
    ensures Login(t, kv, Response.Bound(req), matches, lookupFails, signed, now).1 == kv
  {
  }

  /** The 500 "Login failed" answers: a failed lookup, and a signing
      failure for correct credentials, which still records the login time
      but opens no session. */
  lemma LoginInternalErrors(t: Tables, kv: map<string, string>, req: LoginRequest, matches: (string, string) -> bool,
                            now: int)
    ensures Login(t, kv, Response.Bound(req), matches, true, None, now) == (t, kv, Response.InternalError("Login failed"))
    ensures var k := U.FindByEmail(t.users, req.email);
            k.Some? && t.users[k.value].status != UserStatusDisabled && matches(t.users[k.value].passwordHash, req.password)
            ==> Login(t, kv, Response.Bound(req), matches, false, None, now).2 == Response.InternalError("Login failed")
                && Login(t, kv, Response.Bound(req), matches, false, None, now).1 == kv
  {
  }

  /** `Logout`: the header is checked the way the middleware checks it,
      with its own messages; a failed delete is a 500. */
  function Logout(kv: map<string, string>, header: string, deleteFails: bool)
    : (r: (map<string, string>, Response.Reply<Response.Notice>))
    ensures header == "" ==> r == (kv, Response.Unauthorized("No token provided"))
    ensures header != "" && AuthMiddleware.ParseBearer(header).None? ==>
      r == (kv, Response.Unauthorized("Invalid authorization format"))
    ensures AuthMiddleware.ParseBearer(header).Some? && deleteFails ==> r == (kv, Response.InternalError("Logout failed"))
    ensures AuthMiddleware.ParseBearer(header).Some? && !deleteFails ==>
      r == (U.Logout(kv, AuthMiddleware.ParseBearer(header).value, false).0,
            Response.Success(Response.Notice("Logged out successfully")))
  {
    if header == "" then (kv, Response.Unauthorized("No token provided"))
    else
      var token := AuthMiddleware.ParseBearer(header);
      if token.None? then (kv, Response.Unauthorized("Invalid authorization format"))
      else
        var (kv1, ok) := U.Logout(kv, token.value, deleteFails);
        if !ok then (kv1, Response.InternalError("Logout failed"))
        else (kv1, Response.Success(Response.Notice("Logged out successfully")))
  }

  /** Logging out with the header a login's token makes removes that
      login's session and answers 200, unless the delete fails, which
      answers 500 and keeps the session. */
  lemma LogoutWithIssuedToken(kv: map<string, string>, token: string, deleteFails: bool)
    requires ' ' !in token
    ensures Logout(kv, "Bearer " + token, deleteFails).1.status == 200 <==> !deleteFails
    ensures !deleteFails ==> U.SessionKey(token) !in Logout(kv, "Bearer " + token, deleteFails).0
    ensures deleteFails ==> Logout(kv, "Bearer " + token, deleteFails) == (kv, Response.InternalError("Logout failed"))
  {
    AuthMiddleware.BearerRoundTrip(token);
  }

  /** What `GetCurrentUser` returns about the caller. */
  datatype CurrentUser = CurrentUser(
    uuid: string, nickname: string, email: string, avatar: string, gender: int,
    signature: string, birthday: string, isAdmin: bool)

  /** `GetCurrentUser`: `lookupFails` is a lookup that errs other than by
      finding nothing. */
  function GetCurrentUser(t: Tables, ctx: AuthMiddleware.RequestContext, lookupFails: bool)
    : (r: Response.Reply<CurrentUser>)
    ensures ctx.userId.None? ==> r == Response.Unauthorized("Not authenticated")
    ensures ctx.userId.Some? && lookupFails ==> r == Response.InternalError("Failed to get user")
    ensures ctx.userId.Some? && !lookupFails && U.FindUser(t.users, ctx.userId.value).None? ==>
      r == Response.NotFound("User not found")
    ensures r.status == 200 <==> ctx.userId.Some? && !lookupFails && U.FindUser(t.users, ctx.userId.value).Some?
    ensures r.status == 200 ==>
      var u := t.users[U.FindUser(t.users, ctx.userId.value).value];
      r.data == Some(CurrentUser(u.uuid, u.nickname, u.email, u.avatar, u.gender, u.signature, u.birthday, u.isAdmin))
  {
    if ctx.userId.None? then Response.Unauthorized("Not authenticated")
    else if lookupFails then Response.InternalError("Failed to get user")
    else
      var u := U.GetByUuid(t.users, ctx.userId.value);
      if u.Err? then Response.NotFound("User not found")
      else
        var m := u.value;
        Response.Success(CurrentUser(m.uuid, m.nickname, m.email, m.avatar, m.gender, m.signature, m.birthday, m.isAdmin))
  }
}
