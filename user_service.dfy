/** Accounts: registration, login and logout. Password hashing and token
    signing are outside the model: the hash and the token arrive as
    optional parameters (none when they fail), password checking is a
    predicate parameter, and the database and key-value failures are
    boolean parameters. A login
    session is the key-value entry "session:" + token holding the user id. */
module UserRules {
  import opened Wrappers
  import opened Schema

  datatype UserError = UserNotFound | EmailExists | InvalidPassword | UserDisabled | DbError | HashFailed | TokenFailed

  const UserAvatarBase := "https://api.dicebear.com/7.x/avataaars/svg?seed="
  const SessionPrefix := "session:"

  function SessionKey(token: string): (k: string)
    ensures |k| == |SessionPrefix| + |token| && k[..|SessionPrefix|] == SessionPrefix && k[|SessionPrefix|..] == token
  {
    SessionPrefix + token
  }

  /** Distinct tokens never share a session entry. */
  lemma SessionKeyInjective(a: string, b: string)
    requires SessionKey(a) == SessionKey(b)
    ensures a == b
  {
    assert a == SessionKey(a)[|SessionPrefix|..];
  }

  datatype RegisterRequest = RegisterRequest(email: string, password: string, nickname: string)

  /** The public part of a user. */
  datatype UserProfile = UserProfile(
    uuid: string, nickname: string, email: string, avatar: string, gender: int,
    signature: string, birthday: string, isAdmin: bool)

  datatype AuthResponse = AuthResponse(token: string, user: UserProfile)

  /** `toUserProfile`: every public field as stored (the creation date's
      formatting is not modelled). */
  function ToUserProfile(u: UserRow): (p: UserProfile)
    ensures p.uuid == u.uuid && p.nickname == u.nickname && p.email == u.email && p.avatar == u.avatar
    ensures p.gender == u.gender && p.signature == u.signature && p.birthday == u.birthday && p.isAdmin == u.isAdmin
  {
    UserProfile(u.uuid, u.nickname, u.email, u.avatar, u.gender, u.signature, u.birthday, u.isAdmin)
  }

  /** `Where("email = ?").First`. */
  function FindByEmail(us: seq<UserRow>, email: string): (k: Option<nat>)
    ensures k.Some? ==> k.value < |us| && us[k.value].email == email
                        && forall j :: 0 <= j < k.value ==> us[j].email != email
    ensures k.None? <==> forall j :: 0 <= j < |us| ==> us[j].email != email
  {
    if us == [] then None
    else if us[0].email == email then Some(0)
    else
      var k := FindByEmail(us[1..], email);
      if k.Some? then Some(k.value + 1) else None
  }

  /** `Where("uuid = ?").First`. */
  function FindUser(us: seq<UserRow>, uuid: string): (k: Option<nat>)
    ensures k.Some? ==> k.value < |us| && us[k.value].uuid == uuid
                        && forall j :: 0 <= j < k.value ==> us[j].uuid != uuid
    ensures k.None? <==> forall j :: 0 <= j < |us| ==> us[j].uuid != uuid
  {
    if us == [] then None
    else if us[0].uuid == uuid then Some(0)
    else
      var k := FindUser(us[1..], uuid);
      if k.Some? then Some(k.value + 1) else None
  }

  function GetByUuid(us: seq<UserRow>, uuid: string): (r: Result<UserRow, UserError>)
    ensures r.Err? <==> FindUser(us, uuid).None?
    ensures r.Err? ==> r.error == UserNotFound
    ensures r.Ok? ==> r.value == us[FindUser(us, uuid).value]
  {
    var k := FindUser(us, uuid);
    if k.None? then Err(UserNotFound) else Ok(us[k.value])
  }

  /** The row `Register` creates. */
  function NewUser(req: RegisterRequest, hashed: string, suffix: string): (u: UserRow)
    requires |suffix| == 11
    ensures IsGeneratedId(u.uuid, 'U') && u.avatar == UserAvatarBase + u.uuid
    ensures u.status == UserStatusActive && !u.isAdmin && u.passwordHash == hashed
    ensures u.email == req.email && u.nickname == req.nickname
  {
    var uuid := ['U'] + suffix;
    UserRow(uuid, req.nickname, req.email, hashed, UserAvatarBase + uuid, 0, "", "", false, UserStatusActive, None, None)
  }

  /** `Register`. What happens outside the database tables arrives as
      parameters: `lookupFails` is an email lookup that errs other than by
      finding nothing, `hashed` is bcrypt's hash (none when it refuses, as
      it does for a password longer than 72 bytes), `createFails` is an
      insert that errs other than by a uuid collision, and `signed` is the
      JWT (none when signing fails). A taken email is refused; a failure
      before the insert writes nothing; a signing failure comes after the
      insert, so the user row stays without a session. On success a
      session entry is written for the token. */
  function Register(t: Tables, kv: map<string, string>, req: RegisterRequest, suffix: string, lookupFails: bool,
                    hashed: Option<string>, createFails: bool, signed: Option<string>)
    : (r: (Tables, map<string, string>, Result<AuthResponse, UserError>))
    requires |suffix| == 11
    ensures lookupFails ==> r == (t, kv, Err(DbError))
    ensures !lookupFails && FindByEmail(t.users, req.email).Some? ==> r == (t, kv, Err(EmailExists))
    ensures !lookupFails && FindByEmail(t.users, req.email).None? && hashed.None? ==> r == (t, kv, Err(HashFailed))
    ensures r.2.Ok? <==>
      !lookupFails && FindByEmail(t.users, req.email).None? && hashed.Some? && !createFails
      && FindUser(t.users, ['U'] + suffix).None? && signed.Some?
    ensures r.2.Ok? ==>
      var u := NewUser(req, hashed.value, suffix);
      r.0 == t.(users := t.users + [u]) && r.1 == kv[SessionKey(signed.value) := u.uuid]
      && r.2.value == AuthResponse(signed.value, ToUserProfile(u))
    ensures r.2 == Err(TokenFailed) ==> hashed.Some? && r.0 == t.(users := t.users + [NewUser(req, hashed.value, suffix)]) && r.1 == kv
    ensures r.2.Err? && r.2.error != TokenFailed ==> r.0 == t && r.1 == kv
    ensures r.2.Err? ==> r.2.error in {EmailExists, DbError, HashFailed, TokenFailed}
  {
    if lookupFails then (t, kv, Err(DbError))
    else if FindByEmail(t.users, req.email).Some? then (t, kv, Err(EmailExists))
    else if hashed.None? then (t, kv, Err(HashFailed))
    else
      var u := NewUser(req, hashed.value, suffix);
      if createFails || FindUser(t.users, u.uuid).Some? then (t, kv, Err(DbError))
      else
        var t1 := t.(users := t.users + [u]);
        if signed.None? then (t1, kv, Err(TokenFailed))
        else (t1, kv[SessionKey(signed.value) := u.uuid], Ok(AuthResponse(signed.value, ToUserProfile(u))))
  }

  /** `Login`: a failed lookup, then an unknown email, then a disabled
      account (before the password is looked at), then a wrong password.
      Past those the last online time is set (its error is ignored); a
      signing failure then leaves that update without a session, and
      otherwise a session entry is written. */
  function Login(t: Tables, kv: map<string, string>, email: string, password: string,
                 matches: (string, string) -> bool, lookupFails: bool, signed: Option<string>, now: int)
    : (r: (Tables, map<string, string>, Result<AuthResponse, UserError>))
    ensures lookupFails ==> r == (t, kv, Err(DbError))
    ensures !lookupFails && FindByEmail(t.users, email).None? ==> r == (t, kv, Err(UserNotFound))
    ensures !lookupFails && FindByEmail(t.users, email).Some? ==>
      var k := FindByEmail(t.users, email).value;
      var u := t.users[k];
      var t1 := t.(users := t.users[k := u.(lastOnlineAt := Some(now))]);
      (u.status == UserStatusDisabled ==> r == (t, kv, Err(UserDisabled)))
      && (u.status != UserStatusDisabled && !matches(u.passwordHash, password) ==> r == (t, kv, Err(InvalidPassword)))
      && (u.status != UserStatusDisabled && matches(u.passwordHash, password) && signed.None? ==>
            r == (t1, kv, Err(TokenFailed)))
      && (u.status != UserStatusDisabled && matches(u.passwordHash, password) && signed.Some? ==>
            r == (t1, kv[SessionKey(signed.value) := u.uuid], Ok(AuthResponse(signed.value, ToUserProfile(u)))))
  {
    if lookupFails then (t, kv, Err(DbError))
    else
      var k := FindByEmail(t.users, email);
      if k.None? then (t, kv, Err(UserNotFound))
      else
        var u := t.users[k.value];
        if u.status == UserStatusDisabled then (t, kv, Err(UserDisabled))
        else if !matches(u.passwordHash, password) then (t, kv, Err(InvalidPassword))
        else
          var t1 := t.(users := t.users[k.value := u.(lastOnlineAt := Some(now))]);
          if signed.None? then (t1, kv, Err(TokenFailed))
          else (t1, kv[SessionKey(signed.value) := u.uuid], Ok(AuthResponse(signed.value, ToUserProfile(u))))
  }

  /** `Logout`: the token's session entry is deleted; the second component
      says whether the delete succeeded. A failed delete (`deleteFails`)
      leaves the store as it was. */
  function Logout(kv: map<string, string>, token: string, deleteFails: bool): (r: (map<string, string>, bool))
    ensures r.1 <==> !deleteFails
    ensures deleteFails ==> r.0 == kv
    ensures !deleteFails ==> SessionKey(token) !in r.0
    ensures !deleteFails ==> forall k :: k in kv && k != SessionKey(token) ==> k in r.0 && r.0[k] == kv[k]
    ensures forall k :: k in r.0 ==> k in kv
  {
    if deleteFails then (kv, false) else (kv - {SessionKey(token)}, true)
  }

  /** Whoever registers can log in straight away with the same password,
      as the same user, and the new session names that user; the login
      fails only when its lookup or its signing does. */
  lemma RegisterThenLogin(t: Tables, kv: map<string, string>, req: RegisterRequest, suffix: string,
                          regLookupFails: bool, hashed: Option<string>, createFails: bool, signed: Option<string>,
                          matches: (string, string) -> bool, loginLookupFails: bool, loginSigned: Option<string>, now: int)
    requires |suffix| == 11
    requires Register(t, kv, req, suffix, regLookupFails, hashed, createFails, signed).2.Ok?
    requires matches(hashed.value, req.password)
    ensures var (ta, kva, ra) := Register(t, kv, req, suffix, regLookupFails, hashed, createFails, signed);
            var (tb, kvb, rb) := Login(ta, kva, req.email, req.password, matches, loginLookupFails, loginSigned, now);
            (rb.Ok? <==> !loginLookupFails && loginSigned.Some?)
            && (rb.Ok? ==> rb.value.user == ra.value.user && kvb[SessionKey(loginSigned.value)] == ra.value.user.uuid)
  {
    var (ta, kva, ra) := Register(t, kv, req, suffix, regLookupFails, hashed, createFails, signed);
    assert ta.users[|t.users|] == NewUser(req, hashed.value, suffix);
    assert FindByEmail(ta.users, req.email) == Some(|t.users|);
  }

  /** A successful logout ends exactly the session that logging in opened;
      a failed one leaves it in place. */
  lemma LoginThenLogout(t: Tables, kv: map<string, string>, email: string, password: string,
                        matches: (string, string) -> bool, lookupFails: bool, signed: Option<string>, now: int)
    requires Login(t, kv, email, password, matches, lookupFails, signed, now).2.Ok?
    ensures signed.Some?
    ensures var kv1 := Login(t, kv, email, password, matches, lookupFails, signed, now).1;
            Logout(kv1, signed.value, false).0 == Logout(kv, signed.value, false).0
            && SessionKey(signed.value) in Logout(kv1, signed.value, true).0
  {
    var kv1 := Login(t, kv, email, password, matches, lookupFails, signed, now).1;
    assert Logout(kv1, signed.value, false).0.Keys == Logout(kv, signed.value, false).0.Keys;
  }
}

/** The user service's functions as methods over the database and the
    key-value store. */
module UserService {
  import opened Wrappers
  import opened Schema
  import R = UserRules

  method Register(db: Db, store: KeyValueStore, req: R.RegisterRequest, suffix: string, lookupFails: bool,
                  hashed: Option<string>, createFails: bool, signed: Option<string>)
    returns (r: Result<R.AuthResponse, R.UserError>)
    requires |suffix| == 11
    modifies db, store
    ensures (db.State(), store.entries, r)
            == R.Register(old(db.State()), old(store.entries), req, suffix, lookupFails, hashed, createFails, signed)
  {
    if lookupFails {
      return Err(R.DbError);
    }
    if R.FindByEmail(db.users, req.email).Some? {
      return Err(R.EmailExists);
    }
    if hashed.None? {
      return Err(R.HashFailed);
    }
    var userUuid := ['U'] + suffix;
    var user := UserRow(userUuid, req.nickname, req.email, hashed.value, R.UserAvatarBase + userUuid, 0, "", "", false,
                        UserStatusActive, None, None);
    if createFails || R.FindUser(db.users, userUuid).Some? {
      return Err(R.DbError);
    }
    db.users := db.users + [user];
    if signed.None? {
      return Err(R.TokenFailed);
    }
    store.entries := store.entries[R.SessionPrefix + signed.value := user.uuid];
    return Ok(R.AuthResponse(signed.value, R.ToUserProfile(user)));
  }

  method Login(db: Db, store: KeyValueStore, email: string, password: string, matches: (string, string) -> bool,
               lookupFails: bool, signed: Option<string>, now: int) returns (r: Result<R.AuthResponse, R.UserError>)
    modifies db, store
    ensures (db.State(), store.entries, r)
            == R.Login(old(db.State()), old(store.entries), email, password, matches, lookupFails, signed, now)
  {
    if lookupFails {
      return Err(R.DbError);
    }
    var k := R.FindByEmail(db.users, email);
    if k.None? {
      return Err(R.UserNotFound);
    }
    var user := db.users[k.value];
    if user.status == UserStatusDisabled {
      return Err(R.UserDisabled);
    }
    if !matches(user.passwordHash, password) {
      return Err(R.InvalidPassword);
    }
    db.users := db.users[k.value := user.(lastOnlineAt := Some(now))];
    if signed.None? {
      return Err(R.TokenFailed);
    }
    store.entries := store.entries[R.SessionPrefix + signed.value := user.uuid];
    return Ok(R.AuthResponse(signed.value, R.ToUserProfile(user)));
  }

  /** The answer says whether the delete succeeded. */
  method Logout(store: KeyValueStore, token: string, deleteFails: bool) returns (ok: bool)
    modifies store
    ensures (store.entries, ok) == R.Logout(old(store.entries), token, deleteFails)
  {
    if deleteFails {
      return false;
    }
    store.entries := store.entries - {R.SessionPrefix + token};
    return true;
  }
}
