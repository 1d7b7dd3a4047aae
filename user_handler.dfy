/** The profile, search and administration endpoints of the user handler,
    as functions over the tables. */
module UserHandlerRules {
  import opened Wrappers
  import opened Schema
  import Response
  import U = UserRules
  import Strings

  // ---------------------------------------------------------------- updates

  /** The columns `UpdateProfile` may write. */
  const ColumnNickname := "nickname"
  const ColumnAvatar := "avatar"
  const ColumnGender := "gender"
  const ColumnSignature := "signature"
  const ColumnBirthday := "birthday"

  /** An `UpdateProfileRequest`: every field is optional (a Go *string or *int8), `None` where the
      JSON leaves it out. */
  datatype ProfileChange = ProfileChange(
    nickname: Option<string>, avatar: Option<string>, gender: Option<int>,
    signature: Option<string>, birthday: Option<string>)

  /** A value in a GORM update map. */
  datatype Value = Text(text: string) | Number(number: int)

  /** The update map: nickname and avatar only when given and non-empty,
      gender, signature and birthday whenever given, even when empty. */
  function Updates(req: ProfileChange): (m: map<string, Value>)
    ensures ColumnNickname in m <==> req.nickname.Some? && req.nickname.value != ""
    ensures ColumnAvatar in m <==> req.avatar.Some? && req.avatar.value != ""
    ensures ColumnGender in m <==> req.gender.Some?
    ensures ColumnSignature in m <==> req.signature.Some?
    ensures ColumnBirthday in m <==> req.birthday.Some?
    ensures forall c :: c in m ==> c in {ColumnNickname, ColumnAvatar, ColumnGender, ColumnSignature, ColumnBirthday}
    ensures ColumnNickname in m ==> m[ColumnNickname] == Text(req.nickname.value)
    ensures ColumnAvatar in m ==> m[ColumnAvatar] == Text(req.avatar.value)
    ensures ColumnGender in m ==> m[ColumnGender] == Number(req.gender.value)
    ensures ColumnSignature in m ==> m[ColumnSignature] == Text(req.signature.value)
    ensures ColumnBirthday in m ==> m[ColumnBirthday] == Text(req.birthday.value)
  {
    var m1: map<string, Value> :=
      if req.nickname.Some? && req.nickname.value != "" then map[ColumnNickname := Text(req.nickname.value)] else map[];
    var m2 := if req.avatar.Some? && req.avatar.value != "" then m1[ColumnAvatar := Text(req.avatar.value)] else m1;
    var m3 := if req.gender.Some? then m2[ColumnGender := Number(req.gender.value)] else m2;
    var m4 := if req.signature.Some? then m3[ColumnSignature := Text(req.signature.value)] else m3;
    if req.birthday.Some? then m4[ColumnBirthday := Text(req.birthday.value)] else m4
  }

  /** The map is empty exactly when the request changes nothing. */
  lemma NoFieldsToUpdate(req: ProfileChange)
    ensures Updates(req) == map[] <==>
      (req.nickname.None? || req.nickname.value == "") && (req.avatar.None? || req.avatar.value == "")
      && req.gender.None? && req.signature.None? && req.birthday.None?
  {
    if (req.nickname.None? || req.nickname.value == "") && (req.avatar.None? || req.avatar.value == "")
       && req.gender.None? && req.signature.None? && req.birthday.None? {
      assert Updates(req).Keys == {};
    }
  }

  function TextOr(m: map<string, Value>, column: string, current: string): string {
    if column in m && m[column].Text? then m[column].text else current
  }

  function NumberOr(m: map<string, Value>, column: string, current: int): int {
    if column in m && m[column].Number? then m[column].number else current
  }

  /** What a `Where("uuid = ?", id)` update writes into a user row. */
  datatype UserPatch =
    | SetFields(updates: map<string, Value>)    // Updates(map)
    | SetPassword(hash: string)                 // Update("password", …)
    | SetStatus(status: int)                    // Update("status", …)

  /** A patched row keeps its identity, its email and everything the patch
      does not name. */
  function Patched(u: UserRow, p: UserPatch): (v: UserRow)
    ensures v.uuid == u.uuid && v.email == u.email && v.isAdmin == u.isAdmin
    ensures v.lastOnlineAt == u.lastOnlineAt && v.lastOfflineAt == u.lastOfflineAt
    ensures !p.SetPassword? ==> v.passwordHash == u.passwordHash
    ensures !p.SetStatus? ==> v.status == u.status
    ensures p.SetPassword? ==> v == u.(passwordHash := p.hash)
    ensures p.SetStatus? ==> v == u.(status := p.status)
  {
    match p
    case SetFields(m) =>
      u.(nickname := TextOr(m, ColumnNickname, u.nickname), avatar := TextOr(m, ColumnAvatar, u.avatar),
         gender := NumberOr(m, ColumnGender, u.gender), signature := TextOr(m, ColumnSignature, u.signature),
         birthday := TextOr(m, ColumnBirthday, u.birthday))
    case SetPassword(h) => u.(passwordHash := h)
    case SetStatus(s) => u.(status := s)
  }

  /** `Model(&User{}).Where("uuid = ?", uuid).Update…`: every row with that
      uuid is patched, every other row is left alone. */
  function PatchWhere(us: seq<UserRow>, uuid: string, p: UserPatch): (r: seq<UserRow>)
    ensures |r| == |us|
    ensures forall i :: 0 <= i < |us| && us[i].uuid == uuid ==> r[i] == Patched(us[i], p)
    ensures forall i :: 0 <= i < |us| && us[i].uuid != uuid ==> r[i] == us[i]
  {
    if us == [] then []
    else [if us[0].uuid == uuid then Patched(us[0], p) else us[0]] + PatchWhere(us[1..], uuid, p)
  }

  /** An update that matches no row changes nothing. */
  lemma PatchNothing(us: seq<UserRow>, uuid: string, p: UserPatch)
    requires U.FindUser(us, uuid).None?
    ensures PatchWhere(us, uuid, p) == us
  {
  }

  /** Patching never moves a user: lookups by uuid and by email find the
      same position before and after. */
  lemma {:induction false} PatchKeepsLookups(us: seq<UserRow>, uuid: string, p: UserPatch, id: string, email: string)
    ensures U.FindUser(PatchWhere(us, uuid, p), id) == U.FindUser(us, id)
    ensures U.FindByEmail(PatchWhere(us, uuid, p), email) == U.FindByEmail(us, email)
  {
    var vs := PatchWhere(us, uuid, p);
    SameUuidsSameLookup(us, vs, id);
    SameEmailsSameLookup(us, vs, email);
  }

  /** `FindUser` only looks at the uuid column. */
  lemma {:induction false} SameUuidsSameLookup(a: seq<UserRow>, b: seq<UserRow>, id: string)
    requires |a| == |b| && forall i :: 0 <= i < |a| ==> a[i].uuid == b[i].uuid
    ensures U.FindUser(a, id) == U.FindUser(b, id)
  {
    if a != [] {
      SameUuidsSameLookup(a[1..], b[1..], id);
    }
  }

  /** `FindByEmail` only looks at the email column. */
  lemma {:induction false} SameEmailsSameLookup(a: seq<UserRow>, b: seq<UserRow>, email: string)
    requires |a| == |b| && forall i :: 0 <= i < |a| ==> a[i].email == b[i].email
    ensures U.FindByEmail(a, email) == U.FindByEmail(b, email)
  {
    if a != [] {
      SameEmailsSameLookup(a[1..], b[1..], email);
    }
  }

  /** GORM's `RowsAffected` for an update by uuid: the rows it matches. */
  function RowsMatched(us: seq<UserRow>, uuid: string): (n: nat)
    ensures n <= |us|
    ensures n == 0 <==> U.FindUser(us, uuid).None?
  {
    if us == [] then 0 else (if us[0].uuid == uuid then 1 else 0) + RowsMatched(us[1..], uuid)
  }

  // ---------------------------------------------------------- UpdateProfile

  /** What `UpdateProfile` returns about the reloaded user. */
  datatype ProfileView = ProfileView(
    uuid: string, nickname: string, email: string, avatar: string, gender: int,
    signature: string, birthday: string)

  function ToProfileView(u: UserRow): (v: ProfileView)
    ensures v.uuid == u.uuid && v.nickname == u.nickname && v.email == u.email && v.avatar == u.avatar
    ensures v.gender == u.gender && v.signature == u.signature && v.birthday == u.birthday
  {
    ProfileView(u.uuid, u.nickname, u.email, u.avatar, u.gender, u.signature, u.birthday)
  }

  /** How a handler ends: with a reply, or with a nil dereference when it
      reads a user it did not check for. */
  datatype Handled<D> = Replied(reply: Response.Reply<D>) | Panicked

  /** `UpdateProfile`: a bad body and an empty update map are refused with
      nothing written; then every row of the caller is updated and the
      caller is reloaded, and a caller who has no row crashes the handler. */
  function UpdateProfile(t: Tables, userId: string, bind: Response.Bind<ProfileChange>, fault: bool)
    : (r: (Tables, Handled<ProfileView>))
    ensures bind.BindFailed? ==> r == (t, Replied(Response.BadRequest("Invalid request: " + bind.reason)))
    ensures bind.Bound? && Updates(bind.value) == map[] ==> r == (t, Replied(Response.BadRequest("No fields to update")))
    ensures bind.Bound? && Updates(bind.value) != map[] && fault ==>
      r == (t, Replied(Response.InternalError("Failed to update profile")))
    ensures bind.Bound? && Updates(bind.value) != map[] && !fault ==>
      r.0 == t.(users := PatchWhere(t.users, userId, SetFields(Updates(bind.value))))
    ensures r.1.Panicked? <==>
      bind.Bound? && Updates(bind.value) != map[] && !fault && U.FindUser(t.users, userId).None?
    ensures r.0 != t ==> bind.Bound? && !fault && U.FindUser(t.users, userId).Some?
  {
    if bind.BindFailed? then (t, Replied(Response.BadRequest("Invalid request: " + bind.reason)))
    else
      var updates := Updates(bind.value);
      if updates == map[] then (t, Replied(Response.BadRequest("No fields to update")))
      else if fault then (t, Replied(Response.InternalError("Failed to update profile")))
      else
        var t1 := t.(users := PatchWhere(t.users, userId, SetFields(updates)));
        PatchKeepsLookups(t.users, userId, SetFields(updates), userId, "");
        if U.FindUser(t.users, userId).None? then
          PatchNothing(t.users, userId, SetFields(updates));
          (t1, Panicked)
        else (t1, Replied(Response.Success(ToProfileView(t1.users[U.FindUser(t1.users, userId).value]))))
  }

  /** A successful profile update answers with the caller's new values:
      each field the request set has the value it sent, every other field
      its old value, and nobody else's row changes. */
  lemma UpdateProfileReflectsRequest(t: Tables, userId: string, req: ProfileChange, fault: bool)
    requires Updates(req) != map[] && !fault
    requires U.FindUser(t.users, userId).Some?
    ensures var (t1, out) := UpdateProfile(t, userId, Response.Bound(req), fault);
            var before := t.users[U.FindUser(t.users, userId).value];
            out.Replied? && out.reply.status == 200 && out.reply.data.Some?
            && out.reply.data.value.nickname == (if req.nickname.Some? && req.nickname.value != "" then req.nickname.value else before.nickname)
            && out.reply.data.value.avatar == (if req.avatar.Some? && req.avatar.value != "" then req.avatar.value else before.avatar)
            && out.reply.data.value.gender == (if req.gender.Some? then req.gender.value else before.gender)
            && out.reply.data.value.signature == (if req.signature.Some? then req.signature.value else before.signature)
            && out.reply.data.value.birthday == (if req.birthday.Some? then req.birthday.value else before.birthday)
            && out.reply.data.value.email == before.email
            && forall i :: 0 <= i < |t.users| && t.users[i].uuid != userId ==> t1.users[i] == t.users[i]
  {
    var k := U.FindUser(t.users, userId).value;
    PatchKeepsLookups(t.users, userId, SetFields(Updates(req)), userId, "");
    var t1 := t.(users := PatchWhere(t.users, userId, SetFields(Updates(req))));
    assert t1.users[k] == Patched(t.users[k], SetFields(Updates(req)));
  }

  /** Sending the same profile update twice leaves the tables as sending it
      once does. */
  lemma UpdateProfileIdempotent(t: Tables, userId: string, req: ProfileChange)
    ensures var t1 := UpdateProfile(t, userId, Response.Bound(req), false).0;
            UpdateProfile(t1, userId, Response.Bound(req), false).0 == t1
  {
    var m := Updates(req);
    if m != map[] {
      var us1 := PatchWhere(t.users, userId, SetFields(m));
      var us2 := PatchWhere(us1, userId, SetFields(m));
      assert forall i :: 0 <= i < |us1| ==> us2[i] == us1[i];
      assert us2 == us1;
    }
  }

  // --------------------------------------------------------- UpdatePassword

  datatype PasswordChange = PasswordChange(oldPassword: string, newPassword: string)

  /** `UpdatePassword`: the lookups and checks come in this order, and only
      the last step writes. `matches` stands for bcrypt's comparison and
      `hashed` for the new hash (`None` when hashing fails). */
  function UpdatePassword(t: Tables, userId: string, bind: Response.Bind<PasswordChange>,
                          matches: (string, string) -> bool, hashed: Option<string>, fault: bool)
    : (r: (Tables, Response.Reply<Response.Notice>))
    ensures bind.BindFailed? ==> r == (t, Response.BadRequest("Invalid request: " + bind.reason))
    ensures bind.Bound? && U.FindUser(t.users, userId).None? ==> r == (t, Response.InternalError("Failed to get user"))
    ensures bind.Bound? && U.FindUser(t.users, userId).Some? ==>
      var u := t.users[U.FindUser(t.users, userId).value];
      (!matches(u.passwordHash, bind.value.oldPassword) ==> r == (t, Response.BadRequest("Current password is incorrect")))
      && (matches(u.passwordHash, bind.value.oldPassword) && hashed.None? ==>
            r == (t, Response.InternalError("Failed to process password")))
      && (matches(u.passwordHash, bind.value.oldPassword) && hashed.Some? && fault ==>
            r == (t, Response.InternalError("Failed to update password")))
      && (matches(u.passwordHash, bind.value.oldPassword) && hashed.Some? && !fault ==>
            r == (t.(users := PatchWhere(t.users, userId, SetPassword(hashed.value))),
                  Response.Success(Response.Notice("Password updated successfully"))))
    ensures r.1.status == 200 <==> r.1.message == "success"
  {
    if bind.BindFailed? then (t, Response.BadRequest("Invalid request: " + bind.reason))
    else
      var u := U.GetByUuid(t.users, userId);
      if u.Err? then (t, Response.InternalError("Failed to get user"))
      else if !matches(u.value.passwordHash, bind.value.oldPassword) then
        (t, Response.BadRequest("Current password is incorrect"))
      else if hashed.None? then (t, Response.InternalError("Failed to process password"))
      else if fault then (t, Response.InternalError("Failed to update password"))
      else (t.(users := PatchWhere(t.users, userId, SetPassword(hashed.value))),
            Response.Success(Response.Notice("Password updated successfully")))
  }

  /** After a password change the account logs in with the new password,
      provided the new hash is one the new password matches; that login
      fails only when its lookup or its signing does. */
  lemma PasswordChangeThenLogin(t: Tables, kv: map<string, string>, userId: string, change: PasswordChange,
                                matches: (string, string) -> bool, hash: string, lookupFails: bool,
                                signed: Option<string>, now: int)
    requires U.FindUser(t.users, userId).Some?
    requires var k := U.FindUser(t.users, userId).value;
             U.FindByEmail(t.users, t.users[k].email) == Some(k) && t.users[k].status != UserStatusDisabled
             && matches(t.users[k].passwordHash, change.oldPassword)
    requires matches(hash, change.newPassword)
    ensures var t1 := UpdatePassword(t, userId, Response.Bound(change), matches, Some(hash), false).0;
            var email := t.users[U.FindUser(t.users, userId).value].email;
            U.Login(t1, kv, email, change.newPassword, matches, lookupFails, signed, now).2.Ok? <==> !lookupFails && signed.Some?
  {
    var k := U.FindUser(t.users, userId).value;
    var t1 := UpdatePassword(t, userId, Response.Bound(change), matches, Some(hash), false).0;
    PatchKeepsLookups(t.users, userId, SetPassword(hash), userId, t.users[k].email);
    assert t1.users[k] == t.users[k].(passwordHash := hash);
  }

  // ------------------------------------------------------------ SearchUsers

  const SearchLimit := 20

  /** The fields a search result shows. */
  datatype SearchResult = SearchResult(uuid: string, nickname: string, avatar: string, signature: string)

  /** `uuid != caller AND (nickname LIKE %q% OR email LIKE %q%)`. */
  predicate MatchesQuery(u: UserRow, caller: string, q: string) {
    u.uuid != caller && (Strings.Contains(u.nickname, q) || Strings.Contains(u.email, q))
  }

  /** The rows the search's `Where` clauses select, in table order. */
  function Matching(us: seq<UserRow>, caller: string, q: string): (r: seq<UserRow>)
    ensures |r| <= |us|
    ensures forall i :: 0 <= i < |r| ==> r[i] in us && MatchesQuery(r[i], caller, q)
    ensures forall u :: u in us && MatchesQuery(u, caller, q) ==> u in r
  {
    if us == [] then []
    else (if MatchesQuery(us[0], caller, q) then [us[0]] else []) + Matching(us[1..], caller, q)
  }

  /** The rows `Find` returns: the first twenty matches. */
  function SearchQuery(us: seq<UserRow>, caller: string, q: string): (r: seq<UserRow>)
    ensures |r| <= SearchLimit
    ensures forall i :: 0 <= i < |r| ==> r[i] in us && MatchesQuery(r[i], caller, q)
    ensures |Matching(us, caller, q)| <= SearchLimit ==>
      forall u :: u in us && MatchesQuery(u, caller, q) ==> u in r
  {
    var m := Matching(us, caller, q);
    if |m| <= SearchLimit then m else m[..SearchLimit]
  }

  function ToSearchResult(u: UserRow): SearchResult {
    SearchResult(u.uuid, u.nickname, u.avatar, u.signature)
  }

  /** The result list, one entry per row, in order. */
  function ToSearchResults(us: seq<UserRow>): (r: seq<SearchResult>)
    ensures |r| == |us|
    ensures forall i :: 0 <= i < |us| ==> r[i] == ToSearchResult(us[i])
  {
    if us == [] then [] else ToSearchResults(us[..|us| - 1]) + [ToSearchResult(us[|us| - 1])]
  }

  /** `SearchUsers`. */
  function SearchUsers(t: Tables, caller: string, q: string, fault: bool): (r: Response.Reply<seq<SearchResult>>)
    ensures q == "" ==> r == Response.BadRequest("Search query is required")
    ensures q != "" && fault ==> r == Response.InternalError("Failed to search users")
    ensures q != "" && !fault ==> r == Response.Success(ToSearchResults(SearchQuery(t.users, caller, q)))
  {
    if q == "" then Response.BadRequest("Search query is required")
    else if fault then Response.InternalError("Failed to search users")
    else Response.Success(ToSearchResults(SearchQuery(t.users, caller, q)))
  }

  /** A search never lists the caller, lists at most twenty users, lists
      only users whose nickname or email contains the query, and, when
      there are at most twenty such users, lists all of them. */
  lemma SearchResults(t: Tables, caller: string, q: string)
    requires q != ""
    ensures var r := SearchUsers(t, caller, q, false);
            r.status == 200 && r.data.Some? && |r.data.value| <= SearchLimit
            && (forall i :: 0 <= i < |r.data.value| ==> r.data.value[i].uuid != caller)
            && (forall i :: 0 <= i < |r.data.value| ==>
                  exists u :: u in t.users && MatchesQuery(u, caller, q) && r.data.value[i] == ToSearchResult(u))
            && (|Matching(t.users, caller, q)| <= SearchLimit ==>
                  forall u :: u in t.users && MatchesQuery(u, caller, q) ==> ToSearchResult(u) in r.data.value)
  {
    var rows := SearchQuery(t.users, caller, q);
    var res := ToSearchResults(rows);
    var r := SearchUsers(t, caller, q, false);
    assert r.status == 200 && r.data == Some(res);
    assert |res| == |rows| <= SearchLimit;
    ResultsSound(t.users, rows, caller, q);
    if |Matching(t.users, caller, q)| <= SearchLimit {
      ResultsComplete(t.users, rows, caller, q);
    }
  }

  /** Every listed user is a matching row, so never the caller. */
  lemma ResultsSound(us: seq<UserRow>, rows: seq<UserRow>, caller: string, q: string)
    requires forall i :: 0 <= i < |rows| ==> rows[i] in us && MatchesQuery(rows[i], caller, q)
    ensures var res := ToSearchResults(rows);
            (forall i :: 0 <= i < |res| ==> res[i].uuid != caller)
            && (forall i :: 0 <= i < |res| ==>
                  exists u :: u in us && MatchesQuery(u, caller, q) && res[i] == ToSearchResult(u))
  {
    var res := ToSearchResults(rows);
    forall i | 0 <= i < |res|
      ensures exists u :: u in us && MatchesQuery(u, caller, q) && res[i] == ToSearchResult(u)
    {
      assert rows[i] in us && MatchesQuery(rows[i], caller, q) && res[i] == ToSearchResult(rows[i]);
    }
  }

  /** Every matching row that the query returned is listed. */
  lemma ResultsComplete(us: seq<UserRow>, rows: seq<UserRow>, caller: string, q: string)
    requires forall u :: u in us && MatchesQuery(u, caller, q) ==> u in rows
    ensures forall u :: u in us && MatchesQuery(u, caller, q) ==> ToSearchResult(u) in ToSearchResults(rows)
  {
    var res := ToSearchResults(rows);
    forall u | u in us && MatchesQuery(u, caller, q)
      ensures ToSearchResult(u) in res
    {
      var i :| 0 <= i < |rows| && rows[i] == u;
      assert res[i] == ToSearchResult(u);
    }
  }

  // -------------------------------------------------- AdminUpdateUserStatus

  /** The body of a status change as the JSON decoder sees it: not an
      object it can decode, or an object whose "status" field is missing
      (`None`) or holds an integer. */
  datatype StatusBody = Unparseable | StatusBody(status: Option<int>)

  predicate IsInt8(v: int) {
    -128 <= v < 128
  }

  /** Binding `struct { Status int8 binding:"required" }`. A missing field
      leaves the int8 at its zero value, and `required` rejects the zero
      value, so a body sending 0 is refused like one sending nothing. */
  function BindStatusAsWritten(b: StatusBody): (r: Option<int>)
    ensures r.Some? <==> b.StatusBody? && b.status.Some? && IsInt8(b.status.value) && b.status.value != 0
    ensures r.Some? ==> r == b.status
  {
    if b.Unparseable? then None
    else if b.status.Some? && !IsInt8(b.status.value) then None   // the value does not fit an int8
    else
      var decoded := if b.status.Some? then b.status.value else 0;
      if decoded == 0 then None else Some(decoded)
  }

  /** The binding the handler needs: the field must be present, and any
      int8 in it binds, 0 included. */
  function BindStatus(b: StatusBody): (r: Option<int>)
    ensures r.Some? <==> b.StatusBody? && b.status.Some? && IsInt8(b.status.value)
    ensures r.Some? ==> r == b.status
  {
    if b.Unparseable? || b.status.None? || !IsInt8(b.status.value) then None else b.status
  }

  /** What the handler does once the body is bound (`None` when binding
      failed): only Active(0) and Disabled(1) are written, and an update
      that matches no row is a 404. */
  function StatusUpdate(t: Tables, uuid: string, status: Option<int>, fault: bool)
    : (r: (Tables, Response.Reply<Response.Notice>))
    ensures uuid == "" ==> r == (t, Response.BadRequest("User UUID is required"))
    ensures uuid != "" && status.None? ==> r == (t, Response.BadRequest("Invalid request"))
    ensures uuid != "" && status.Some? && status.value != UserStatusActive && status.value != UserStatusDisabled ==>
      r == (t, Response.BadRequest("Invalid status value"))
    ensures uuid != "" && status.Some? && status.value in {UserStatusActive, UserStatusDisabled} && fault ==>
      r == (t, Response.InternalError("Failed to update user status"))
    ensures uuid != "" && status.Some? && status.value in {UserStatusActive, UserStatusDisabled} && !fault ==>
      (U.FindUser(t.users, uuid).None? ==> r == (t, Response.NotFound("User not found")))
      && (U.FindUser(t.users, uuid).Some? ==>
            r == (t.(users := PatchWhere(t.users, uuid, SetStatus(status.value))),
                  Response.Success(Response.Notice("User status updated"))))
    ensures r.0 != t ==> r.1.status == 200
  {
    if uuid == "" then (t, Response.BadRequest("User UUID is required"))
    else if status.None? then (t, Response.BadRequest("Invalid request"))
    else if status.value != UserStatusActive && status.value != UserStatusDisabled then
      (t, Response.BadRequest("Invalid status value"))
    else if fault then (t, Response.InternalError("Failed to update user status"))
    else if RowsMatched(t.users, uuid) == 0 then
      PatchNothing(t.users, uuid, SetStatus(status.value));
      (t, Response.NotFound("User not found"))
    else
      (t.(users := PatchWhere(t.users, uuid, SetStatus(status.value))),
       Response.Success(Response.Notice("User status updated")))
  }

  /** `AdminUpdateUserStatus` as written. */
  function AdminUpdateUserStatusAsWritten(t: Tables, uuid: string, body: StatusBody, fault: bool)
    : (r: (Tables, Response.Reply<Response.Notice>))
    ensures r == StatusUpdate(t, uuid, BindStatusAsWritten(body), fault)
    ensures forall i :: 0 <= i < |t.users| ==> r.0.users[i].status == t.users[i].status || r.0.users[i].status == UserStatusDisabled
  {
    StatusUpdate(t, uuid, BindStatusAsWritten(body), fault)
  }

  /** As written, a request to reactivate an account always fails with
      "Invalid request" and writes nothing, so no request can ever lift a
      ban. */
  lemma ActivationRefusedAsWritten(t: Tables, uuid: string, body: StatusBody, fault: bool)
    requires uuid != ""
    ensures AdminUpdateUserStatusAsWritten(t, uuid, StatusBody(Some(UserStatusActive)), fault)
            == (t, Response.BadRequest("Invalid request"))
    ensures forall i :: 0 <= i < |t.users| && t.users[i].status == UserStatusDisabled ==>
              AdminUpdateUserStatusAsWritten(t, uuid, body, fault).0.users[i].status == UserStatusDisabled
  {
  }

  /** `AdminUpdateUserStatus` with the binding it needs. */
  function AdminUpdateUserStatus(t: Tables, uuid: string, body: StatusBody, fault: bool)
    : (r: (Tables, Response.Reply<Response.Notice>))
    ensures r == StatusUpdate(t, uuid, BindStatus(body), fault)
    ensures forall i :: 0 <= i < |t.users| ==>
              r.0.users[i].status == t.users[i].status || r.0.users[i].status in {UserStatusActive, UserStatusDisabled}
  {
    StatusUpdate(t, uuid, BindStatus(body), fault)
  }

  /** Disabling an active account and then enabling it again succeeds both
      times and restores the tables exactly. */
  lemma DisableThenEnable(t: Tables, uuid: string)
    requires uuid != "" && U.FindUser(t.users, uuid).Some?
    requires forall i :: 0 <= i < |t.users| && t.users[i].uuid == uuid ==> t.users[i].status == UserStatusActive
    ensures var (t1, r1) := AdminUpdateUserStatus(t, uuid, StatusBody(Some(UserStatusDisabled)), false);
            var (t2, r2) := AdminUpdateUserStatus(t1, uuid, StatusBody(Some(UserStatusActive)), false);
            r1.status == 200 && r2.status == 200 && t2 == t
  {
    var us1 := PatchWhere(t.users, uuid, SetStatus(UserStatusDisabled));
    var t1 := t.(users := us1);
    assert BindStatus(StatusBody(Some(UserStatusDisabled))) == Some(UserStatusDisabled);
    PatchKeepsLookups(t.users, uuid, SetStatus(UserStatusDisabled), uuid, "");
    assert BindStatus(StatusBody(Some(UserStatusActive))) == Some(UserStatusActive);
    DisableEnableRows(t.users, uuid);
    assert t1.(users := t.users) == t;
  }

  /** Setting the rows' status to Disabled and back to Active restores rows
      that were all Active. */
  lemma DisableEnableRows(us: seq<UserRow>, uuid: string)
    requires forall i :: 0 <= i < |us| && us[i].uuid == uuid ==> us[i].status == UserStatusActive
    ensures PatchWhere(PatchWhere(us, uuid, SetStatus(UserStatusDisabled)), uuid, SetStatus(UserStatusActive)) == us
  {
    var us1 := PatchWhere(us, uuid, SetStatus(UserStatusDisabled));
    var us2 := PatchWhere(us1, uuid, SetStatus(UserStatusActive));
    forall i | 0 <= i < |us|
      ensures us2[i] == us[i]
    {
      if us[i].uuid == uuid {
        assert us1[i] == us[i].(status := UserStatusDisabled);
      }
    }
  }
}

/** The user handler's endpoints as methods over the database. */
module UserHandler {
  import opened Wrappers
  import opened Schema
  import Response
  import R = UserHandlerRules

  /** The update map, filled by one conditional insert per field. */
  method BuildUpdates(req: R.ProfileChange) returns (updates: map<string, R.Value>)
    ensures updates == R.Updates(req)
  {
    updates := map[];
    if req.nickname.Some? && req.nickname.value != "" {
      updates := updates[R.ColumnNickname := R.Text(req.nickname.value)];
    }
    if req.avatar.Some? && req.avatar.value != "" {
      updates := updates[R.ColumnAvatar := R.Text(req.avatar.value)];
    }
    if req.gender.Some? {
      updates := updates[R.ColumnGender := R.Number(req.gender.value)];
    }
    if req.signature.Some? {
      updates := updates[R.ColumnSignature := R.Text(req.signature.value)];
    }
    if req.birthday.Some? {
      updates := updates[R.ColumnBirthday := R.Text(req.birthday.value)];
    }
  }

  method UpdateProfile(db: Db, userId: string, bind: Response.Bind<R.ProfileChange>, fault: bool)
    returns (out: R.Handled<R.ProfileView>)
    modifies db
    ensures (db.State(), out) == R.UpdateProfile(old(db.State()), userId, bind, fault)
  {
    if bind.BindFailed? {
      return R.Replied(Response.BadRequest("Invalid request: " + bind.reason));
    }
    var updates := BuildUpdates(bind.value);
    if |updates| == 0 {
      assert updates == map[];
      return R.Replied(Response.BadRequest("No fields to update"));
    }
    if fault {
      return R.Replied(Response.InternalError("Failed to update profile"));
    }
    db.users := R.PatchWhere(db.users, userId, R.SetFields(updates));
    R.PatchKeepsLookups(old(db.users), userId, R.SetFields(updates), userId, "");
    var reloaded := R.U.GetByUuid(db.users, userId);
    if reloaded.Err? {
      R.PatchNothing(old(db.users), userId, R.SetFields(updates));
      return R.Panicked;
    }
    return R.Replied(Response.Success(R.ToProfileView(reloaded.value)));
  }

  method UpdatePassword(db: Db, userId: string, bind: Response.Bind<R.PasswordChange>,
                        matches: (string, string) -> bool, hashed: Option<string>, fault: bool)
    returns (reply: Response.Reply<Response.Notice>)
    modifies db
    ensures (db.State(), reply) == R.UpdatePassword(old(db.State()), userId, bind, matches, hashed, fault)
  {
    if bind.BindFailed? {
      return Response.BadRequest("Invalid request: " + bind.reason);
    }
    var user := R.U.GetByUuid(db.users, userId);
    if user.Err? {
      return Response.InternalError("Failed to get user");
    }
    if !matches(user.value.passwordHash, bind.value.oldPassword) {
      return Response.BadRequest("Current password is incorrect");
    }
    if hashed.None? {
      return Response.InternalError("Failed to process password");
    }
    if fault {
      return Response.InternalError("Failed to update password");
    }
    db.users := R.PatchWhere(db.users, userId, R.SetPassword(hashed.value));
    return Response.Success(Response.Notice("Password updated successfully"));
  }

  /** `SearchUsers`: the query, then the result list appended to row by row. */
  method SearchUsers(db: Db, caller: string, q: string, fault: bool) returns (reply: Response.Reply<seq<R.SearchResult>>)
    ensures reply == R.SearchUsers(db.State(), caller, q, fault)
  {
    if q == "" {
      return Response.BadRequest("Search query is required");
    }
    if fault {
      return Response.InternalError("Failed to search users");
    }
    var users := R.SearchQuery(db.users, caller, q);
    var result: seq<R.SearchResult> := [];
    for i := 0 to |users|
      invariant result == R.ToSearchResults(users[..i])
    {
      assert users[..i + 1][..i] == users[..i];
      result := result + [R.ToSearchResult(users[i])];
    }
    assert users[..|users|] == users;
    return Response.Success(result);
  }

  /** `AdminUpdateUserStatus`, accepting Active(0) as well as Disabled(1). */
  method AdminUpdateUserStatusCorrected(db: Db, uuid: string, body: R.StatusBody, fault: bool)
    returns (reply: Response.Reply<Response.Notice>)
    modifies db
    ensures (db.State(), reply) == R.AdminUpdateUserStatus(old(db.State()), uuid, body, fault)
  {
    if uuid == "" {
      return Response.BadRequest("User UUID is required");
    }
    var status := R.BindStatus(body);
    if status.None? {
      return Response.BadRequest("Invalid request");
    }
    if status.value != UserStatusActive && status.value != UserStatusDisabled {
      return Response.BadRequest("Invalid status value");
    }
    if fault {
      return Response.InternalError("Failed to update user status");
    }
    var affected := R.RowsMatched(db.users, uuid);
    if affected == 0 {
      return Response.NotFound("User not found");
    }
    db.users := R.PatchWhere(db.users, uuid, R.SetStatus(status.value));
    return Response.Success(Response.Notice("User status updated"));
  }
}
