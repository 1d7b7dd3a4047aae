/** The auth slice: the signed-in user and the token, with the token
    mirrored under the storage key "token". The three async thunks are
    functions from the server's reply to a fulfilled or rejected outcome;
    the slice's reducer cases are methods. */
module AuthStore {
  import opened Wrappers
  import opened BrowserStorage

  const TokenKey: string := "token"

  datatype User = User(uuid: string, nickname: string, email: string, avatar: string, isAdmin: bool)

  datatype AuthResponse = AuthResponse(token: string, user: User)

  /** What a `fetch` followed by `response.json()` produced: the envelope's
      code, message and data, or a thrown error (network or parse). */
  datatype Reply<T> = Replied(code: int, message: string, data: T) | Threw

  /** JavaScript truthiness of a `string | null`. */
  predicate Truthy(s: Option<string>) {
    s.Some? && s.value != ""
  }

  /** The common shape of the three thunks: code 0 fulfils with the data,
      any other code rejects with the server's message, and a throw
      rejects with the thunk's own fallback text. */
  function Settle<T>(reply: Reply<T>, fallback: string): (r: Result<T, string>)
    ensures r.Ok? <==> reply.Replied? && reply.code == 0
    ensures r.Ok? ==> r.value == reply.data
    ensures reply.Replied? && reply.code != 0 ==> r == Err(reply.message)
    ensures reply.Threw? ==> r == Err(fallback)
  {
    match reply
    case Threw => Err(fallback)
    case Replied(code, message, data) => if code != 0 then Err(message) else Ok(data)
  }

  function LoginThunk(reply: Reply<AuthResponse>): (r: Result<AuthResponse, string>)
    ensures reply.Threw? ==> r == Err("Login failed")
    ensures r.Ok? <==> reply.Replied? && reply.code == 0
  {
    Settle(reply, "Login failed")
  }

  function RegisterThunk(reply: Reply<AuthResponse>): (r: Result<AuthResponse, string>)
    ensures reply.Threw? ==> r == Err("Registration failed")
    ensures r.Ok? <==> reply.Replied? && reply.code == 0
  {
    Settle(reply, "Registration failed")
  }

  /** `fetchCurrentUser`: `server` is the reply the `/auth/me` request would
      get for a given token. Without a truthy token the thunk rejects with
      "No token" whatever the server would say, so no request is made. */
  function FetchCurrentUserThunk(token: Option<string>, server: string -> Reply<User>): (r: Result<User, string>)
    ensures !Truthy(token) ==> r == Err("No token")
    ensures Truthy(token) && server(token.value).Threw? ==> r == Err("Failed to fetch user")
    ensures r.Ok? <==> Truthy(token) && server(token.value).Replied? && server(token.value).code == 0
  {
    if !Truthy(token) then Err("No token")
    else Settle(server(token.value), "Failed to fetch user")
  }

  /** The server is never consulted without a token. */
  lemma NoTokenNoRequest(token: Option<string>, s1: string -> Reply<User>, s2: string -> Reply<User>)
    requires !Truthy(token)
    ensures FetchCurrentUserThunk(token, s1) == FetchCurrentUserThunk(token, s2) == Err("No token")
  {
  }

  class AuthSlice {
    const storage: LocalStorage
    var user: Option<User>
    var token: Option<string>
    var isAuthenticated: bool
    var isLoading: bool
    var error: Option<string>

    /** The initial state reads the stored token once for `token` and once
        for `isAuthenticated`; an empty stored token is kept but does not
        authenticate. */
    constructor(storage: LocalStorage)
      ensures this.storage == storage
      ensures user.None? && !isLoading && error.None?
      ensures token == storage.GetItem(TokenKey)
      ensures isAuthenticated <==> TokenKey in storage.items && storage.items[TokenKey] != ""
    {
      this.storage := storage;
      user := None;
      token := storage.GetItem(TokenKey);
      isAuthenticated := Truthy(storage.GetItem(TokenKey));
      isLoading := false;
      error := None;
    }

    method Logout()
      modifies this, storage
      ensures user.None? && token.None? && !isAuthenticated && error.None?
      ensures isLoading == old(isLoading)
      ensures storage.items == old(storage.items) - {TokenKey}
    {
      user := None;
      token := None;
      isAuthenticated := false;
      error := None;
      storage.RemoveItem(TokenKey);
    }

    method ClearError()
      modifies this
      ensures error.None?
      ensures user == old(user) && token == old(token)
      ensures isAuthenticated == old(isAuthenticated) && isLoading == old(isLoading)
    {
      error := None;
    }

    method SetUser(payload: User)
      modifies this
      ensures user == Some(payload)
      ensures token == old(token) && error == old(error)
      ensures isAuthenticated == old(isAuthenticated) && isLoading == old(isLoading)
    {
      user := Some(payload);
    }

    /** `loginAsync.pending` and `registerAsync.pending`. */
    method AuthPending()
      modifies this
      ensures isLoading && error.None?
      ensures user == old(user) && token == old(token) && isAuthenticated == old(isAuthenticated)
    {
      isLoading := true;
      error := None;
    }

    /** `loginAsync.fulfilled` and `registerAsync.fulfilled`. */
    method AuthFulfilled(payload: AuthResponse)
      modifies this, storage
      ensures !isLoading && user == Some(payload.user) && token == Some(payload.token) && isAuthenticated
      ensures error == old(error)
      ensures storage.items == old(storage.items)[TokenKey := payload.token]
    {
      isLoading := false;
      user := Some(payload.user);
      token := Some(payload.token);
      isAuthenticated := true;
      storage.SetItem(TokenKey, payload.token);
    }

    /** `loginAsync.rejected` and `registerAsync.rejected`. */
    method AuthRejected(payload: string)
      modifies this
      ensures !isLoading && error == Some(payload)
      ensures user == old(user) && token == old(token) && isAuthenticated == old(isAuthenticated)
    {
      isLoading := false;
      error := Some(payload);
    }

    method FetchCurrentUserPending()
      modifies this
      ensures isLoading
      ensures user == old(user) && token == old(token) && error == old(error)
      ensures isAuthenticated == old(isAuthenticated)
    {
      isLoading := true;
    }

    method FetchCurrentUserFulfilled(payload: User)
      modifies this
      ensures !isLoading && user == Some(payload) && isAuthenticated
      ensures token == old(token) && error == old(error)
    {
      isLoading := false;
      user := Some(payload);
      isAuthenticated := true;
    }

    /** A rejection signs the user out completely, whatever the reason, but
        leaves `error` alone. */
    method FetchCurrentUserRejected()
      modifies this, storage
      ensures !isLoading && user.None? && token.None? && !isAuthenticated
      ensures error == old(error)
      ensures storage.items == old(storage.items) - {TokenKey}
    {
      isLoading := false;
      user := None;
      token := None;
      isAuthenticated := false;
      storage.RemoveItem(TokenKey);
    }

    /** One dispatch of `loginAsync` (or `registerAsync`, given its thunk's
        outcome): pending, then fulfilled or rejected. */
    method DispatchAuth(outcome: Result<AuthResponse, string>)
      modifies this, storage
      ensures !isLoading
      ensures outcome.Ok? ==> user == Some(outcome.value.user) && token == Some(outcome.value.token)
                              && isAuthenticated && error.None?
                              && storage.items == old(storage.items)[TokenKey := outcome.value.token]
      ensures outcome.Err? ==> error == Some(outcome.error) && user == old(user) && token == old(token)
                               && isAuthenticated == old(isAuthenticated) && storage.items == old(storage.items)
    {
      AuthPending();
      if outcome.Ok? {
        AuthFulfilled(outcome.value);
      } else {
        AuthRejected(outcome.error);
      }
    }

    /** One dispatch of `fetchCurrentUser`: the thunk reads the token from
        the state, then the matching case runs. */
    method DispatchFetchCurrentUser(server: string -> Reply<User>)
      modifies this, storage
      ensures !isLoading && error == old(error)
      ensures FetchCurrentUserThunk(old(token), server).Err? ==>
        user.None? && token.None? && !isAuthenticated && storage.items == old(storage.items) - {TokenKey}
      ensures FetchCurrentUserThunk(old(token), server).Ok? ==>
        user == Some(FetchCurrentUserThunk(old(token), server).value) && isAuthenticated
        && token == old(token) && storage.items == old(storage.items)
    {
      var outcome := FetchCurrentUserThunk(token, server);
      FetchCurrentUserPending();
      if outcome.Ok? {
        FetchCurrentUserFulfilled(outcome.value);
      } else {
        FetchCurrentUserRejected();
      }
    }
  }
}
