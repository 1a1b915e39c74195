/** The authentication state of the React client (`frontend/src/context/AuthContext.js`):
    the reducer over `{user, token, isAuthenticated, isLoading, error}`, the token
    writes it makes to the browser's persistent storage, and the provider's
    `loadUser`, `login`, `register` and `logout` sequences. */
module AuthContext {
  import opened Common

  /** A user record as the API returns it. */
  type User = map<string, Json>

  /** Persistent browser storage: key to stored text. */
  type Storage = map<string, string>

  const AccessKey: string := "accessToken"
  const RefreshKey: string := "refreshToken"

  datatype AuthState = AuthState(
    user: Option<User>,
    token: Option<string>,
    isAuthenticated: bool,
    isLoading: bool,
    error: Option<string>)

  datatype Action =
    | LoginStart
    | RegisterStart
    | LoginSuccess(access: string, refresh: Option<string>)
    | RegisterSuccess
    | LoginFailure(message: string)
    | RegisterFailure(message: string)
    | Logout
    | SetUser(newUser: Option<User>)
    | UpdateProfileSuccess(changes: User)
    | Unknown(kind: string)

  function Lookup(st: Storage, key: string): Option<string> {
    if key in st then Some(st[key]) else None
  }

  /** `initialState`: the token is whatever is stored; signed in iff a non-empty token is stored. */
  function InitialState(st: Storage): (s: AuthState)
    ensures s.isAuthenticated <==> AccessKey in st && st[AccessKey] != ""
    ensures s.token == Lookup(st, AccessKey)
    ensures s.user == None && !s.isLoading && s.error == None
  {
    var stored := Lookup(st, AccessKey);
    AuthState(None, stored, stored.Some? && stored.value != "", false, None)
  }

  /** `{ ...user, ...changes }` where spreading `null` contributes nothing. */
  function MergeUser(user: Option<User>, changes: User): (r: User)
    ensures forall k :: k in changes ==> k in r && r[k] == changes[k]
    ensures forall k :: k in r && k !in changes ==> user.Some? && k in user.value && r[k] == user.value[k]
    ensures user.Some? ==> r.Keys == user.value.Keys + changes.Keys
  {
    match user
    case None => changes
    case Some(u) => u + changes
  }

  /** The state `authReducer` returns. */
  function Reduce(s: AuthState, a: Action): (r: AuthState)
    ensures r.isAuthenticated ==> s.isAuthenticated || a.LoginSuccess?
    ensures a.LoginSuccess? ==> r.isAuthenticated && r.token == Some(a.access)
    ensures r.token != s.token ==> a.LoginSuccess? || a.LoginFailure? || a.RegisterFailure? || a.Logout?
    ensures r.user != s.user ==>
              a.LoginFailure? || a.RegisterFailure? || a.Logout? || a.SetUser? || a.UpdateProfileSuccess?
    ensures r.isLoading != s.isLoading ==> !a.Logout? && !a.SetUser? && !a.UpdateProfileSuccess? && !a.Unknown?
  {
    match a
    case LoginStart => s.(isLoading := true, error := None)
    case RegisterStart => s.(isLoading := true, error := None)
    case LoginSuccess(access, _) =>
      s.(isAuthenticated := true, token := Some(access), isLoading := false, error := None)
    case RegisterSuccess => s.(isLoading := false, error := None)
    case LoginFailure(m) =>
      s.(isAuthenticated := false, token := None, user := None, isLoading := false, error := Some(m))
    case RegisterFailure(m) =>
      s.(isAuthenticated := false, token := None, user := None, isLoading := false, error := Some(m))
    case Logout => s.(isAuthenticated := false, token := None, user := None, error := None)
    case SetUser(u) => s.(user := u)
    case UpdateProfileSuccess(changes) => s.(user := Some(MergeUser(s.user, changes)))
    case Unknown(_) => s
  }

  /** The storage writes `authReducer` makes: both tokens on a successful login (the
      refresh token only when one is given and non-empty), both removed on logout. */
  function StorageAfter(st: Storage, a: Action): (r: Storage)
    ensures forall k :: k != AccessKey && k != RefreshKey ==> Lookup(r, k) == Lookup(st, k)
    ensures !a.LoginSuccess? && !a.Logout? ==> r == st
    ensures a.LoginSuccess? ==> Lookup(r, AccessKey) == Some(a.access)
    ensures a.Logout? ==> AccessKey !in r && RefreshKey !in r
  {
    match a
    case LoginSuccess(access, refresh) =>
      if refresh.Some? && refresh.value != "" then st[AccessKey := access][RefreshKey := refresh.value]
      else st[AccessKey := access]
    case Logout => st - {AccessKey, RefreshKey}
    case _ => st
  }

  /** Who is signed in, with which token. */
  predicate SameSession(s: AuthState, t: AuthState) {
    s.user == t.user && s.token == t.token && s.isAuthenticated == t.isAuthenticated
  }

  /** LOGIN_START / REGISTER_START only raise the loading flag and clear the error. */
  lemma StartOnlyLoads(s: AuthState, st: Storage, a: Action)
    requires a.LoginStart? || a.RegisterStart?
    ensures var r := Reduce(s, a);
            SameSession(r, s) && r.isLoading && r.error == None
    ensures StorageAfter(st, a) == st
  {
  }

  /** LOGIN_SUCCESS signs in with the access token and stores it, and the refresh token
      exactly when the payload carries one. */
  lemma LoginSuccessStoresTokens(s: AuthState, st: Storage, access: string, refresh: Option<string>)
    ensures var r := Reduce(s, LoginSuccess(access, refresh));
            r.isAuthenticated && r.token == Some(access) && !r.isLoading && r.error == None && r.user == s.user
    ensures var st' := StorageAfter(st, LoginSuccess(access, refresh));
            && Lookup(st', AccessKey) == Some(access)
            && (refresh.Some? && refresh.value != "" ==> Lookup(st', RefreshKey) == refresh)
            && (!(refresh.Some? && refresh.value != "") ==> Lookup(st', RefreshKey) == Lookup(st, RefreshKey))
            && forall k :: k != AccessKey && k != RefreshKey ==> Lookup(st', k) == Lookup(st, k)
  {
  }

  /** REGISTER_SUCCESS does not sign anybody in. */
  lemma RegisterSuccessKeepsSession(s: AuthState, st: Storage)
    ensures var r := Reduce(s, RegisterSuccess);
            SameSession(r, s) && !r.isLoading && r.error == None
    ensures StorageAfter(st, RegisterSuccess) == st
  {
  }

  /** A failed login or registration signs out in memory and writes no token. */
  lemma FailureWritesNoToken(s: AuthState, st: Storage, a: Action)
    requires a.LoginFailure? || a.RegisterFailure?
    ensures var r := Reduce(s, a);
            !r.isAuthenticated && r.token == None && r.user == None && !r.isLoading
            && r.error == Some(a.message)
    ensures StorageAfter(st, a) == st
  {
  }

  /** LOGOUT removes both tokens and resets the session but leaves the loading flag. */
  lemma LogoutClearsTokens(s: AuthState, st: Storage)
    ensures var r := Reduce(s, Logout);
            !r.isAuthenticated && r.token == None && r.user == None && r.error == None
            && r.isLoading == s.isLoading
    ensures var st' := StorageAfter(st, Logout);
            AccessKey !in st' && RefreshKey !in st'
            && forall k :: k != AccessKey && k != RefreshKey ==> Lookup(st', k) == Lookup(st, k)
  {
  }

  /** SET_USER and UPDATE_PROFILE_SUCCESS change only the user; unknown actions change nothing. */
  lemma UserActionsOnlyTouchUser(s: AuthState, u: Option<User>, changes: User, kind: string)
    ensures Reduce(s, SetUser(u)) == s.(user := u)
    ensures Reduce(s, UpdateProfileSuccess(changes)).user == Some(MergeUser(s.user, changes))
    ensures Reduce(s, UpdateProfileSuccess(changes)) == s.(user := Reduce(s, UpdateProfileSuccess(changes)).user)
    ensures Reduce(s, Unknown(kind)) == s
  {
  }

  /** The in-memory token equals the stored one. */
  predicate TokenMirrorsStorage(s: AuthState, st: Storage) {
    s.token == Lookup(st, AccessKey)
  }

  /** Being signed in implies holding a token. */
  predicate SignedInHasToken(s: AuthState) {
    s.isAuthenticated ==> s.token.Some?
  }

  /** The initial state mirrors storage and is consistent. */
  lemma InitialStateConsistent(st: Storage)
    ensures TokenMirrorsStorage(InitialState(st), st)
    ensures SignedInHasToken(InitialState(st))
  {
  }

  /** Every action keeps "signed in implies a token". */
  lemma ReduceKeepsSignedInHasToken(s: AuthState, a: Action)
    requires SignedInHasToken(s)
    ensures SignedInHasToken(Reduce(s, a))
  {
  }

  /** Every action except a failure keeps the in-memory token equal to the stored one. */
  lemma ReduceKeepsMirror(s: AuthState, st: Storage, a: Action)
    requires TokenMirrorsStorage(s, st)
    requires !a.LoginFailure? && !a.RegisterFailure?
    ensures TokenMirrorsStorage(Reduce(s, a), StorageAfter(st, a))
  {
  }

  /** A failure while a token is stored drops it from memory but leaves it in storage,
      so the two disagree until the next logout or login. */
  lemma FailureLeavesStoredToken(s: AuthState, st: Storage, m: string)
    requires AccessKey in st
    ensures !TokenMirrorsStorage(Reduce(s, LoginFailure(m)), StorageAfter(st, LoginFailure(m)))
  {
  }

  /** `profileData.key || null`. */
  function OrNull(m: map<string, Json>, key: string): (v: Json)
    ensures key in m && Truthy(m[key]) ==> v == m[key]
    ensures !(key in m && Truthy(m[key])) ==> v == JNull
  {
    if key in m && Truthy(m[key]) then m[key] else JNull
  }

  /** The combined user `loadUser` dispatches: the user record with the picture, city and
      country of the profile record (null when missing or falsy). */
  function CombineUser(user: User, profile: map<string, Json>): (r: User)
    ensures r.Keys == user.Keys + {"profile_pic", "city", "country"}
    ensures r["profile_pic"] == OrNull(profile, "profile_picture")
    ensures r["city"] == OrNull(profile, "city") && r["country"] == OrNull(profile, "country")
    ensures forall k :: k in user && k !in {"profile_pic", "city", "country"} ==> r[k] == user[k]
  {
    user["profile_pic" := OrNull(profile, "profile_picture")]
        ["city" := OrNull(profile, "city")]
        ["country" := OrNull(profile, "country")]
  }

  /** `error.response?.data?.detail || fallback`. */
  function Detail(detail: Option<string>, fallback: string): (m: string)
    ensures detail.Some? && detail.value != "" ==> m == detail.value
    ensures !(detail.Some? && detail.value != "") ==> m == fallback
  {
    if detail.Some? && detail.value != "" then detail.value else fallback
  }

  /** The tokens a successful login returns. */
  datatype Tokens = Tokens(access: string, refresh: Option<string>)

  /** The auth provider: the reducer's state and the storage it writes. */
  class AuthProvider {
    var state: AuthState
    var storage: Storage

    /** The provider mounts with `initialState` read from storage. */
    constructor (st: Storage)
      ensures storage == st && state == InitialState(st)
    {
      storage := st;
      state := InitialState(st);
    }

    /** `dispatch(action)`. */
    method Dispatch(a: Action)
      modifies this
      ensures state == Reduce(old(state), a)
      ensures storage == StorageAfter(old(storage), a)
    {
      storage := StorageAfter(storage, a);
      state := Reduce(state, a);
    }

    /** `loadUser`: the user request, then the profile request (whose failure counts as an
        empty profile); a failed user request removes both tokens and logs out. */
    method LoadUser(userResponse: Result<User, string>, profileResponse: Result<map<string, Json>, string>)
      modifies this
      ensures userResponse.Ok? ==>
                var profile := if profileResponse.Ok? then profileResponse.value else map[];
                state == old(state).(user := Some(CombineUser(userResponse.value, profile)))
                && storage == old(storage)
      ensures userResponse.Err? ==>
                state == Reduce(old(state), Logout)
                && storage == old(storage) - {AccessKey, RefreshKey}
    {
      if userResponse.Ok? {
        var profile: map<string, Json> := map[];
        if profileResponse.Ok? {
          profile := profileResponse.value;
        }
        Dispatch(SetUser(Some(CombineUser(userResponse.value, profile))));
      } else {
        storage := storage - {AccessKey, RefreshKey};
        Dispatch(Logout);
      }
    }

    /** `login`: LOGIN_START, then LOGIN_SUCCESS with the tokens or LOGIN_FAILURE with the
        server's detail or 'Login failed'; the failure is rethrown. */
    method Login(response: Result<Tokens, Option<string>>) returns (r: Result<Tokens, string>)
      modifies this
      ensures response.Ok? ==> r == Ok(response.value)
      ensures response.Err? ==> r == Err(Detail(response.error, "Login failed"))
      ensures response.Ok? ==>
                state == Reduce(Reduce(old(state), LoginStart), LoginSuccess(response.value.access, response.value.refresh))
                && storage == StorageAfter(old(storage), LoginSuccess(response.value.access, response.value.refresh))
      ensures response.Err? ==>
                state == Reduce(Reduce(old(state), LoginStart), LoginFailure(r.error))
                && storage == old(storage)
    {
      Dispatch(LoginStart);
      if response.Ok? {
        Dispatch(LoginSuccess(response.value.access, response.value.refresh));
        r := Ok(response.value);
      } else {
        var message := Detail(response.error, "Login failed");
        Dispatch(LoginFailure(message));
        r := Err(message);
      }
    }

    /** `register`: REGISTER_START, then REGISTER_SUCCESS or REGISTER_FAILURE with the
        server's detail or 'Registration failed'; never signs in, never writes storage. */
    method Register<T>(response: Result<T, Option<string>>) returns (r: Result<T, string>)
      modifies this
      ensures response.Ok? ==> r == Ok(response.value)
      ensures response.Err? ==> r == Err(Detail(response.error, "Registration failed"))
      ensures storage == old(storage)
      ensures response.Ok? ==> state == Reduce(Reduce(old(state), RegisterStart), RegisterSuccess)
      ensures response.Err? ==> state == Reduce(Reduce(old(state), RegisterStart), RegisterFailure(r.error))
      ensures state.isAuthenticated ==> old(state).isAuthenticated
    {
      Dispatch(RegisterStart);
      if response.Ok? {
        Dispatch(RegisterSuccess);
        r := Ok(response.value);
      } else {
        var message := Detail(response.error, "Registration failed");
        Dispatch(RegisterFailure(message));
        r := Err(message);
      }
    }

    /** `logout`. */
    method SignOut()
      modifies this
      ensures state == Reduce(old(state), Logout)
      ensures storage == old(storage) - {AccessKey, RefreshKey}
    {
      Dispatch(Logout);
    }
  }
}
