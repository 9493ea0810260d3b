/**
 * The authentication context (`AuthProvider`): the token and user held in memory and mirrored
 * in browser storage under 'gh_token' and 'gh_user', and the handlers that change them.
 */
module AuthContextModel {
  import opened Common
  import opened Records

  /** A value in browser storage: the token string, or the user serialised as JSON. */
  datatype Stored = TokenValue(token: Option<string>) | UserValue(user: Option<User>)

  type Storage = map<string, Stored>

  const TokenKey := "gh_token"
  const UserKey := "gh_user"

  /** `localStorage.getItem('gh_token')` */
  function StoredToken(st: Storage): Option<string>
  {
    if TokenKey in st && st[TokenKey].TokenValue? then st[TokenKey].token else None
  }

  /** `raw ? JSON.parse(raw) : null` on `localStorage.getItem('gh_user')` */
  function StoredUser(st: Storage): Option<User>
  {
    if UserKey in st && st[UserKey].UserValue? then st[UserKey].user else None
  }

  /** `api.login` resolves to `{ token, access }`. */
  datatype LoginResponse = LoginResponse(token: Option<string>, access: Option<string>)

  /** `api.register` resolves to `{ token, access, user }`. */
  datatype RegisterResponse = RegisterResponse(token: Option<string>, access: Option<string>, user: Option<User>)

  /** What `login` returns: `{ token: access, user: profile }`. */
  datatype LoggedIn = LoggedIn(token: Option<string>, user: User)

  class AuthState {
    var token: Option<string>
    var user: Option<User>
    var loading: bool
    var storage: Storage

    /** Memory and storage agree: what a reload would read back is what is held. */
    predicate Synced()
      reads this
    {
      StoredToken(storage) == token && StoredUser(storage) == user
    }

    /** The lazy `useState` initialisers read both keys from storage. */
    constructor (st: Storage)
      ensures token == StoredToken(st) && user == StoredUser(st) && !loading && storage == st
      ensures Synced()
    {
      token, user, loading, storage := StoredToken(st), StoredUser(st), false, st;
    }

    /** `logout`: both held values become null and both keys are removed; other keys stay. */
    method Logout()
      modifies this
      ensures token == None && user == None
      ensures storage == old(storage) - {TokenKey, UserKey}
      ensures loading == old(loading)
      ensures Synced()
    {
      token, user := None, None;
      storage := storage - {TokenKey, UserKey};
    }

    /**
     * The mount effect: the profile is fetched only with a truthy token and no user; it becomes
     * the user and is stored, and a failed fetch logs out.
     */
    method Mount(profile: ApiResult<User>) returns (fetched: bool)
      modifies this
      ensures fetched <==> Truthy(old(token)) && old(user) == None
      ensures !fetched ==> token == old(token) && user == old(user) && storage == old(storage)
      ensures fetched && profile.Ok? ==>
                token == old(token) && user == Some(profile.value)
                && storage == old(storage)[UserKey := UserValue(Some(profile.value))]
      ensures fetched && profile.Fail? ==>
                token == None && user == None && storage == old(storage) - {TokenKey, UserKey}
      ensures loading == old(loading)
      ensures old(Synced()) ==> Synced()
    {
      fetched := Truthy(token) && user == None;
      if !fetched {
        return;
      }
      match profile {
        case Ok(u) =>
          user := Some(u);
          storage := storage[UserKey := UserValue(Some(u))];
        case Fail(_) =>
          Logout();
      }
    }

    /**
     * `login(email, password)`: the token `res.token || res.access` is held and stored before the
     * profile is fetched; the profile then becomes the user. `finally` ends loading either way.
     */
    method Login(res: ApiResult<LoginResponse>, profile: ApiResult<User>) returns (result: ApiResult<LoggedIn>)
      modifies this
      ensures res.Fail? ==> result == Fail(res.error) && token == old(token) && user == old(user) && storage == old(storage)
      ensures res.Ok? ==>
                var access := Or(res.value.token, res.value.access);
                && token == access
                && (profile.Ok? ==>
                      && user == Some(profile.value)
                      && storage == old(storage)[TokenKey := TokenValue(access)][UserKey := UserValue(Some(profile.value))]
                      && result == Ok(LoggedIn(access, profile.value)))
                && (profile.Fail? ==>
                      && user == old(user)
                      && storage == old(storage)[TokenKey := TokenValue(access)]
                      && result == Fail(profile.error))
      ensures !loading
      ensures old(Synced()) ==> Synced()
    {
      loading := true;
      if res.Fail? {
        loading := false;
        return Fail(res.error);
      }
      var access := Or(res.value.token, res.value.access);
      token := access;
      storage := storage[TokenKey := TokenValue(access)];
      if profile.Fail? {
        loading := false;
        return Fail(profile.error);
      }
      user := Some(profile.value);
      storage := storage[UserKey := UserValue(Some(profile.value))];
      result := Ok(LoggedIn(access, profile.value));
      loading := false;
    }

    /** `register(payload)`: token and user come from the one response, and both keys are written. */
    method Register(res: ApiResult<RegisterResponse>) returns (result: ApiResult<RegisterResponse>)
      modifies this
      ensures result == res
      ensures res.Fail? ==> token == old(token) && user == old(user) && storage == old(storage)
      ensures res.Ok? ==>
                var access := Or(res.value.token, res.value.access);
                && token == access && user == res.value.user
                && storage == old(storage)[TokenKey := TokenValue(access)][UserKey := UserValue(res.value.user)]
      ensures !loading
      ensures old(Synced()) ==> Synced()
    {
      loading := true;
      result := res;
      if res.Ok? {
        var access := Or(res.value.token, res.value.access);
        token := access;
        user := res.value.user;
        storage := storage[TokenKey := TokenValue(access)];
        storage := storage[UserKey := UserValue(res.value.user)];
      }
      loading := false;
    }
  }

  /** After a logout nothing is left to restore: a fresh provider over the same storage starts signed out. */
  lemma LogoutLeavesNothingToRestore(st: Storage)
    ensures StoredToken(st - {TokenKey, UserKey}) == None
    ensures StoredUser(st - {TokenKey, UserKey}) == None
  {
  }

  /** A token read back from storage is the token stored, and storing it leaves the user untouched. */
  lemma TokenRoundTrip(st: Storage, t: Option<string>)
    ensures StoredToken(st[TokenKey := TokenValue(t)]) == t
    ensures StoredUser(st[TokenKey := TokenValue(t)]) == StoredUser(st)
  {
  }
}
