// The frontend's session store: the signed-in user and both tokens (the part
// that is persisted), a loading flag and an error text, plus the two tokens
// it mirrors into browser storage for the HTTP client.
module AuthStore {
  import opened Wrappers
  import ApiClient
  import opened ResourceStore

  datatype User = User(id: string, email: string, name: string, createdAt: string, updatedAt: string)

  /** The `data` of a successful login answer. */
  datatype LoginData = LoginData(user: User, accessToken: string, refreshToken: string)

  /** What `partialize` writes to persistent storage. */
  datatype Persisted = Persisted(user: Option<User>, accessToken: Option<string>, refreshToken: Option<string>)

  class Session {
    var user: Option<User>
    var accessToken: Option<string>
    var refreshToken: Option<string>
    var loading: bool
    var error: Option<string>
    var storage: map<string, string>

    constructor (storage: map<string, string>)
      ensures user.None? && accessToken.None? && refreshToken.None? && !loading && error.None?
      ensures this.storage == storage
    {
      user := None;
      accessToken := None;
      refreshToken := None;
      loading := false;
      error := None;
      this.storage := storage;
    }

    /** Rehydration when the app loads: the persisted user and tokens, if any
        were stored under "auth-storage", are merged over the initial state;
        the loading flag, the error and the browser's token keys are kept. */
    method Rehydrate(stored: Option<Persisted>)
      modifies this
      ensures stored.Some? ==>
        user == stored.value.user && accessToken == stored.value.accessToken && refreshToken == stored.value.refreshToken
      ensures stored.None? ==> user == old(user) && accessToken == old(accessToken) && refreshToken == old(refreshToken)
      ensures loading == old(loading) && error == old(error) && storage == old(storage)
    {
      if stored.Some? {
        user := stored.value.user;
        accessToken := stored.value.accessToken;
        refreshToken := stored.value.refreshToken;
      }
    }

    /** `partialize`: only the user and the two tokens are persisted. */
    function Persist(): (p: Persisted)
      reads this
      ensures p.user == user && p.accessToken == accessToken && p.refreshToken == refreshToken
    {
      Persisted(user, accessToken, refreshToken)
    }

    /** Login's entry update. */
    method LoginBegin()
      modifies this
      ensures loading && error.None?
      ensures user == old(user) && accessToken == old(accessToken) && refreshToken == old(refreshToken)
      ensures storage == old(storage)
    {
      loading := true;
      error := None;
    }

    /** A successful login stores the user and both tokens (also in storage); a
        failure only records the message, and the error is rethrown. */
    method LoginDone(reply: Reply<LoginData>) returns (thrown: Option<ApiClient.ErrorValue>)
      modifies this
      ensures !loading
      ensures Delivered(reply) ==>
        var d := reply.data.value;
        user == Some(d.user) && accessToken == Some(d.accessToken) && refreshToken == Some(d.refreshToken)
        && error.None? && thrown.None?
        && storage == old(storage)[ApiClient.AccessKey := d.accessToken][ApiClient.RefreshKey := d.refreshToken]
      ensures !Delivered(reply) ==>
        user == old(user) && accessToken == old(accessToken) && refreshToken == old(refreshToken)
        && storage == old(storage)
        && thrown == Some(Thrown(reply, "Login failed")) && error == Some(FailureText(reply, "Login failed"))
    {
      if Delivered(reply) {
        var d := reply.data.value;
        storage := storage[ApiClient.AccessKey := d.accessToken][ApiClient.RefreshKey := d.refreshToken];
        user, accessToken, refreshToken := Some(d.user), Some(d.accessToken), Some(d.refreshToken);
        loading, error := false, None;
        return None;
      }
      var e := Thrown(reply, "Login failed");
      loading, error := false, Some(ApiClient.GetErrorMessage(e));
      return Some(e);
    }

    /** Logout's first part: the server is asked to revoke the refresh token
        only when one is held; nothing changes until that call settles. */
    method LogoutStart() returns (revoke: Option<string>)
      ensures ApiClient.Truthy(refreshToken) ==> revoke == refreshToken
      ensures !ApiClient.Truthy(refreshToken) ==> revoke.None?
    {
      if ApiClient.Truthy(refreshToken) {
        return refreshToken;
      }
      return None;
    }

    /** Logout's `finally`: whatever the server said, the session and the three
        storage keys are cleared. */
    method LogoutFinish()
      modifies this
      ensures user.None? && accessToken.None? && refreshToken.None? && !loading && error.None?
      ensures storage == old(storage) - {ApiClient.AccessKey, ApiClient.RefreshKey, ApiClient.UserKey}
    {
      storage := storage - {ApiClient.AccessKey, ApiClient.RefreshKey, ApiClient.UserKey};
      user, accessToken, refreshToken := None, None, None;
      loading, error := false, None;
    }

    /** Without a refresh token there is nothing to send: the call throws at
        once and the store is untouched. */
    method RefreshWithoutToken() returns (thrown: ApiClient.ErrorValue)
      requires !ApiClient.Truthy(refreshToken)
      ensures thrown == ApiClient.PlainError("No refresh token available")
    {
      return ApiClient.PlainError("No refresh token available");
    }

    /** The refresh call has settled. Success replaces only the access token (in
        the store and in storage). Failure starts a logout that is not awaited,
        so the session is still in place when the error is rethrown; `revoke` is
        the token that logout sends. An answer without a token is reported as
        "Token refresh failed", whatever message the server gave. */
    method RefreshDone(reply: Reply<string>)
      returns (thrown: Option<ApiClient.ErrorValue>, revoke: Option<string>)
      requires ApiClient.Truthy(refreshToken)
      modifies this
      ensures user == old(user) && refreshToken == old(refreshToken)
      ensures loading == old(loading) && error == old(error)
      ensures Delivered(reply) ==>
        accessToken == reply.data && storage == old(storage)[ApiClient.AccessKey := reply.data.value]
        && thrown.None? && revoke.None?
      ensures !Delivered(reply) ==>
        accessToken == old(accessToken) && storage == old(storage)
        && thrown == Some(if reply.Threw? then reply.thrown else ApiClient.PlainError("Token refresh failed"))
        && revoke == old(refreshToken)
    {
      if Delivered(reply) {
        storage := storage[ApiClient.AccessKey := reply.data.value];
        accessToken := reply.data;
        return None, None;
      }
      revoke := LogoutStart();
      var e := if reply.Threw? then reply.thrown else ApiClient.PlainError("Token refresh failed");
      return Some(e), revoke;
    }

    method ClearError()
      modifies this
      ensures error.None?
      ensures user == old(user) && accessToken == old(accessToken) && refreshToken == old(refreshToken)
      ensures loading == old(loading) && storage == old(storage)
    {
      error := None;
    }
  }

  /** Signing in and out again: the persisted part goes from the login data back
      to empty, the refresh token is sent for revocation, and the storage keys
      the login wrote are gone. */
  method LoginThenLogout(d: LoginData)
    returns (signedIn: Persisted, revoke: Option<string>, signedOut: Persisted, left: map<string, string>)
    requires d.refreshToken != ""
    ensures signedIn == Persisted(Some(d.user), Some(d.accessToken), Some(d.refreshToken))
    ensures revoke == Some(d.refreshToken)
    ensures signedOut == Persisted(None, None, None) && left == map[]
  {
    var s := new Session(map[]);
    s.LoginBegin();
    var thrown := s.LoginDone(Responded(true, None, Some(d)));
    signedIn := s.Persist();
    revoke := s.LogoutStart();
    s.LogoutFinish();
    signedOut := s.Persist();
    left := s.storage;
  }

  /** A reload after signing in: the new page's store starts signed out and
      rehydrates the persisted user and tokens, so the session survives and
      the next refresh uses the same refresh token. */
  method ReloadKeepsSession(d: LoginData)
    returns (user: Option<User>, accessToken: Option<string>, refreshToken: Option<string>)
    ensures user == Some(d.user) && accessToken == Some(d.accessToken) && refreshToken == Some(d.refreshToken)
  {
    var before := new Session(map[]);
    before.LoginBegin();
    var thrown := before.LoginDone(Responded(true, None, Some(d)));
    var saved := before.Persist();
    var after := new Session(before.storage);
    after.Rehydrate(Some(saved));
    user, accessToken, refreshToken := after.user, after.accessToken, after.refreshToken;
  }
}
