// The backend authentication service: one-time admin setup, login with
// per-email rate limiting, refresh-token exchange and logout. The user table,
// the login-attempt log and the refresh-token table are fields; password
// hashing and checking, token generation and validation, generated ids and the
// clock are parameters.
module AuthService {
  import opened Wrappers
  import opened BackendErrors
  import Seqs

  datatype User = User(id: string, email: string, passwordHash: string, name: string, createdAt: int, updatedAt: int)
  datatype Attempt = Attempt(email: string, at: int)
  datatype StoredToken = StoredToken(id: string, userId: string, token: string, expiresAt: int, createdAt: int)
  datatype Session = Session(user: User, accessToken: string, refreshToken: string)

  /** The attempts logged for `email` strictly after `since`. */
  function RecentAttempts(attempts: seq<Attempt>, email: string, since: int): (n: nat)
    ensures n <= |attempts|
    ensures n == 0 <==> forall k :: 0 <= k < |attempts| ==> !(attempts[k].email == email && attempts[k].at > since)
  {
    if attempts == [] then 0
    else (if attempts[0].email == email && attempts[0].at > since then 1 else 0)
         + RecentAttempts(attempts[1..], email, since)
  }

  lemma {:induction false} RecentAttemptsAppend(attempts: seq<Attempt>, a: Attempt, email: string, since: int)
    ensures RecentAttempts(attempts + [a], email, since)
         == RecentAttempts(attempts, email, since) + (if a.email == email && a.at > since then 1 else 0)
    decreases |attempts|
  {
    if attempts == [] {
      assert [] + [a] == [a];
    } else {
      assert (attempts + [a])[1..] == attempts[1..] + [a];
      RecentAttemptsAppend(attempts[1..], a, email, since);
    }
  }

  /** The attempt log after clearing one email's attempts. */
  function WithoutEmail(attempts: seq<Attempt>, email: string): (r: seq<Attempt>)
    ensures forall k :: 0 <= k < |r| ==> r[k].email != email && r[k] in attempts
    ensures forall k :: 0 <= k < |attempts| && attempts[k].email != email ==> attempts[k] in r
  {
    Seqs.Filter(attempts, (a: Attempt) => a.email != email)
  }

  function UserByEmail(users: seq<User>, email: string): Option<User>
  {
    Seqs.Find(users, (u: User) => u.email == email)
  }

  function UserById(users: seq<User>, id: string): Option<User>
  {
    Seqs.Find(users, (u: User) => u.id == id)
  }

  /** The repository's refresh-token lookup only returns rows that have not
      expired at the time of the query. */
  function LiveToken(tokens: map<string, StoredToken>, token: string, at: int): (r: Option<StoredToken>)
    ensures r.Some? <==> token in tokens && tokens[token].expiresAt > at
    ensures r.Some? ==> r.value == tokens[token]
  {
    if token in tokens && tokens[token].expiresAt > at then Some(tokens[token]) else None
  }

  class Service {
    const loginLimit: int
    const loginWindow: int
    const refreshExpiry: int
    var users: seq<User>
    var attempts: seq<Attempt>
    var tokens: map<string, StoredToken>

    constructor (loginLimit: int, loginWindow: int, refreshExpiry: int, users: seq<User>)
      ensures this.loginLimit == loginLimit && this.loginWindow == loginWindow && this.refreshExpiry == refreshExpiry
      ensures this.users == users && attempts == [] && tokens == map[]
    {
      this.loginLimit := loginLimit;
      this.loginWindow := loginWindow;
      this.refreshExpiry := refreshExpiry;
      this.users := users;
      attempts := [];
      tokens := map[];
    }

    /** Creates the first admin. Any existing user refuses the call before the
        request is even validated. The returned user carries no password hash. */
    method Setup(email: string, hashedPassword: string, name: string, requestValid: bool, newId: string, now: int)
      returns (r: Result<User, ServiceError>)
      modifies this
      ensures |old(users)| > 0 ==> r == Err(AdminExists)
      ensures |old(users)| == 0 && !requestValid ==> r == Err(InvalidInput)
      ensures |old(users)| == 0 && requestValid ==>
        users == [User(newId, email, hashedPassword, name, now, now)]
        && r == Ok(User(newId, email, "", name, now, now))
      ensures r.Err? ==> users == old(users)
      ensures attempts == old(attempts) && tokens == old(tokens)
    {
      if |users| > 0 {
        return Err(AdminExists);
      }
      if !requestValid {
        return Err(InvalidInput);
      }
      var user := User(newId, email, hashedPassword, name, now, now);
      users := users + [user];
      return Ok(user.(passwordHash := ""));
    }

    /** Logs in: validation, rate check, attempt recorded, user lookup, password
        check, attempts cleared, refresh token stored, in that order. */
    method Login(email: string, password: string, requestValid: bool, verify: (string, string) -> bool,
                 now: int, accessToken: string, refreshToken: string, tokenId: string)
      returns (r: Result<Session, ServiceError>)
      modifies this
      ensures users == old(users)
      ensures !requestValid ==> r == Err(InvalidInput) && attempts == old(attempts) && tokens == old(tokens)
      ensures requestValid && RecentAttempts(old(attempts), email, now - loginWindow) >= loginLimit ==>
        r == Err(TooManyRequests) && attempts == old(attempts) && tokens == old(tokens)
      ensures requestValid && RecentAttempts(old(attempts), email, now - loginWindow) < loginLimit ==>
        var u := UserByEmail(users, email);
        if u.None? || !verify(u.value.passwordHash, password) then
          r == Err(InvalidCredentials) && attempts == old(attempts) + [Attempt(email, now)] && tokens == old(tokens)
        else
          r == Ok(Session(u.value.(passwordHash := ""), accessToken, refreshToken))
          && attempts == WithoutEmail(old(attempts) + [Attempt(email, now)], email)
          && tokens == old(tokens)[refreshToken := StoredToken(tokenId, u.value.id, refreshToken, now + refreshExpiry, now)]
    {
      if !requestValid {
        return Err(InvalidInput);
      }
      var since := now - loginWindow;
      var count := RecentAttempts(attempts, email, since);
      if count >= loginLimit {
        return Err(TooManyRequests);
      }
      attempts := attempts + [Attempt(email, now)];
      var found := UserByEmail(users, email);
      if found.None? {
        return Err(InvalidCredentials);
      }
      var user := found.value;
      if !verify(user.passwordHash, password) {
        return Err(InvalidCredentials);
      }
      attempts := WithoutEmail(attempts, email);
      tokens := tokens[refreshToken := StoredToken(tokenId, user.id, refreshToken, now + refreshExpiry, now)];
      return Ok(Session(user.(passwordHash := ""), accessToken, refreshToken));
    }

    /** Exchanges a refresh token for a new access token. `claims` is the user id
        the token's signature check yields (None when the check fails); the
        repository reads the clock at `queryTime`, the service later at `checkTime`. */
    method RefreshToken(token: string, claims: Option<string>, queryTime: int, checkTime: int, newAccess: string)
      returns (r: Result<string, ServiceError>)
      requires queryTime <= checkTime
      ensures claims.None? ==> r == Err(InvalidToken)
      ensures claims.Some? && LiveToken(tokens, token, queryTime).None? ==> r == Err(InvalidToken)
      ensures r == Err(TokenExpired) ==> token in tokens && queryTime < tokens[token].expiresAt < checkTime
      ensures claims.Some? && LiveToken(tokens, token, queryTime).Some? && tokens[token].expiresAt >= checkTime ==>
        r == (if UserById(users, claims.value).None? then Err(NotFound) else Ok(newAccess))
    {
      if claims.None? {
        return Err(InvalidToken);
      }
      var stored := LiveToken(tokens, token, queryTime);
      if stored.None? {
        return Err(InvalidToken);
      }
      if stored.value.expiresAt < checkTime {
        return Err(TokenExpired);
      }
      var user := UserById(users, claims.value);
      if user.None? {
        return Err(NotFound);
      }
      return Ok(newAccess);
    }

    /** Deletes the rows of exactly this refresh token; a missing token is no error. */
    method Logout(token: string) returns (err: Option<ServiceError>)
      modifies this
      ensures err.None?
      ensures tokens == old(tokens) - {token}
      ensures users == old(users) && attempts == old(attempts)
    {
      tokens := tokens - {token};
      return None;
    }
  }

  /** After `loginLimit` wrong passwords inside the window, even the right password
      is refused: every attempt is logged before the password is checked. */
  method LockoutAfterFailures(admin: User, wrong: string, right: string, verify: (string, string) -> bool,
                              limit: nat, window: int, now: int)
    returns (final: Result<Session, ServiceError>)
    requires window > 0
    requires !verify(admin.passwordHash, wrong) && verify(admin.passwordHash, right)
    ensures final == Err(TooManyRequests)
  {
    var s := new Service(limit, window, 0, [admin]);
    var i := 0;
    while i < limit
      invariant 0 <= i <= limit
      invariant s.loginLimit == limit && s.loginWindow == window && s.users == [admin]
      invariant RecentAttempts(s.attempts, admin.email, now - window) == i
      modifies s
    {
      var before := s.attempts;
      assert UserByEmail(s.users, admin.email) == Some(admin);
      var r := s.Login(admin.email, wrong, true, verify, now, "", "", "");
      RecentAttemptsAppend(before, Attempt(admin.email, now), admin.email, now - window);
      i := i + 1;
    }
    final := s.Login(admin.email, right, true, verify, now, "", "", "");
  }
}
