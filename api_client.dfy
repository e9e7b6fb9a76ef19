// The frontend's HTTP client: the request interceptor that attaches the stored
// access token, the response interceptor that refreshes the token once on a 401
// and queues the other failed requests meanwhile, and the error-message helper.
// Promises are not modelled: each interceptor run is a method call, and the
// completion of the refresh call is a second call that receives its outcome.
module ApiClient {
  import opened Wrappers

  // ------------------------------------------------------ error messages

  /** The `data` of an API response: both fields may be absent. */
  datatype ApiBody = ApiBody(error: Option<string>, message: Option<string>)

  /** A thrown value: an axios error (with or without a response body), an
      ordinary `Error`, or anything else. */
  datatype ErrorValue =
    | AxiosError(data: Option<ApiBody>, message: string)
    | PlainError(message: string)
    | NonError

  /** JavaScript truthiness of an optional string: absent and "" are falsy. */
  predicate Truthy(o: Option<string>)
  {
    o.Some? && o.value != ""
  }

  function BodyError(data: Option<ApiBody>): Option<string>
  {
    if data.Some? then data.value.error else None
  }

  function BodyMessage(data: Option<ApiBody>): Option<string>
  {
    if data.Some? then data.value.message else None
  }

  /** `getErrorMessage`: the response's error, else its message, else the
      transport message, else a fixed text; an `Error` gives its message and any
      other value a second fixed text. */
  function GetErrorMessage(e: ErrorValue): (r: string)
    ensures e.AxiosError? ==> r != ""
    ensures e.AxiosError? && Truthy(BodyError(e.data)) ==> r == BodyError(e.data).value
    ensures e.AxiosError? && !Truthy(BodyError(e.data)) && Truthy(BodyMessage(e.data)) ==>
      r == BodyMessage(e.data).value
    ensures e.AxiosError? && !Truthy(BodyError(e.data)) && !Truthy(BodyMessage(e.data)) ==>
      r == (if e.message != "" then e.message else "An error occurred")
    ensures e.PlainError? ==> r == e.message
    ensures e.NonError? ==> r == "An unknown error occurred"
  {
    match e
    case AxiosError(data, message) =>
      if Truthy(BodyError(data)) then BodyError(data).value
      else if Truthy(BodyMessage(data)) then BodyMessage(data).value
      else if message != "" then message
      else "An error occurred"
    case PlainError(message) => message
    case NonError => "An unknown error occurred"
  }

  /** A server-supplied `error` text always wins over every other candidate. */
  lemma ServerErrorWins(msg: string, other: Option<string>, transport: string)
    requires msg != ""
    ensures GetErrorMessage(AxiosError(Some(ApiBody(Some(msg), other)), transport)) == msg
  {
  }

  /** An empty `error` text is skipped like an absent one. */
  lemma EmptyErrorSkipped(message: string, transport: string)
    requires message != ""
    ensures GetErrorMessage(AxiosError(Some(ApiBody(Some(""), Some(message))), transport)) == message
    ensures GetErrorMessage(AxiosError(Some(ApiBody(None, Some(message))), transport)) == message
  {
  }

  // ------------------------------------------------------------- requests

  const AccessKey := "access_token"
  const RefreshKey := "refresh_token"
  const UserKey := "user"
  const AuthHeader := "Authorization"

  /** A request as the interceptors see it: an identity, the `_retry` mark and
      the headers. */
  datatype Request = Request(id: nat, retry: bool, headers: map<string, string>)

  function WithBearer(req: Request, token: string): (r: Request)
    ensures r.id == req.id && r.retry == req.retry
    ensures AuthHeader in r.headers && r.headers[AuthHeader] == "Bearer " + token
    ensures forall h :: h in req.headers && h != AuthHeader ==> h in r.headers && r.headers[h] == req.headers[h]
  {
    req.(headers := req.headers[AuthHeader := "Bearer " + token])
  }

  function Lookup(storage: map<string, string>, key: string): Option<string>
  {
    if key in storage then Some(storage[key]) else None
  }

  /** The request interceptor: the header is set exactly when a non-empty access
      token is stored, and the request is otherwise passed on untouched. */
  function Intercept(storage: map<string, string>, req: Request): (r: Request)
    ensures r.id == req.id && r.retry == req.retry
    ensures Truthy(Lookup(storage, AccessKey)) ==> r == WithBearer(req, storage[AccessKey])
    ensures !Truthy(Lookup(storage, AccessKey)) ==> r == req
  {
    var token := Lookup(storage, AccessKey);
    if Truthy(token) then WithBearer(req, token.value) else req
  }

  /** The header the interceptor sends carries the stored token itself. */
  lemma InterceptCarriesToken(storage: map<string, string>, req: Request)
    requires AccessKey in storage && storage[AccessKey] != ""
    ensures AuthHeader in Intercept(storage, req).headers
    ensures Intercept(storage, req).headers[AuthHeader] == "Bearer " + storage[AccessKey]
  {
  }

  /** Without a stored token no header is added. */
  lemma InterceptWithoutToken(storage: map<string, string>, req: Request)
    requires AccessKey !in storage || storage[AccessKey] == ""
    requires AuthHeader !in req.headers
    ensures AuthHeader !in Intercept(storage, req).headers
  {
  }

  // --------------------------------------------------- the refresh protocol

  /** What became of one queued request when the queue was processed. */
  datatype Settlement = Resolved(retried: Request) | Rejected(request: Request, reason: string)

  /** `processQueue(error, token)` for one waiter: a resolved waiter retries its
      own request with the new token and WITHOUT setting `_retry`. */
  function SettleOne(req: Request, outcome: Result<string, string>): Settlement
  {
    match outcome
    case Ok(token) => Resolved(WithBearer(req, token))
    case Err(reason) => Rejected(req, reason)
  }

  function Settle(queue: seq<Request>, outcome: Result<string, string>): (r: seq<Settlement>)
    ensures |r| == |queue|
  {
    seq(|queue|, k requires 0 <= k < |queue| => SettleOne(queue[k], outcome))
  }

  /** Waiters are settled first in, first out, each with its own request, all the
      same way; their retries carry whatever `_retry` mark they were queued with. */
  lemma SettleInOrder(queue: seq<Request>, outcome: Result<string, string>, k: nat)
    requires k < |queue|
    ensures outcome.Ok? ==>
      && Settle(queue, outcome)[k].Resolved?
      && Settle(queue, outcome)[k].retried == WithBearer(queue[k], outcome.value)
      && Settle(queue, outcome)[k].retried.retry == queue[k].retry
    ensures outcome.Err? ==> Settle(queue, outcome)[k] == Rejected(queue[k], outcome.error)
  {
  }

  /** The refresh endpoint's answer: a response (success flag and the optional
      `data.access_token`) or a thrown transport error. */
  datatype RefreshOutcome = Answered(success: bool, accessToken: Option<string>) | Threw(message: string)

  /** What the response interceptor does with a failed request. */
  datatype Verdict =
    | PassOn            // the error is rejected to the caller as it is
    | Enqueued          // the request waits for the refresh already in flight
    | Refreshing(original: Request, refreshToken: string)
                        // a refresh call starts; `original` is now marked
    | LoggedOut         // no refresh token: storage cleared, error rejected

  /** The module-level flag and queue and the browser storage they act on. */
  class Client {
    var storage: map<string, string>
    var isRefreshing: bool
    var queue: seq<Request>
    var redirectedToLogin: bool

    /** Every waiter was queued unmarked, and only while a refresh was in flight. */
    predicate Valid()
      reads this
    {
      (forall k :: 0 <= k < |queue| ==> !queue[k].retry)
      && (queue != [] ==> isRefreshing)
    }

    constructor (storage: map<string, string>)
      ensures Valid()
      ensures this.storage == storage && !isRefreshing && queue == [] && !redirectedToLogin
    {
      this.storage := storage;
      isRefreshing := false;
      queue := [];
      redirectedToLogin := false;
    }

    /** The response interceptor's error handler, up to the refresh request. */
    method OnError(req: Request, status: int) returns (v: Verdict)
      requires Valid()
      modifies this
      ensures Valid()
      ensures redirectedToLogin == old(redirectedToLogin)
      ensures status != 401 || req.retry ==>
        v == PassOn && storage == old(storage) && isRefreshing == old(isRefreshing) && queue == old(queue)
      ensures status == 401 && !req.retry && old(isRefreshing) ==>
        v == Enqueued && queue == old(queue) + [req] && isRefreshing && storage == old(storage)
      ensures status == 401 && !req.retry && !old(isRefreshing) && !Truthy(Lookup(old(storage), RefreshKey)) ==>
        v == LoggedOut && isRefreshing && queue == old(queue)
        && storage == old(storage) - {AccessKey, RefreshKey, UserKey}
      ensures status == 401 && !req.retry && !old(isRefreshing) && Truthy(Lookup(old(storage), RefreshKey)) ==>
        v == Refreshing(req.(retry := true), old(storage)[RefreshKey])
        && isRefreshing && queue == old(queue) && storage == old(storage)
    {
      if status != 401 || req.retry {
        return PassOn;
      }
      if isRefreshing {
        queue := queue + [req];
        return Enqueued;
      }
      var original := req.(retry := true);
      isRefreshing := true;
      var refreshToken := Lookup(storage, RefreshKey);
      if !Truthy(refreshToken) {
        storage := storage - {AccessKey, RefreshKey, UserKey};
        return LoggedOut;
      }
      return Refreshing(original, refreshToken.value);
    }

    /** `processQueue`: settles every waiter in order and empties the queue. */
    method ProcessQueue(outcome: Result<string, string>) returns (settled: seq<Settlement>)
      modifies this
      ensures settled == Settle(old(queue), outcome)
      ensures queue == []
      ensures storage == old(storage) && isRefreshing == old(isRefreshing)
      ensures redirectedToLogin == old(redirectedToLogin)
    {
      settled := [];
      var k := 0;
      while k < |queue|
        invariant 0 <= k <= |queue|
        invariant settled == Settle(queue[..k], outcome)
      {
        assert Settle(queue[..k + 1], outcome) == settled + [SettleOne(queue[k], outcome)];
        settled := settled + [SettleOne(queue[k], outcome)];
        k := k + 1;
      }
      assert queue[..k] == queue;
      queue := [];
    }

    /** The refresh call has finished. On a successful answer carrying a token the
        token is stored, the waiters are resumed with it and the original request
        is retried once; on anything else the waiters are rejected, the session
        is removed from storage and the browser is sent to the login page. */
    method RefreshFinished(original: Request, outcome: RefreshOutcome)
      returns (settled: seq<Settlement>, retry: Option<Request>, failure: Option<string>)
      requires Valid()
      modifies this
      ensures Valid()
      ensures queue == [] && !isRefreshing
      ensures outcome.Answered? && outcome.success && outcome.accessToken.Some? ==>
        var token := outcome.accessToken.value;
        storage == old(storage)[AccessKey := token]
        && settled == Settle(old(queue), Ok(token))
        && retry == Some(WithBearer(original, token)) && failure.None?
        && redirectedToLogin == old(redirectedToLogin)
      ensures !(outcome.Answered? && outcome.success && outcome.accessToken.Some?) ==>
        var reason := if outcome.Threw? then outcome.message else "Token refresh failed";
        storage == old(storage) - {AccessKey, RefreshKey, UserKey}
        && settled == Settle(old(queue), Err(reason))
        && retry.None? && failure == Some(reason) && redirectedToLogin
    {
      if outcome.Answered? && outcome.success && outcome.accessToken.Some? {
        var token := outcome.accessToken.value;
        storage := storage[AccessKey := token];
        var retried := WithBearer(original, token);
        settled := ProcessQueue(Ok(token));
        isRefreshing := false;
        return settled, Some(retried), None;
      }
      var reason := if outcome.Threw? then outcome.message else "Token refresh failed";
      settled := ProcessQueue(Err(reason));
      isRefreshing := false;
      storage := storage - {AccessKey, RefreshKey, UserKey};
      redirectedToLogin := true;
      return settled, None, Some(reason);
    }
  }

  /** Two requests fail with 401 while a refresh token is stored: only the first
      starts a refresh, the second waits; when the refresh succeeds the second is
      retried with the new token but unmarked, the first once and marked. */
  method TwoUnauthorized(refreshToken: string, newToken: string) returns (
      first: Verdict, second: Verdict, settled: seq<Settlement>, retry: Option<Request>)
    requires refreshToken != ""
    ensures first == Refreshing(Request(1, true, map[]), refreshToken)
    ensures second == Enqueued
    ensures settled == [Resolved(Request(2, false, map[AuthHeader := "Bearer " + newToken]))]
    ensures retry == Some(Request(1, true, map[AuthHeader := "Bearer " + newToken]))
  {
    var c := new Client(map[RefreshKey := refreshToken]);
    first := c.OnError(Request(1, false, map[]), 401);
    second := c.OnError(Request(2, false, map[]), 401);
    var failure;
    settled, retry, failure := c.RefreshFinished(first.original, Answered(true, Some(newToken)));
  }

  /** Without a refresh token the flag is never cleared: every later 401 waits in
      the queue, and nothing will ever settle it. */
  method StuckWithoutRefreshToken() returns (first: Verdict, later: Verdict, stuck: bool, waiting: nat)
    ensures first == LoggedOut && later == Enqueued
    ensures stuck && waiting == 1
  {
    var c := new Client(map[AccessKey := "expired"]);
    first := c.OnError(Request(1, false, map[]), 401);
    later := c.OnError(Request(2, false, map[]), 401);
    stuck := c.isRefreshing;
    waiting := |c.queue|;
  }

  /** A request already retried once that fails with 401 again is rejected, with
      no second refresh. */
  method RetriedIsRejected(refreshToken: string) returns (again: Verdict, refreshing: bool)
    requires refreshToken != ""
    ensures again == PassOn && !refreshing
  {
    var c := new Client(map[RefreshKey := refreshToken]);
    var first := c.OnError(Request(1, false, map[]), 401);
    var settled, retry, failure := c.RefreshFinished(first.original, Answered(true, Some("fresh")));
    again := c.OnError(retry.value, 401);
    refreshing := c.isRefreshing;
  }
}
