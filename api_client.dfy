/** The API client's two interceptors (frontend/src/utils/api.ts:11-51).
    The request interceptor puts the current access token on every request;
    the response interceptor answers a first 401 by marking the request,
    refreshing the tokens once and sending the request again through the
    same client. The server is an input: the reply to the n-th request of a
    call, given the headers it carries. */
module ApiClient {
  import opened Common
  import opened Tokens

  type Headers = map<string, string>

  datatype Response = Response(status: int, body: string)

  /** A 2xx response, an error status, or no response at all. */
  datatype HttpReply = Ok(response: Response) | HttpError(status: int) | NoResponse

  /** The reply to the n-th request sent during one call (n counts from 0). */
  type Server = (nat, Headers) -> HttpReply

  datatype ApiFailure =
    | HttpFailure(status: int)
    | TransportFailure
    | RefreshFailure(cause: RefreshError)

  datatype ApiResult = Done(response: Response) | Failed(failure: ApiFailure)

  /** The rejection an unsuccessful reply turns into. */
  function FailureOf(reply: HttpReply): ApiFailure
  {
    if reply.HttpError? then HttpFailure(reply.status) else TransportFailure
  }

  predicate IsUnauthorized(reply: HttpReply)
  {
    reply.HttpError? && reply.status == 401
  }

  /** The headers after the request interceptor: `Authorization` is
      `Bearer <access>` when a non-empty access token is stored, otherwise the
      headers are left as they are. */
  function WithBearer(headers: Headers, access: Option<string>): (h: Headers)
    ensures TruthyOpt(access) ==> "Authorization" in h && h["Authorization"] == "Bearer " + access.value
    ensures forall k :: k != "Authorization" ==> (k in h <==> k in headers) && (k in h ==> h[k] == headers[k])
    ensures !TruthyOpt(access) ==> h == headers
  {
    if TruthyOpt(access) then headers["Authorization" := "Bearer " + access.value] else headers
  }

  /** One call's outcome: its result, the headers of each request sent in
      order, the token storage afterwards and the final `_retry` mark. */
  datatype Trace = Trace(result: ApiResult, sent: seq<Headers>, storage: map<string, string>, retried: bool)

  /** The retry policy written out as an explicit bound: send; on a 401 to a
      request not yet marked, refresh once and send once more, whatever the
      second reply is. */
  function BoundedRetry(headers: Headers, retried: bool, storage: map<string, string>,
                        server: Server, refreshReply: RefreshReply, attempt: nat): (t: Trace)
    ensures 1 <= |t.sent| <= 2
    ensures t.sent[0] == WithBearer(headers, Get(storage, Access))
    ensures |t.sent| == 2 <==> IsUnauthorized(server(attempt, t.sent[0])) && !retried
                                && Refreshed(storage, refreshReply).1 == None
    ensures server(attempt, t.sent[0]).Ok? ==>
              t == Trace(Done(server(attempt, t.sent[0]).response), t.sent, storage, retried)
    ensures !server(attempt, t.sent[0]).Ok? && (retried || !IsUnauthorized(server(attempt, t.sent[0]))) ==>
              t == Trace(Failed(FailureOf(server(attempt, t.sent[0]))), t.sent, storage, retried)
    ensures t.retried <==> retried || IsUnauthorized(server(attempt, t.sent[0]))
  {
    var h1 := WithBearer(headers, Get(storage, Access));
    var reply := server(attempt, h1);
    if reply.Ok? then Trace(Done(reply.response), [h1], storage, retried)
    else if !IsUnauthorized(reply) || retried then Trace(Failed(FailureOf(reply)), [h1], storage, retried)
    else
      var (s2, err) := Refreshed(storage, refreshReply);
      if err.Some? then Trace(Failed(RefreshFailure(err.value)), [h1], s2, true)
      else
        var h2 := WithBearer(h1, Get(s2, Access));
        var reply2 := server(attempt + 1, h2);
        Trace(if reply2.Ok? then Done(reply2.response) else Failed(FailureOf(reply2)), [h1, h2], s2, true)
  }

  /** After a successful refresh the re-sent request carries the new access
      token, not the old one. */
  lemma RetryCarriesNewToken(headers: Headers, storage: map<string, string>, server: Server,
                             access: string, rotated: Option<string>, attempt: nat)
    requires TruthyOpt(Get(storage, Refresh)) && access != ""
    requires IsUnauthorized(server(attempt, WithBearer(headers, Get(storage, Access))))
    ensures var t := BoundedRetry(headers, false, storage, server, RefreshOk(access, rotated), attempt);
      && |t.sent| == 2
      && t.sent[1]["Authorization"] == "Bearer " + access
      && Get(t.storage, Access) == Some(access)
  {
  }

  /** A refresh that fails after a 401 rejects the call with the refresh
      error, not the 401, and leaves no tokens behind unless there was no
      refresh token to begin with. */
  lemma FailedRefreshRejectsWithRefreshError(headers: Headers, storage: map<string, string>,
                                             server: Server, refreshReply: RefreshReply, attempt: nat)
    requires IsUnauthorized(server(attempt, WithBearer(headers, Get(storage, Access))))
    requires Refreshed(storage, refreshReply).1.Some?
    ensures var t := BoundedRetry(headers, false, storage, server, refreshReply, attempt);
      && |t.sent| == 1
      && t.result == Failed(RefreshFailure(Refreshed(storage, refreshReply).1.value))
      && (t.result.failure.cause == NoRefreshToken ||
          (Get(t.storage, Access) == None && Get(t.storage, Refresh) == None))
  {
    RefreshFailureClearsBoth(storage, refreshReply);
  }

  /** Two 401s in a row: the second is returned as it is, after one retry. */
  lemma TwoUnauthorizedInARow(headers: Headers, storage: map<string, string>, server: Server,
                              refreshReply: RefreshReply, attempt: nat)
    requires forall n: nat, h: Headers :: server(n, h) == HttpError(401)
    requires Refreshed(storage, refreshReply).1 == None
    ensures var t := BoundedRetry(headers, false, storage, server, refreshReply, attempt);
      t.result == Failed(HttpFailure(401)) && |t.sent| == 2
  {
  }

  /** The request object the interceptors mutate: its headers and the
      `_retry` mark. */
  class RequestConfig {
    var headers: Headers
    var retry: bool

    constructor (headers: Headers)
      ensures this.headers == headers && !retry
    {
      this.headers := headers;
      retry := false;
    }
  }

  /** The request interceptor. */
  method InterceptRequest(config: RequestConfig, store: TokenStore)
    modifies config
    ensures config.headers == WithBearer(old(config.headers), store.GetToken(Access))
    ensures config.retry == old(config.retry)
  {
    var token := store.GetToken(Access);
    if TruthyOpt(token) {
      config.headers := config.headers["Authorization" := "Bearer " + token.value];
    }
  }

  /** `api(config)`: the request interceptor, the network, then the
      response interceptor, which may re-enter `api` once. Returns the
      result and the headers of each request sent. */
  method Dispatch(config: RequestConfig, store: TokenStore, server: Server,
                  refreshReply: RefreshReply, attempt: nat)
    returns (result: ApiResult, sent: seq<Headers>)
    modifies config, store
    ensures Trace(result, sent, store.storage, config.retry) ==
            BoundedRetry(old(config.headers), old(config.retry), old(store.storage), server, refreshReply, attempt)
    decreases if config.retry then 0 else 1
  {
    InterceptRequest(config, store);
    var reply := server(attempt, config.headers);
    sent := [config.headers];
    if reply.Ok? {
      result := Done(reply.response);
    } else if IsUnauthorized(reply) && !config.retry {
      config.retry := true;
      var err := store.RefreshToken(refreshReply);
      if err.Some? {
        result := Failed(RefreshFailure(err.value));
        return;
      }
      var newToken := store.GetToken(Access);
      ghost var h1 := config.headers;
      if TruthyOpt(newToken) {
        config.headers := config.headers["Authorization" := "Bearer " + newToken.value];
      }
      assert config.headers == WithBearer(h1, newToken);
      assert WithBearer(config.headers, newToken) == WithBearer(h1, newToken);
      var more;
      result, more := Dispatch(config, store, server, refreshReply, attempt + 1);
      sent := sent + more;
    } else {
      result := Failed(FailureOf(reply));
    }
  }

  /** A call through the client from a fresh request object with no
      headers of its own, as `api.get(url)` and `api.post(url, body)` make
      one: both interceptors run, starting from `storage`. */
  function FreshCall(storage: map<string, string>, server: Server, refreshReply: RefreshReply): Trace
  {
    BoundedRetry(map[], false, storage, server, refreshReply, 0)
  }

  /** `api.get` / `api.post`: a new request object sent through `Dispatch`.
      The tokens end as the interceptors leave them. */
  method Send(store: TokenStore, server: Server, refreshReply: RefreshReply) returns (result: ApiResult)
    modifies store
    ensures result == FreshCall(old(store.storage), server, refreshReply).result
    ensures store.storage == FreshCall(old(store.storage), server, refreshReply).storage
  {
    var config := new RequestConfig(map[]);
    var sent;
    result, sent := Dispatch(config, store, server, refreshReply, 0);
  }
}
