/** The session held by the authentication provider
    (frontend/src/context/AuthContext.tsx:28-119): three state fields driven
    by login, logout, refreshUser and checkAuthStatus, alongside the token
    store. The token endpoint's replies, the JWT decoder and the clock are
    inputs; the profile request goes through the API client, whose
    interceptors may refresh or clear the stored tokens. */
module AuthSession {
  import opened Common
  import opened Tokens
  import opened ApiClient

  datatype User = User(id: int, username: string, email: string, firstName: string, lastName: string)

  /** The token endpoint's answer to a login: no response, a non-ok
      status, or the token pair. */
  datatype LoginReply = LoginTransportError | LoginNotOk | LoginOk(access: string, refresh: string)

  /** The profile request `getUserProfile` sends through the API client
      (frontend/src/utils/api.ts:88-91): the server's replies, the reply
      the response interceptor's refresh gets should it run, and the
      reading of the user from an ok response's body. */
  datatype ProfileCall = ProfileCall(server: Server, refreshReply: RefreshReply, userOf: Response -> User)

  /** What a rejected call throws. */
  datatype AuthError = LoginFailed | LoginTransport | ProfileUnavailable(cause: ApiFailure)

  /** The profile request as the API client runs it. */
  function ProfileTrace(storage: map<string, string>, call: ProfileCall): Trace
  {
    FreshCall(storage, call.server, call.refreshReply)
  }

  /** The storage after `logout`: neither token is left. */
  function LoggedOut(storage: map<string, string>): (r: map<string, string>)
    ensures Get(r, Access) == None && Get(r, Refresh) == None
    ensures forall key :: key != StorageKey(Access) && key != StorageKey(Refresh) ==>
              (key in r <==> key in storage) && (key in r ==> r[key] == storage[key])
  {
    Drop(Drop(storage, Access), Refresh)
  }

  /** Whether `checkAuthStatus` gets as far as the profile fetch, and the
      storage it has by then: a non-empty access token that is either still
      valid or was refreshed. */
  function TokensBeforeProfile(storage: map<string, string>, decode: string -> Option<Claims>,
                               nowMs: int, refreshReply: RefreshReply): Option<map<string, string>>
  {
    var token := Get(storage, Access);
    if !TruthyOpt(token) then None
    else if !IsTokenExpired(token.value, decode, nowMs) then Some(storage)
    else
      var (s, err) := Refreshed(storage, refreshReply);
      if err.Some? then None else Some(s)
  }

  class Session {
    var isAuthenticated: bool
    var isLoading: bool
    var user: Option<User>
    const tokens: TokenStore

    constructor (tokens: TokenStore)
      ensures !isAuthenticated && isLoading && user == None
      ensures this.tokens == tokens
    {
      isAuthenticated := false;
      isLoading := true;
      user := None;
      this.tokens := tokens;
    }

    /** `logout`: both tokens removed, the session reset; no request. */
    method Logout()
      modifies this, tokens
      ensures tokens.storage == LoggedOut(old(tokens.storage))
      ensures !isAuthenticated && user == None && isLoading == old(isLoading)
    {
      tokens.RemoveToken(Access);
      tokens.RemoveToken(Refresh);
      isAuthenticated := false;
      user := None;
    }

    /** `refreshUser`: fetches the profile through the API client and
        replaces the cached user, or rethrows and keeps it. The fetch
        itself may rotate or clear the tokens (a 401 triggers a refresh). */
    method RefreshUser(call: ProfileCall) returns (err: Option<AuthError>)
      modifies this, tokens
      ensures var t := ProfileTrace(old(tokens.storage), call);
        && tokens.storage == t.storage
        && (t.result.Done? ==> user == Some(call.userOf(t.result.response)) && err == None)
        && (t.result.Failed? ==> user == old(user) && err == Some(ProfileUnavailable(t.result.failure)))
      ensures isAuthenticated == old(isAuthenticated) && isLoading == old(isLoading)
    {
      var result := Send(tokens, call.server, call.refreshReply);
      match result {
        case Done(response) =>
          user := Some(call.userOf(response));
          err := None;
        case Failed(failure) =>
          err := Some(ProfileUnavailable(failure));
      }
    }

    /** `login`. A rejected token request changes nothing. An accepted one
        stores both tokens and marks the session authenticated before the
        profile is fetched, so a failing profile fetch is rethrown with the
        mark left in place and the tokens as the fetch left them. */
    method Login(reply: LoginReply, call: ProfileCall) returns (err: Option<AuthError>)
      modifies this, tokens
      ensures isLoading == old(isLoading)
      ensures !reply.LoginOk? ==>
                && err == Some(if reply.LoginNotOk? then LoginFailed else LoginTransport)
                && tokens.storage == old(tokens.storage)
                && isAuthenticated == old(isAuthenticated) && user == old(user)
      ensures reply.LoginOk? ==>
                var t := ProfileTrace(Put(Put(old(tokens.storage), Access, reply.access), Refresh, reply.refresh), call);
                && tokens.storage == t.storage
                && isAuthenticated
                && (t.result.Done? ==> user == Some(call.userOf(t.result.response)) && err == None)
                && (t.result.Failed? ==> user == old(user) && err == Some(ProfileUnavailable(t.result.failure)))
    {
      match reply {
        case LoginTransportError =>
          return Some(LoginTransport);
        case LoginNotOk =>
          return Some(LoginFailed);
        case LoginOk(access, refresh) =>
          tokens.SetToken(Access, access);
          tokens.SetToken(Refresh, refresh);
          isAuthenticated := true;
          err := RefreshUser(call);
      }
    }

    /** `checkAuthStatus`: restores the session from the stored tokens. */
    method CheckAuthStatus(decode: string -> Option<Claims>, nowMs: int,
                           refreshReply: RefreshReply, call: ProfileCall)
      modifies this, tokens
      ensures !isLoading
      // no access token: unauthenticated, storage untouched
      ensures !TruthyOpt(Get(old(tokens.storage), Access)) ==>
                !isAuthenticated && user == None && tokens.storage == old(tokens.storage)
      // an expired token whose refresh fails: the logout path
      ensures TruthyOpt(Get(old(tokens.storage), Access)) &&
              TokensBeforeProfile(old(tokens.storage), decode, nowMs, refreshReply).None? ==>
                && !isAuthenticated && user == None
                && tokens.storage == LoggedOut(Refreshed(old(tokens.storage), refreshReply).0)
      // a valid or refreshed token: the profile request decides the
      // session, and its interceptors decide the tokens
      ensures TokensBeforeProfile(old(tokens.storage), decode, nowMs, refreshReply).Some? ==>
                var t := ProfileTrace(TokensBeforeProfile(old(tokens.storage), decode, nowMs, refreshReply).value, call);
                && tokens.storage == t.storage
                && (t.result.Done? ==> isAuthenticated && user == Some(call.userOf(t.result.response)))
                && (t.result.Failed? ==> !isAuthenticated && user == None)
    {
      isLoading := true;
      var token := tokens.GetToken(Access);
      if !TruthyOpt(token) {
        isAuthenticated := false;
        user := None;
        isLoading := false;
        return;
      }
      if IsTokenExpired(token.value, decode, nowMs) {
        var err := tokens.RefreshToken(refreshReply);
        if err.Some? {
          Logout();
          isLoading := false;
          return;
        }
      }
      var err := RefreshUser(call);
      if err.None? {
        isAuthenticated := true;
      } else {
        isAuthenticated := false;
        user := None;
      }
      isLoading := false;
    }
  }

  /** An expired access token with a usable refresh token and a working
      profile endpoint restores an authenticated session after one refresh. */
  lemma ExpiredTokenRefreshes(storage: map<string, string>, decode: string -> Option<Claims>,
                              nowMs: int, access: string, rotated: Option<string>)
    requires TruthyOpt(Get(storage, Access)) && TruthyOpt(Get(storage, Refresh))
    requires IsTokenExpired(Get(storage, Access).value, decode, nowMs)
    ensures var s := TokensBeforeProfile(storage, decode, nowMs, RefreshOk(access, rotated));
      s.Some? && Get(s.value, Access) == Some(access)
  {
  }

  /** A valid access token reaches the profile request with storage
      untouched: `checkAuthStatus` itself refreshes only an expired one. */
  lemma ValidTokenKeepsStorage(storage: map<string, string>, decode: string -> Option<Claims>,
                               nowMs: int, refreshReply: RefreshReply)
    requires TruthyOpt(Get(storage, Access))
    requires !IsTokenExpired(Get(storage, Access).value, decode, nowMs)
    ensures TokensBeforeProfile(storage, decode, nowMs, refreshReply) == Some(storage)
  {
  }

  /** A profile request the server does not answer with 401 leaves the
      tokens as they were, whatever else it answers. */
  lemma NonUnauthorizedProfileKeepsStorage(storage: map<string, string>, call: ProfileCall)
    requires !IsUnauthorized(call.server(0, WithBearer(map[], Get(storage, Access))))
    ensures ProfileTrace(storage, call).storage == storage
    ensures ProfileTrace(storage, call).result.Done? <==> call.server(0, WithBearer(map[], Get(storage, Access))).Ok?
  {
  }

  /** A 401 on the profile request with no refresh token stored: the
      refresh throws before it touches storage, so the request fails with
      that error and every token, the access token included, stays. */
  lemma UnauthorizedWithoutRefreshTokenKeepsStorage(storage: map<string, string>, call: ProfileCall)
    requires !TruthyOpt(Get(storage, Refresh))
    requires IsUnauthorized(call.server(0, WithBearer(map[], Get(storage, Access))))
    ensures var t := ProfileTrace(storage, call);
      && t.result == Failed(RefreshFailure(NoRefreshToken)) && t.storage == storage && |t.sent| == 1
  {
    RefreshWithoutToken(storage, call.refreshReply);
  }

  /** A token the server revokes (the profile request gets a 401) and a
      refresh that is refused: the profile request fails and both tokens
      are gone, so `checkAuthStatus` ends logged out with empty storage even
      though the token had not expired. */
  lemma RevokedTokenClearsStorage(storage: map<string, string>, call: ProfileCall)
    requires TruthyOpt(Get(storage, Refresh))
    requires IsUnauthorized(call.server(0, WithBearer(map[], Get(storage, Access))))
    requires !call.refreshReply.RefreshOk?
    ensures var t := ProfileTrace(storage, call);
      && t.result.Failed? && t.result.failure.RefreshFailure?
      && Get(t.storage, Access) == None && Get(t.storage, Refresh) == None
  {
    FailedRefreshRejectsWithRefreshError(map[], storage, call.server, call.refreshReply, 0);
    RefreshFailureClearsBoth(storage, call.refreshReply);
  }

  /** A revoked token whose refresh succeeds: the profile request is sent
      again with the new access token, and that token stays in storage. */
  lemma RevokedTokenRotates(storage: map<string, string>, call: ProfileCall, access: string, rotated: Option<string>)
    requires TruthyOpt(Get(storage, Refresh)) && access != ""
    requires IsUnauthorized(call.server(0, WithBearer(map[], Get(storage, Access))))
    requires call.refreshReply == RefreshOk(access, rotated)
    ensures var t := ProfileTrace(storage, call);
      && |t.sent| == 2 && t.sent[1]["Authorization"] == "Bearer " + access
      && Get(t.storage, Access) == Some(access)
      && (t.result.Done? <==> call.server(1, t.sent[1]).Ok?)
  {
    RetryCarriesNewToken(map[], storage, call.server, access, rotated, 0);
  }
}
