/** Token storage, expiry and refresh (frontend/src/utils/auth.ts).
    Browser storage is a string-to-string map; the JWT decoder is a
    parameter that either yields the claims or fails; wall-clock time is a
    parameter in milliseconds; the refresh endpoint's reply is an input. */
module Tokens {
  import opened Common

  datatype TokenKind = Access | Refresh

  /** The claims read from an access token (seconds since the epoch). */
  datatype Claims = Claims(exp: int, userId: int)

  /** What the refresh endpoint answered: the fetch itself failed (or the
      body could not be read), a non-ok status, or an ok body with a new
      access token and maybe a rotated refresh token. */
  datatype RefreshReply =
    | RefreshTransportError
    | RefreshNotOk
    | RefreshOk(access: string, refresh: Option<string>)

  datatype RefreshError =
    | NoRefreshToken        // 'No refresh token available', thrown before any request
    | RefreshRejected       // 'Failed to refresh token'
    | RefreshTransport      // the error thrown by fetch, rethrown

  /** The storage key of a token kind: `${type}_token`. */
  function StorageKey(kind: TokenKind): (key: string)
    ensures key == (if kind == Access then "access" else "refresh") + "_token"
  {
    match kind
    case Access => "access_token"
    case Refresh => "refresh_token"
  }

  /** `getToken`. */
  function Get(storage: map<string, string>, kind: TokenKind): (r: Option<string>)
    ensures r.Some? <==> StorageKey(kind) in storage
    ensures r.Some? ==> r.value == storage[StorageKey(kind)]
  {
    if StorageKey(kind) in storage then Some(storage[StorageKey(kind)]) else None
  }

  /** `setToken`: a later `getToken` of the same kind returns the value; the
      other kind and every other storage key are untouched. */
  function Put(storage: map<string, string>, kind: TokenKind, token: string): (r: map<string, string>)
    ensures Get(r, kind) == Some(token)
    ensures forall other :: other != kind ==> Get(r, other) == Get(storage, other)
    ensures forall key :: key != StorageKey(kind) ==>
              (key in r <==> key in storage) && (key in r ==> r[key] == storage[key])
  {
    storage[StorageKey(kind) := token]
  }

  /** `removeToken`: a later `getToken` of the same kind returns null; the
      other kind and every other storage key are untouched. */
  function Drop(storage: map<string, string>, kind: TokenKind): (r: map<string, string>)
    ensures Get(r, kind) == None
    ensures forall other :: other != kind ==> Get(r, other) == Get(storage, other)
    ensures forall key :: key != StorageKey(kind) ==>
              (key in r <==> key in storage) && (key in r ==> r[key] == storage[key])
  {
    storage - {StorageKey(kind)}
  }

  /** `isTokenExpired`: `exp < Date.now() / 1000`, and true when the token
      cannot be decoded. Stated as the source computes it, in seconds on
      the reals; the ensures restates it in whole milliseconds. */
  function IsTokenExpired(token: string, decode: string -> Option<Claims>, nowMs: int): (expired: bool)
    ensures decode(token).None? ==> expired
    ensures decode(token).Some? ==> (expired <==> decode(token).value.exp * 1000 < nowMs)
  {
    match decode(token)
    case None => true
    case Some(claims) => (claims.exp as real) < (nowMs as real) / 1000.0
  }

  /** The comparison is strict: a token whose expiry is exactly now is
      still accepted. */
  lemma ExpiryBoundaryNotExpired(token: string, decode: string -> Option<Claims>, nowMs: int)
    requires decode(token).Some? && decode(token).value.exp * 1000 == nowMs
    ensures !IsTokenExpired(token, decode, nowMs)
  {
  }

  /** `getUserIdFromToken`: null without a (non-empty) access token or when
      decoding fails, otherwise the decoded user id. */
  function UserIdFromToken(storage: map<string, string>, decode: string -> Option<Claims>): (r: Option<int>)
    ensures !TruthyOpt(Get(storage, Access)) ==> r == None
    ensures TruthyOpt(Get(storage, Access)) ==>
              r == (if decode(Get(storage, Access).value).Some?
                    then Some(decode(Get(storage, Access).value).value.userId) else None)
  {
    var token := Get(storage, Access);
    if !TruthyOpt(token) then None
    else match decode(token.value)
      case None => None
      case Some(claims) => Some(claims.userId)
  }

  /** The storage and the outcome of `refreshToken` (None: it resolved). */
  function Refreshed(storage: map<string, string>, reply: RefreshReply): (map<string, string>, Option<RefreshError>)
  {
    if !TruthyOpt(Get(storage, Refresh)) then (storage, Some(NoRefreshToken))
    else match reply
      case RefreshTransportError => (Drop(Drop(storage, Access), Refresh), Some(RefreshTransport))
      case RefreshNotOk => (Drop(Drop(storage, Access), Refresh), Some(RefreshRejected))
      case RefreshOk(access, refresh) =>
        var s := Put(storage, Access, access);
        (if TruthyOpt(refresh) then Put(s, Refresh, refresh.value) else s, None)
  }

  /** Without a stored refresh token the refresh fails and storage is
      untouched. */
  lemma RefreshWithoutToken(storage: map<string, string>, reply: RefreshReply)
    requires !TruthyOpt(Get(storage, Refresh))
    ensures Refreshed(storage, reply) == (storage, Some(NoRefreshToken))
  {
  }

  /** A successful refresh stores the new access token and replaces the
      refresh token only when the reply carries a non-empty one. */
  lemma RefreshSuccess(storage: map<string, string>, access: string, refresh: Option<string>)
    requires TruthyOpt(Get(storage, Refresh))
    ensures var (s, err) := Refreshed(storage, RefreshOk(access, refresh));
      && err == None
      && Get(s, Access) == Some(access)
      && Get(s, Refresh) == (if TruthyOpt(refresh) then refresh else Get(storage, Refresh))
  {
  }

  /** Every failed refresh that reached the network leaves neither token
      behind; only the early "no refresh token" failure keeps storage. */
  lemma RefreshFailureClearsBoth(storage: map<string, string>, reply: RefreshReply)
    requires Refreshed(storage, reply).1.Some?
    ensures var (s, err) := Refreshed(storage, reply);
      err.value == NoRefreshToken || (Get(s, Access) == None && Get(s, Refresh) == None)
    ensures var (s, err) := Refreshed(storage, reply);
      err.value != NoRefreshToken <==> !reply.RefreshOk? && TruthyOpt(Get(storage, Refresh))
  {
  }

  /** The browser's storage, holding the two tokens under their keys. */
  class TokenStore {
    var storage: map<string, string>

    constructor (initial: map<string, string>)
      ensures storage == initial
    {
      storage := initial;
    }

    function GetToken(kind: TokenKind): (r: Option<string>)
      reads this
      ensures r.Some? <==> StorageKey(kind) in storage
      ensures r.Some? ==> r.value == storage[StorageKey(kind)]
    {
      Get(storage, kind)
    }

    method SetToken(kind: TokenKind, token: string)
      modifies this
      ensures storage == Put(old(storage), kind, token)
    {
      storage := storage[StorageKey(kind) := token];
    }

    method RemoveToken(kind: TokenKind)
      modifies this
      ensures storage == Drop(old(storage), kind)
    {
      storage := storage - {StorageKey(kind)};
    }

    /** `refreshToken`: None when it resolved, the thrown error otherwise. */
    method RefreshToken(reply: RefreshReply) returns (err: Option<RefreshError>)
      modifies this
      ensures (storage, err) == Refreshed(old(storage), reply)
    {
      var refresh := GetToken(Refresh);
      if !TruthyOpt(refresh) {
        return Some(NoRefreshToken);
      }
      match reply {
        case RefreshOk(access, rotated) =>
          SetToken(Access, access);
          if TruthyOpt(rotated) {
            SetToken(Refresh, rotated.value);
          }
          err := None;
        case RefreshNotOk =>
          RemoveToken(Access);
          RemoveToken(Refresh);
          err := Some(RefreshRejected);
        case RefreshTransportError =>
          RemoveToken(Access);
          RemoveToken(Refresh);
          err := Some(RefreshTransport);
      }
    }
  }
}
