/**
 * The session storage (utils/sessionStorage.ts): resolves a wallet token into
 * the user record of its session through two keys of the store, and keeps the
 * notice-email cache, one entry per session whose time to live is borrowed
 * from the session key.
 *
 *   WALLET-<wallet token>       holds a session token
 *   SESSION-<session token>     holds the user record, as JSON
 *   NOTICEEMAIL-<session token> holds the cached notice email
 */
module SessionStore {
  import opened Fp
  import opened Errors
  import opened Json
  import opened UserCodec
  import opened KeyValueStore

  const SessionKeyPrefix := "SESSION-"
  const WalletKeyPrefix := "WALLET-"
  const NoticeEmailPrefix := "NOTICEEMAIL-"

  function SessionKey(token: string): string { SessionKeyPrefix + token }
  function WalletKey(token: string): string { WalletKeyPrefix + token }
  function NoticeEmailKey(token: string): string { NoticeEmailPrefix + token }

  /** `user.session_token`; every accepted user has one (UserCodec.UserCarriesTokens). */
  function SessionTokenOf(user: Json): string {
    Text(user, "session_token").GetOr("")
  }

  /** A prefix followed by a token names that token alone. */
  lemma PrefixedKeyInjective(prefix: string, a: string, b: string)
    requires prefix + a == prefix + b
    ensures a == b
  {
    assert a == (prefix + a)[|prefix|..];
    assert b == (prefix + b)[|prefix|..];
  }

  /** Within each namespace, different tokens have different keys. */
  lemma KeysInjective(a: string, b: string)
    ensures SessionKey(a) == SessionKey(b) ==> a == b
    ensures WalletKey(a) == WalletKey(b) ==> a == b
    ensures NoticeEmailKey(a) == NoticeEmailKey(b) ==> a == b
  {
    if SessionKey(a) == SessionKey(b) { PrefixedKeyInjective(SessionKeyPrefix, a, b); }
    if WalletKey(a) == WalletKey(b) { PrefixedKeyInjective(WalletKeyPrefix, a, b); }
    if NoticeEmailKey(a) == NoticeEmailKey(b) { PrefixedKeyInjective(NoticeEmailPrefix, a, b); }
  }

  /** The three namespaces never share a key: their prefixes differ in the first letter. */
  lemma NamespacesDisjoint(a: string, b: string)
    ensures SessionKey(a) != NoticeEmailKey(b)
    ensures SessionKey(a) != WalletKey(b)
    ensures WalletKey(a) != NoticeEmailKey(b)
  {
    assert SessionKey(a)[0] == 'S';
    assert WalletKey(a)[0] == 'W';
    assert NoticeEmailKey(b)[0] == 'N';
    assert WalletKey(b)[0] == 'W';
  }

  /**
   * The staleness bound of one session: if its notice email is cached, the
   * entry expires, and no later than the session key does.
   */
  ghost predicate NoticeEmailBounded(values: map<string, string>, expires: map<string, nat>, token: string) {
    NoticeEmailKey(token) in values ==>
      && NoticeEmailKey(token) in expires
      && SessionKey(token) in expires
      && expires[NoticeEmailKey(token)] <= expires[SessionKey(token)]
  }

  /** No cached notice email can outlive its session. */
  ghost predicate CacheBounded(values: map<string, string>, expires: map<string, nat>) {
    forall token :: NoticeEmailBounded(values, expires, token)
  }

  /** Caching an email for one session with the session's own TTL keeps every bound. */
  lemma NoticeEmailWriteKeepsBound(values: map<string, string>, expires: map<string, nat>, token: string, email: string)
    requires CacheBounded(values, expires)
    requires SessionKey(token) in expires
    ensures CacheBounded(values[NoticeEmailKey(token) := email],
                         expires[NoticeEmailKey(token) := expires[SessionKey(token)]])
  {
    var nk := NoticeEmailKey(token);
    var values', expires' := values[nk := email], expires[nk := expires[SessionKey(token)]];
    forall t
      ensures NoticeEmailBounded(values', expires', t)
    {
      KeysInjective(t, token);
      NamespacesDisjoint(t, token);
      assert NoticeEmailBounded(values, expires, t);
    }
  }

  /** Removing one session's cached email keeps every bound. */
  lemma NoticeEmailDeleteKeepsBound(values: map<string, string>, expires: map<string, nat>, token: string)
    requires CacheBounded(values, expires)
    ensures CacheBounded(values - {NoticeEmailKey(token)}, expires - {NoticeEmailKey(token)})
  {
    var nk := NoticeEmailKey(token);
    var values', expires' := values - {nk}, expires - {nk};
    forall t
      ensures NoticeEmailBounded(values', expires', t)
    {
      NamespacesDisjoint(t, token);
      assert NoticeEmailBounded(values, expires, t);
    }
  }

  /** `singleStringReply`: a client error, or whether the reply is "OK". */
  function SingleStringReply(err: Option<Error>, reply: Option<string>): (r: Either<Error, bool>)
    ensures err.Some? <==> r.Left?
    ensures r.Left? ==> r.left == err.value
    ensures r == Right(true) <==> err.None? && reply == Some("OK")
  {
    if err.Some? then Left(err.value) else Right(reply == Some("OK"))
  }

  /** `falsyResponseToError`: keeps an error, turns `false` into `error`, passes `true`. */
  function FalsyResponseToError(response: Either<Error, bool>, error: Error): (r: Either<Error, bool>)
    ensures r.Right? <==> response == Right(true)
    ensures r.Right? ==> r.right
    ensures response.Left? ==> r == response
    ensures response == Right(false) ==> r == Left(error)
  {
    match response
    case Left(e) => Left(e)
    case Right(ok) => if ok then Right(true) else Left(error)
  }

  /** The outcome of a SET with EX as `setPagoPaNoticeEmail` reports it. */
  function SetReply(err: Option<Error>, reply: Option<string>): (r: Either<Error, bool>)
    ensures r.Right? <==> err.None? && reply == Some("OK")
    ensures r.Right? ==> r.right
    ensures r.Left? && err.None? ==> r.left == SetNotAcknowledged
  {
    FalsyResponseToError(SingleStringReply(err, reply), SetNotAcknowledged)
  }

  /** A client error is passed on, "OK" is success, any other reply is "Error setting session token". */
  lemma SetReplyMapping(err: Option<Error>, reply: Option<string>)
    ensures err.Some? ==> SetReply(err, reply) == Left(err.value)
    ensures err.None? && reply == Some("OK") ==> SetReply(err, reply) == Right(true)
    ensures err.None? && reply != Some("OK") ==> SetReply(err, reply) == Left(SetNotAcknowledged)
  {
  }

  class SessionStorage {
    const redisClient: RedisClient
    /** `parseJSON`: the document a string holds, or none when it is not JSON */
    const parse: string -> Option<Json>
    /** the refinements the `User` and `EmailString` codecs check */
    const formats: Formats

    constructor (redisClient: RedisClient, parse: string -> Option<Json>, formats: Formats)
      ensures this.redisClient == redisClient && this.parse == parse && this.formats == formats
    {
      this.redisClient := redisClient;
      this.parse := parse;
      this.formats := formats;
    }

    /** `parseUser`: JSON first, then the `User` codec. */
    function ParseUser(value: string): (r: Either<Error, Json>)
      ensures r.Right? <==> parse(value).Some? && IsUser(formats, parse(value).value)
      ensures r.Right? ==> parse(value) == Some(r.right)
      ensures parse(value).None? ==> r == Left(MalformedJson)
      ensures parse(value).Some? && !IsUser(formats, parse(value).value) ==> r == Left(InvalidUser)
    {
      match parse(value)
      case None => Left(MalformedJson)
      case Some(data) => DecodeUser(formats, data)
    }

    /**
     * What loading the session of `token` yields: the client's error, the
     * session-not-found error for a missing key, or the parsed payload.
     */
    function StoredSession(token: string): (r: Either<Error, Json>)
      reads redisClient
    {
      var key := SessionKey(token);
      if key in redisClient.failing then Left(ClientError(redisClient.failing[key]))
      else if key !in redisClient.values then Left(SessionNotFound)
      else ParseUser(redisClient.values[key])
    }

    /**
     * "Not found" means only that the key holds nothing; a payload that is
     * not JSON or not a user is an error, and a success is a decoded user
     * stored under the session key.
     */
    lemma StoredSessionOutcomes(token: string)
      ensures StoredSession(token) == Left(SessionNotFound) <==>
        SessionKey(token) !in redisClient.failing && SessionKey(token) !in redisClient.values
      ensures StoredSession(token).Right? <==>
        && SessionKey(token) !in redisClient.failing
        && SessionKey(token) in redisClient.values
        && ParseUser(redisClient.values[SessionKey(token)]).Right?
      ensures StoredSession(token).Right? ==>
        && IsUser(formats, StoredSession(token).right)
        && parse(redisClient.values[SessionKey(token)]) == Some(StoredSession(token).right)
    {
    }

    /** `loadSessionBySessionToken` */
    method LoadSessionBySessionToken(token: string) returns (r: Either<Error, Json>)
      ensures r == StoredSession(token)
      ensures r.Right? ==> IsUser(formats, r.right)
    {
      var err, value := redisClient.Get(SessionKey(token));
      if err.Some? {
        return Left(err.value);
      }
      if value.None? {
        return Left(SessionNotFound);
      }
      r := ParseUser(value.value);
    }

    /**
     * `loadSessionByToken`: the key `prefix + token` holds a session token,
     * whose session is then loaded.
     */
    method LoadSessionByToken(prefix: string, token: string) returns (r: Either<Error, Json>)
      ensures var key := prefix + token;
        && (key in redisClient.failing ==> r == Left(ClientError(redisClient.failing[key])))
        && (key !in redisClient.failing && key !in redisClient.values ==> r == Left(SessionNotFound))
        && (key !in redisClient.failing && key in redisClient.values ==>
              r == StoredSession(redisClient.values[key]))
    {
      var err, value := redisClient.Get(prefix + token);
      if err.Some? {
        return Left(err.value);
      }
      if value.None? {
        return Left(SessionNotFound);
      }
      r := LoadSessionBySessionToken(value.value);
    }

    /**
     * `getByWalletToken`: a missing wallet key or a missing session key is
     * no user at all; a stored user is found through both keys; every other
     * failure stays an error.
     */
    method GetByWalletToken(token: string) returns (r: Either<Error, Option<Json>>)
      ensures var wk := WalletKey(token);
        r == Right(None) <==>
          && wk !in redisClient.failing
          && (wk !in redisClient.values || StoredSession(redisClient.values[wk]) == Left(SessionNotFound))
      ensures var wk := WalletKey(token);
        r.Right? && r.right.Some? <==>
          && wk !in redisClient.failing
          && wk in redisClient.values
          && StoredSession(redisClient.values[wk]).Right?
      ensures r.Right? && r.right.Some? ==>
        && IsUser(formats, r.right.value)
        && r.right.value == StoredSession(redisClient.values[WalletKey(token)]).right
      ensures r.Left? ==> r.left != SessionNotFound
      ensures var wk := WalletKey(token);
        r.Left? ==> r.left == (if wk in redisClient.failing then ClientError(redisClient.failing[wk])
                               else StoredSession(redisClient.values[wk]).left)
    {
      var errorOrSession := LoadSessionByToken(WalletKeyPrefix, token);
      if errorOrSession.Left? {
        if errorOrSession.left == SessionNotFound {
          return Right(None);
        }
        return Left(errorOrSession.left);
      }
      StoredSessionOutcomes(redisClient.values[WalletKey(token)]);
      r := Right(Some(errorOrSession.right));
    }

    /** `getSessionTtl`: the TTL of the session key, sentinels included. */
    method GetSessionTtl(token: string) returns (r: Either<Error, int>)
      requires redisClient.Valid()
      ensures SessionKey(token) in redisClient.failing ==>
        r == Left(ClientError(redisClient.failing[SessionKey(token)]))
      ensures SessionKey(token) !in redisClient.failing ==>
        r == Right(redisClient.Remaining(SessionKey(token)))
    {
      var err, ttl := redisClient.Ttl(SessionKey(token));
      if err.Some? {
        return Left(err.value);
      }
      r := Right(ttl);
    }

    /**
     * What `setPagoPaNoticeEmail` settles with for session `token` in the
     * current state: the TTL read's error, a rejection for a negative TTL,
     * or the mapped reply of SET with EX equal to that TTL.
     */
    function NoticeEmailWriteAnswer(token: string): Settled<Either<Error, bool>, Error>
      reads redisClient
      requires redisClient.Valid()
    {
      var sk, nk := SessionKey(token), NoticeEmailKey(token);
      if sk in redisClient.failing then Resolved(Left(TtlUnavailable(redisClient.failing[sk])))
      else if redisClient.Remaining(sk) < 0 then Rejected(UnexpectedTtl(redisClient.Remaining(sk)))
      else if nk in redisClient.failing then Resolved(SetReply(Some(ClientError(redisClient.failing[nk])), None))
      else if redisClient.Remaining(sk) == 0 then Resolved(SetReply(Some(ClientError(InvalidExpireTime)), None))
      else Resolved(SetReply(None, Some("OK")))
    }

    /**
     * `setPagoPaNoticeEmail`: caches `noticeEmail` for the user's session
     * with the session key's remaining TTL. A failed TTL read and a negative
     * TTL (-1 or -2) write nothing; the latter rejects, as the thrown error
     * does. A successful write leaves an entry that expires with its session.
     */
    method SetPagoPaNoticeEmail(user: Json, noticeEmail: string) returns (r: Settled<Either<Error, bool>, Error>)
      requires IsUser(formats, user)
      requires redisClient.Valid()
      modifies redisClient
      ensures redisClient.Valid() && redisClient.failing == old(redisClient.failing)
      ensures r == old(NoticeEmailWriteAnswer(SessionTokenOf(user)))
      ensures var sk := SessionKey(SessionTokenOf(user));
        sk in redisClient.failing ==> r == Resolved(Left(TtlUnavailable(redisClient.failing[sk])))
      ensures var sk := SessionKey(SessionTokenOf(user));
        sk !in redisClient.failing && old(redisClient.Remaining(sk)) < 0 ==>
          r == Rejected(UnexpectedTtl(old(redisClient.Remaining(sk))))
      ensures var sk, nk := SessionKey(SessionTokenOf(user)), NoticeEmailKey(SessionTokenOf(user));
        sk !in redisClient.failing && old(redisClient.Remaining(sk)) >= 0 ==>
          r == Resolved(SetReply(
                 if nk in redisClient.failing then Some(ClientError(redisClient.failing[nk]))
                 else if old(redisClient.Remaining(sk)) == 0 then Some(ClientError(InvalidExpireTime))
                 else None,
                 if nk !in redisClient.failing && old(redisClient.Remaining(sk)) > 0 then Some("OK") else None))
      ensures var sk, nk := SessionKey(SessionTokenOf(user)), NoticeEmailKey(SessionTokenOf(user));
        r == Resolved(Right(true)) ==>
          && sk in old(redisClient.expires)
          && redisClient.values == old(redisClient.values)[nk := noticeEmail]
          && redisClient.expires == old(redisClient.expires)[nk := old(redisClient.expires)[sk]]
      ensures r != Resolved(Right(true)) ==>
        redisClient.values == old(redisClient.values) && redisClient.expires == old(redisClient.expires)
      ensures CacheBounded(old(redisClient.values), old(redisClient.expires)) ==>
        CacheBounded(redisClient.values, redisClient.expires)
    {
      var token := SessionTokenOf(user);
      var errorOrSessionTtl := GetSessionTtl(token);
      if errorOrSessionTtl.Left? {
        return Resolved(Left(TtlUnavailable(errorOrSessionTtl.left.message)));
      }
      var sessionTtl := errorOrSessionTtl.right;
      if sessionTtl < 0 {
        return Rejected(UnexpectedTtl(sessionTtl));
      }
      NamespacesDisjoint(token, token);
      var err, response := redisClient.Set(NoticeEmailKey(token), noticeEmail, sessionTtl);
      r := Resolved(SetReply(err, response));
      if r == Resolved(Right(true)) && CacheBounded(old(redisClient.values), old(redisClient.expires)) {
        NoticeEmailWriteKeepsBound(old(redisClient.values), old(redisClient.expires), token, noticeEmail);
      }
    }

    /** `delPagoPaNoticeEmail`: removes the user's cached notice email and nothing else. */
    method DelPagoPaNoticeEmail(user: Json) returns (r: Either<Error, bool>)
      requires IsUser(formats, user)
      requires redisClient.Valid()
      modifies redisClient
      ensures redisClient.Valid() && redisClient.failing == old(redisClient.failing)
      ensures var nk := NoticeEmailKey(SessionTokenOf(user));
        nk in redisClient.failing ==>
          && r == Left(ClientError(redisClient.failing[nk]))
          && redisClient.values == old(redisClient.values)
          && redisClient.expires == old(redisClient.expires)
      ensures var nk := NoticeEmailKey(SessionTokenOf(user));
        nk !in redisClient.failing ==>
          && r == Right(true)
          && redisClient.values == old(redisClient.values) - {nk}
          && redisClient.expires == old(redisClient.expires) - {nk}
      ensures CacheBounded(old(redisClient.values), old(redisClient.expires)) ==>
        CacheBounded(redisClient.values, redisClient.expires)
    {
      var token := SessionTokenOf(user);
      var err, _ := redisClient.Del(NoticeEmailKey(token));
      r := if err.Some? then Left(err.value) else Right(true);
      if CacheBounded(old(redisClient.values), old(redisClient.expires)) {
        NoticeEmailDeleteKeepsBound(old(redisClient.values), old(redisClient.expires), token);
      }
    }

    /** What reading the cached notice email of session `token` yields. */
    function CachedNoticeEmail(token: string): Either<Error, string>
      reads redisClient
    {
      var key := NoticeEmailKey(token);
      if key in redisClient.failing then Left(ClientError(redisClient.failing[key]))
      else if key !in redisClient.values then Left(NoticeEmailNotFound)
      else if formats.isEmail(redisClient.values[key]) then Right(redisClient.values[key])
      else Left(InvalidNoticeEmail)
    }

    /**
     * `getPagoPaNoticeEmail`: the cached notice email of the user's session;
     * a client error, a missing key and a value that is not an `EmailString`
     * are all errors.
     */
    method GetPagoPaNoticeEmail(user: Json) returns (r: Either<Error, string>)
      requires IsUser(formats, user)
      ensures r == CachedNoticeEmail(SessionTokenOf(user))
      ensures var nk := NoticeEmailKey(SessionTokenOf(user));
        && (nk in redisClient.failing ==> r == Left(ClientError(redisClient.failing[nk])))
        && (nk !in redisClient.failing && nk !in redisClient.values ==> r == Left(NoticeEmailNotFound))
      ensures var nk := NoticeEmailKey(SessionTokenOf(user));
        r.Right? <==>
          nk !in redisClient.failing && nk in redisClient.values && formats.isEmail(redisClient.values[nk])
      ensures r.Right? ==> r.right == redisClient.values[NoticeEmailKey(SessionTokenOf(user))]
      ensures var nk := NoticeEmailKey(SessionTokenOf(user));
        nk !in redisClient.failing && nk in redisClient.values && !formats.isEmail(redisClient.values[nk]) ==>
          r == Left(InvalidNoticeEmail)
    {
      var err, value := redisClient.Get(NoticeEmailKey(SessionTokenOf(user)));
      if err.Some? {
        return Left(err.value);
      }
      if value.None? {
        return Left(NoticeEmailNotFound);
      }
      r := if formats.isEmail(value.value) then Right(value.value) else Left(InvalidNoticeEmail);
    }
  }
}
