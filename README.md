# Session store and notice-email resolution — a Dafny model

This project models the core of an authentication proxy for the pagoPA
payment manager. The proxy turns a wallet bearer token into the user's
session record. It then answers "which email should payment notices go to"
for that user, with an optional cache in front of the profile store.

The model has four parts:

- **Session storage** (`SessionStore`, utils/sessionStorage.ts).
  - A wallet token is resolved in two hops through a key-value store.
    `WALLET-<token>` holds a session token. `SESSION-<session token>` holds
    the user record as JSON.
  - A missing key means "no session". It is kept apart from client errors,
    JSON errors and decode errors.
  - The notice-email cache writes `NOTICEEMAIL-<session token>` with the
    session key's remaining TTL, so an entry never outlives its session.
  - The store is a class (`KeyValueStore.RedisClient`) with three maps:
    values, expiries, and the keys whose commands the client fails. The
    session storage is a class whose methods read it, or update it in place
    with SET ... EX and DEL.
- **User record codec** (`UserCodec`, types/user.ts). The stored payload
  is accepted by the union of three schema versions, V1 ⊂ V2 ⊂ V3 in
  required tokens, over a common base. Each io-ts codec becomes the
  predicate its `decode` checks on a JSON value.
- **The GET /api/v1/user handler** (`PagoPaGetUser`,
  PagoPAGetUser/handler.ts). `Handle` is the cache-aside decision
  procedure as a pure function. Its inputs are what each collaborator
  answers: the cache read, the profile query, the cache write and the
  output schema. Its output is one of four responses plus the trace of
  collaborator calls it made. `Serve` runs the same procedure against the
  session storage. `ServeTwice` proves that a second request gives the same
  response and reads only the cache, under these conditions: the cache is
  enabled, the session key and the notice-email key are reachable, the
  session has a positive TTL, and the profile yields an email. Otherwise the
  first request caches nothing. `ServeTwiceWithoutTtl` shows that a session
  without time to live (-1, -2 or 0) makes every request query the profile
  again.
- **Passport strategy** (`Strategy`, utils/strategy.ts). `fulfill` maps
  the lookup result to the arguments of `done`. The verify callback also
  handles a rejected lookup and an exception raised by `done`.

Where the documentation and the code disagree, the model follows the code:

- `spid_level` is declared `t.unknown`. That codec also accepts a missing
  property, so `spid_level` may be absent from an accepted record
  (`UserCodec.SpidLevelUnconstrained`).
- The handler calls `findLastVersionByModelId` every time it builds the
  lazy profile task. The task only runs on the profile path, so the trace
  records `FindLastProfile` only when the query actually runs.
- A negative session TTL (-1 "no expiry", -2 "missing") makes
  `setPagoPaNoticeEmail` throw. The model keeps that behaviour as a
  rejected outcome, `Rejected(UnexpectedTtl(ttl))`, and writes nothing.
- A TTL of exactly 0 gets past the `< 0` guard. Redis refuses `SET ... EX 0`
  with "invalid expire time", so the model's store answers that error and
  nothing is written. The handler ignores the error either way.

## Model

| member | source | states |
|---|---|---|
| `UserCodec.IsUserWithoutTokens` | types/user.ts:10-28 | an accepted base record is an object with a numeric `created_at`, string names and a valid fiscal code |
| `UserCodec.IsUserV1` | types/user.ts:29-33 | a V1 user has the base attributes, a valid session token and a valid wallet token |
| `UserCodec.IsUserV2` | types/user.ts:36-42 | a V2 user is a V1 user with a valid MyPortal token |
| `UserCodec.IsUserV3` | types/user.ts:45-51 | a V3 user is a V2 user with a valid BPD token |
| `UserCodec.IsUser` | types/user.ts:54-55 | every accepted user has the base attributes and the V1 tokens |
| `UserCodec.Variant` | types/user.ts:54 | the union settles on some variant exactly when the value is a user, and on a later variant only when every earlier one refused it |
| `UserCodec.AgreeOutsideSpidLevel` | types/user.ts:10-17 | two records that differ only in `spid_level` are accepted alike |
| `UserCodec.DecodeUser` | types/user.ts:54 | `User.decode` succeeds exactly when some variant accepts the value, hands back that same value, and fails otherwise with the decode error |
| `UserCodec.SupersetChain` | types/user.ts:29-51 | V3 acceptance implies V2 acceptance, which implies V1 acceptance |
| `UserCodec.UnionCollapsesToV1` | types/user.ts:54 | the union accepts exactly what UserV1 accepts, and trying the variants in order always settles on V1 |
| `UserCodec.UserCarriesTokens` | types/user.ts:29-33 | every accepted user has a `session_token` and a `wallet_token` string that pass their token formats |
| `UserCodec.MissingRequiredRejected` | types/user.ts:10-17 | a value without a numeric `created_at`, without string `family_name` or `name`, or without a valid fiscal code is rejected by all three variants |
| `UserCodec.OptionalFormats` | types/user.ts:18-27 | in an accepted user, `spid_email` (if present) is an email and `spid_mobile_phone` (if present) is a non-empty string |
| `UserCodec.OptionalMayBeAbsent` | types/user.ts:18-27 | removing any optional property from an accepted user leaves it accepted |
| `UserCodec.SpidLevelUnconstrained` | types/user.ts:16 | changing or removing `spid_level` never changes acceptance |
| `KeyValueStore.RedisClient.Remaining` | utils/sessionStorage.ts:236-238 | TTL is -2 exactly for a missing key, -1 exactly for a key without expiry, and otherwise the key's remaining seconds |
| `KeyValueStore.RedisClient.Get` | utils/sessionStorage.ts:179-187 | GET gives the client's error for a failing key, null for a missing key, and otherwise the stored value |
| `KeyValueStore.RedisClient.Set` | utils/sessionStorage.ts:75-80 | SET with EX replaces the value and expiry of one key and answers "OK"; a failing key or a non-positive EX is an error and changes nothing |
| `KeyValueStore.RedisClient.Del` | utils/sessionStorage.ts:96 | DEL removes exactly the given key and its expiry, unless the client fails |
| `KeyValueStore.RedisClient.Ttl` | utils/sessionStorage.ts:236-239 | TTL answers the client's error or the key's remaining time, sentinels included |
| `SessionStore.KeysInjective` | utils/sessionStorage.ts:22-24 | within each key namespace, different tokens give different keys |
| `SessionStore.NamespacesDisjoint` | utils/sessionStorage.ts:22-24 | session, wallet and notice-email keys never coincide |
| `SessionStore.NoticeEmailWriteKeepsBound` | utils/sessionStorage.ts:69-79 | writing one session's notice email with the session's TTL keeps every cached entry bounded by its session's TTL |
| `SessionStore.NoticeEmailDeleteKeepsBound` | utils/sessionStorage.ts:94-99 | deleting one session's notice email keeps every bound |
| `SessionStore.SingleStringReply` | utils/sessionStorage.ts:139-148 | a client error becomes left; otherwise right, true exactly for the reply "OK" |
| `SessionStore.FalsyResponseToError` | utils/sessionStorage.ts:150-162 | right only for right(true); errors pass through; right(false) becomes the given error |
| `SessionStore.SetReply` | utils/sessionStorage.ts:80-86 | the SET outcome is right, and then true, exactly when the client reports no error and replies "OK"; a reply other than "OK" is "Error setting session token" |
| `SessionStore.SetReplyMapping` | utils/sessionStorage.ts:80-86 | a SET reply maps to left(client error), to right(true) for "OK", and to "Error setting session token" for any other reply |
| `SessionStore.SessionStorage.constructor` | utils/sessionStorage.ts:29-31 | the storage is bound to the given store client |
| `SessionStore.SessionStorage.ParseUser` | utils/sessionStorage.ts:164-170 | a payload yields a user exactly when it parses as JSON and the `User` codec accepts it; a parse failure and a decode failure give different errors |
| `SessionStore.SessionStorage.StoredSessionOutcomes` | utils/sessionStorage.ts:175-192 | loading a session is "not found" exactly when the session key is reachable and absent; success means the key holds a decodable user, and malformed payloads are errors |
| `SessionStore.SessionStorage.LoadSessionBySessionToken` | utils/sessionStorage.ts:175-192 | reads `SESSION-<token>` and returns the client error, the not-found error or the parsed user; any user it returns is accepted by the codec |
| `SessionStore.SessionStorage.LoadSessionByToken` | utils/sessionStorage.ts:197-227 | reads `prefix + token`; a client error or a missing key ends there, otherwise the stored session token's session is loaded |
| `SessionStore.SessionStorage.GetByWalletToken` | utils/sessionStorage.ts:33-51 | right(none) exactly when the wallet key or the session key it points to is missing; right(some(user)) exactly when both hops succeed and the payload decodes; not-found never surfaces as an error; a left carries the wallet key's client error, or else exactly the error loading the session gave |
| `SessionStore.SessionStorage.GetSessionTtl` | utils/sessionStorage.ts:233-240 | the session key's TTL, with -2/-1 sentinels, or the client's error |
| `SessionStore.SessionStorage.SetPagoPaNoticeEmail` | utils/sessionStorage.ts:56-89 | nothing is written when the TTL read fails (left) or the TTL is negative (rejects); otherwise exactly `NOTICEEMAIL-<session token>` is set with EX equal to the session's TTL, the SET reply is mapped to the result, and the staleness bound is preserved; the result is determined by the state before the call |
| `SessionStore.SessionStorage.DelPagoPaNoticeEmail` | utils/sessionStorage.ts:94-100 | removes only `NOTICEEMAIL-<session token>` and answers right(true) unless the client reports an error |
| `SessionStore.SessionStorage.GetPagoPaNoticeEmail` | utils/sessionStorage.ts:105-132 | right(email) exactly when the cache key is reachable, present and holds an `EmailString`; a client error, a missing value and an invalid email are three distinct lefts |
| `PagoPaGetUser.NoticeEmailCandidate` | PagoPAGetUser/handler.ts:74-79 | the candidate is the profile email or the identity provider's email, and the profile email only when it is validated and non-empty |
| `PagoPaGetUser.ProfileLookup` | PagoPAGetUser/handler.ts:54-95 | the profile query comes first; a failed query and a missing profile are the query and not-found errors; a cache write follows exactly when an email was found, and writes that email |
| `PagoPaGetUser.CacheLookup` | PagoPAGetUser/handler.ts:96-105 | the cache read comes first; a cached email settles the request in one call; anything else gives the profile path's result with its calls after the read |
| `PagoPaGetUser.OutputRecord` | PagoPAGetUser/handler.ts:109-115 | the output record carries the user's names, fiscal code, phone and identity-provider email as they are, and the resolved notice email |
| `PagoPaGetUser.Validate` | PagoPAGetUser/handler.ts:116-120 | success exactly when the schema accepts the record, carrying that record; otherwise the validation error |
| `PagoPaGetUser.Handle` | PagoPAGetUser/handler.ts:48-124 | the cache is read iff it is enabled; at most three collaborator calls; a success passed the output schema; a query error means the query failed; not-found means there was no profile; a cache write is for this user and only after a profile was found |
| `PagoPaGetUser.CacheDisabledIgnoresCache` | PagoPAGetUser/handler.ts:96-107 | with the cache disabled the cache is never read, whatever it would answer, and the profile query comes first |
| `PagoPaGetUser.CacheHit` | PagoPAGetUser/handler.ts:97-105 | a cached email is the notice email, with no profile query and no cache write |
| `PagoPaGetUser.CacheMissFallsBack` | PagoPAGetUser/handler.ts:97-106 | a cache read that fails or rejects gives the same response as the cache-disabled path, whose calls follow the read |
| `PagoPaGetUser.ProfileFailuresSkipCacheWrite` | PagoPAGetUser/handler.ts:60-73 | a failed profile query gives the query error, a missing profile gives not-found, and neither writes the cache |
| `PagoPaGetUser.CandidateChoice` | PagoPAGetUser/handler.ts:74-79 | a present, validated profile email is chosen; otherwise the identity provider's email is |
| `PagoPaGetUser.ProfileFoundWritesCandidate` | PagoPAGetUser/handler.ts:74-95 | when a profile is found, the response carries the candidate email, and the trace holds exactly one cache write of it, or none if there is no candidate |
| `PagoPaGetUser.CacheWriteOutcomeIgnored` | PagoPAGetUser/handler.ts:87-94 | a cache write that succeeds, fails or rejects leaves the outcome unchanged |
| `PagoPaGetUser.ResponseShape` | PagoPAGetUser/handler.ts:108-121 | the response is one of the four kinds; a success carries the user's names, fiscal code, phone and identity-provider email; a validation error happens exactly when a notice email was resolved and the record built with it fails the schema, and a success exactly when it passes |
| `PagoPaGetUser.Serve` | PagoPAGetUser/handler.ts:48-124 | run against the session storage, the outcome is `Handle` applied to what the store answered; the cache is read exactly when enabled, and the read answers what the cache held; the write happens exactly when the trace lists one and answers what `setPagoPaNoticeEmail` settles with; unless the write succeeds the store's values and expiries are unchanged; a write on a live, reachable session succeeds, sets the notice-email key to the written email and gives it the session's TTL; the staleness bound is preserved |
| `PagoPaGetUser.ServeTwice` | PagoPAGetUser/handler.ts:96-107 | with the cache enabled, a live reachable session and a profile that yields an email, a second request gives the same response and only reads the cache |
| `PagoPaGetUser.ServeTwiceWithoutTtl` | utils/sessionStorage.ts:69-72 | with a session TTL of -2, -1 or 0 and nothing cached, two requests make the same three calls each (read, query, write) and give the same response |
| `PagoPaGetUserScenarios.SucceedsWithValidUser` | PagoPaGetUser/__tests__/handler.test.ts:79-88 | cache disabled with a validated profile email: one query, one cache write of that email, success |
| `PagoPaGetUserScenarios.UnvalidatedEmailFailsValidation` | PagoPaGetUser/__tests__/handler.test.ts:90-104 | unvalidated email and no identity-provider email: no cache write, validation error |
| `PagoPaGetUserScenarios.MissingProfileIsNotFound` | PagoPaGetUser/__tests__/handler.test.ts:106-115 | missing profile: not-found, no cache read or write |
| `PagoPaGetUserScenarios.QueryFailureIsQueryError` | PagoPaGetUser/__tests__/handler.test.ts:117-126 | failed profile query: query error, no cache read or write |
| `PagoPaGetUserScenarios.CachedEmailIsUsed` | PagoPaGetUser/__tests__/handler.test.ts:128-134 | cache hit: success with the cached email, no write |
| `PagoPaGetUserScenarios.MissingCacheEntryFallsBack` | PagoPaGetUser/__tests__/handler.test.ts:136-148 | missing cache entry: read, query, one write of the profile email, success |
| `PagoPaGetUserScenarios.EmailChoice` | PagoPAGetUser/handler.ts:76-78 | a validated "a@x.it" beats the identity-provider "b@y.it"; an unvalidated one loses to it |
| `Strategy.Fulfill` | utils/strategy.ts:26-34 | left(error) gives `done(error)`, right(none) gives `done(undefined, false)`, right(some(user)) gives `done(undefined, user)` |
| `Strategy.TryDone` | utils/strategy.ts:50-63 | `done` is called with the given arguments; only if it throws is `done(e)` called with that exception, and only an exception from that second call escapes |
| `Strategy.VerifyWalletToken` | utils/strategy.ts:47-65 | the first `done` call is `fulfill`'s, or `done(undefined, false)` for a rejected lookup; if it throws, `done(e)` follows; only a found user ever authenticates |
| `Strategy.RejectedLookupIsUnauthenticated` | utils/strategy.ts:57-60 | a rejected lookup never authenticates anyone |

## Left out

- Redis client construction, clustering and connection handling (utils/redis.ts). The store is an abstract map. Client failures are a per-key set of failing commands, and a failed command changes nothing.
- There is no clock. Expiry is a remaining-seconds map, and keys do not age between commands.
- Concurrency: racing cache writers, and the gap between the TTL read and the SET, are not modelled. Every operation runs alone.
- The Promise, callback and `taskify` plumbing, including the `ttlTask` field the constructor builds. A method's result is the value the promise settles with. A thrown error is a `Rejected` outcome.
- The rejection branch of `loadSessionByToken` (utils/sessionStorage.ts:221-223) is not modelled. The inner promise only resolves, so that branch cannot fire.
- Error message text is kept only as the distinct error variants (`Errors.Error`). The client's messages are carried as strings.
- `parseJSON` is a parse-or-fail function given to the storage. JSON parsing itself is not modelled.
- `EmailString`, `FiscalCode` and the token brands of types/token are opaque predicates (`UserCodec.Formats`). types/token is not part of this model. `NonEmptyString` is modelled as non-empty.
- The generated `PagoPAUser` output schema is an opaque predicate supplied with the collaborators.
- The profile store (CosmosDB, `ProfileModel.findLastVersionByModelId`) is an input outcome: a failure, no profile, or a profile. A profile is reduced to its email and its `isEmailValidated` flag, and "latest version" is taken on trust.
- The Express, Azure Functions and Passport wiring are not modelled: the `PagoPaGetUser` wrapper, PagoPaGetUser/index.ts, the Ping function, the strategy options and `RequiredExpressUserMiddleware`. Fixture seeding and logging are left out too.
- `PagoPaGetUser.ServeTwice`: idempotence of the cache is proved only under the conditions listed above. The source does not promise it beyond them: a session without expiry makes `setPagoPaNoticeEmail` throw, a TTL of 0 makes SET fail, and without a candidate email nothing is cached. `PagoPaGetUser.ServeTwiceWithoutTtl` states the first two cases.
- `Strategy.VerifyWalletToken`: an exception raised by the second `done` call is reported as escaped. What then happens to the unhandled promise rejection is outside the model.
