/**
 * The handler behind GET /api/v1/user (PagoPAGetUser/handler.ts,
 * `PagoPaGetUserHandler`): it answers with the user's data and notice email,
 * reading the notice-email cache first when it is enabled and falling back to
 * the latest profile, whose answer it caches on a best-effort basis.
 *
 * `Handle` is the decision procedure on its own: what each collaborator
 * answers is an input, and the calls it makes come out as a trace. `Serve`
 * runs the same procedure against the session storage.
 */
module PagoPaGetUser {
  import opened Fp
  import opened Errors
  import opened Json
  import opened UserCodec
  import opened SessionStore

  /** The latest profile of the user, as far as the handler reads it. */
  datatype Profile = Profile(email: Option<string>, isEmailValidated: bool)

  /** A failure of the profile query, carried into the query-error response. */
  datatype QueryFailure = QueryFailure(detail: string)

  /** The record handed to the output schema `PagoPAUser`; a missing value is `None`. */
  datatype PagoPAUser = PagoPAUser(
    familyName: Option<string>,
    fiscalCode: Option<string>,
    mobilePhone: Option<string>,
    name: Option<string>,
    noticeEmail: Option<string>,
    spidEmail: Option<string>)

  /** The four kinds of response the handler can give. */
  datatype Response =
    | ResponseSuccessJson(body: PagoPAUser)
    | ResponseErrorNotFound(title: string, detail: string)
    | ResponseErrorValidation(title: string, detail: string)
    | ResponseErrorQuery(detail: string, failure: QueryFailure)

  /** A call to a collaborator that does I/O. */
  datatype Call =
    | GetNoticeEmail(user: Json)
    | FindLastProfile(fiscalCode: Option<string>)
    | SetNoticeEmail(user: Json, email: string)

  /** What each collaborator answers in one request. */
  datatype Collaborators = Collaborators(
    /** `getPagoPaNoticeEmail` */
    cacheRead: Settled<Either<Error, string>, Error>,
    /** `findLastVersionByModelId` */
    profile: Either<QueryFailure, Option<Profile>>,
    /** `setPagoPaNoticeEmail` */
    cacheWrite: Settled<Either<Error, bool>, Error>,
    /** `PagoPAUser.decode` succeeds */
    isPagoPAUser: PagoPAUser -> bool)

  /** The notice email found so far (or the response already decided) and the calls made. */
  datatype Resolution = Resolution(result: Either<Response, Option<string>>, calls: seq<Call>)

  datatype Outcome = Outcome(response: Response, calls: seq<Call>)

  const QueryErrorDetail := "Error while retrieving the profile"
  const NotFoundTitle := "Profile not found"
  const NotFoundDetail := "The profile you requested was not found in the system."
  const ValidationTitle := "Validation Error"
  const ValidationDetail := "Invalid User Data"

  /**
   * The profile email when it is set (a non-empty string) and validated,
   * otherwise the email the identity provider gave.
   */
  function NoticeEmailCandidate(user: Json, profile: Profile): (e: Option<string>)
    ensures e == profile.email || e == Text(user, "spid_email")
    ensures e != Text(user, "spid_email") ==> profile.isEmailValidated && e.Some? && e.value != ""
  {
    if profile.email.Some? && profile.email.value != "" && profile.isEmailValidated
    then profile.email
    else Text(user, "spid_email")
  }

  /** `getProfileAndSaveNoticeEmailCache`: the profile query, then the cache write when there is an email. */
  function ProfileLookup(user: Json, c: Collaborators): (res: Resolution)
    ensures 1 <= |res.calls| <= 2 && res.calls[0] == FindLastProfile(Text(user, "fiscal_code"))
    ensures res.result.Left? <==> !(c.profile.Right? && c.profile.right.Some?)
    ensures c.profile.Left? ==> res.result == Left(ResponseErrorQuery(QueryErrorDetail, c.profile.left))
    ensures c.profile == Right(None) ==> res.result == Left(ResponseErrorNotFound(NotFoundTitle, NotFoundDetail))
    ensures |res.calls| == 2 <==> res.result.Right? && res.result.right.Some?
    ensures |res.calls| == 2 ==> res.calls[1] == SetNoticeEmail(user, res.result.right.value)
  {
    var query := [FindLastProfile(Text(user, "fiscal_code"))];
    match c.profile
    case Left(failure) => Resolution(Left(ResponseErrorQuery(QueryErrorDetail, failure)), query)
    case Right(None) => Resolution(Left(ResponseErrorNotFound(NotFoundTitle, NotFoundDetail)), query)
    case Right(Some(profile)) =>
      match NoticeEmailCandidate(user, profile)
      case None => Resolution(Right(None), query)
      // whatever the write answers, and whether it rejects, the email stands
      case Some(email) => Resolution(Right(Some(email)), query + [SetNoticeEmail(user, email)])
  }

  /** The cache read: a cached email settles the matter, anything else falls back to the profile. */
  function CacheLookup(user: Json, c: Collaborators): (res: Resolution)
    ensures |res.calls| >= 1 && res.calls[0] == GetNoticeEmail(user)
    ensures c.cacheRead.Resolved? && c.cacheRead.value.Right? ==>
      res.result == Right(Some(c.cacheRead.value.right)) && |res.calls| == 1
    ensures !(c.cacheRead.Resolved? && c.cacheRead.value.Right?) ==>
      res.result == ProfileLookup(user, c).result && res.calls[1..] == ProfileLookup(user, c).calls
  {
    match c.cacheRead
    case Resolved(Right(email)) => Resolution(Right(Some(email)), [GetNoticeEmail(user)])
    case _ =>
      var fallback := ProfileLookup(user, c);
      Resolution(fallback.result, [GetNoticeEmail(user)] + fallback.calls)
  }

  /** The record validated against `PagoPAUser`. */
  function OutputRecord(user: Json, noticeEmail: Option<string>): (rec: PagoPAUser)
    ensures rec.noticeEmail == noticeEmail
    ensures && rec.familyName == Text(user, "family_name") && rec.fiscalCode == Text(user, "fiscal_code")
            && rec.mobilePhone == Text(user, "spid_mobile_phone") && rec.name == Text(user, "name")
            && rec.spidEmail == Text(user, "spid_email")
  {
    PagoPAUser(
      familyName := Text(user, "family_name"),
      fiscalCode := Text(user, "fiscal_code"),
      mobilePhone := Text(user, "spid_mobile_phone"),
      name := Text(user, "name"),
      noticeEmail := noticeEmail,
      spidEmail := Text(user, "spid_email"))
  }

  /** The final decode into the success or the validation-error response. */
  function Validate(isPagoPAUser: PagoPAUser -> bool, record: PagoPAUser): (resp: Response)
    ensures resp.ResponseSuccessJson? <==> isPagoPAUser(record)
    ensures resp.ResponseSuccessJson? ==> resp.body == record
    ensures !resp.ResponseSuccessJson? ==> resp == ResponseErrorValidation(ValidationTitle, ValidationDetail)
  {
    if isPagoPAUser(record) then ResponseSuccessJson(record)
    else ResponseErrorValidation(ValidationTitle, ValidationDetail)
  }

  /** `PagoPaGetUserHandler`, for one request. */
  function Handle(user: Json, cacheEnabled: bool, c: Collaborators): (o: Outcome)
    ensures GetNoticeEmail(user) in o.calls <==> cacheEnabled
    ensures 1 <= |o.calls| <= 3
    ensures o.response.ResponseSuccessJson? ==>
      c.isPagoPAUser(o.response.body) && o.response.body.fiscalCode == Text(user, "fiscal_code")
    ensures o.response.ResponseErrorQuery? ==> c.profile.Left? && FindLastProfile(Text(user, "fiscal_code")) in o.calls
    ensures o.response.ResponseErrorNotFound? ==> c.profile == Right(None)
    ensures forall call :: call in o.calls && call.SetNoticeEmail? ==> call.user == user && c.profile.Right?
  {
    var resolution := if cacheEnabled then CacheLookup(user, c) else ProfileLookup(user, c);
    var response := match resolution.result
      case Left(failure) => failure
      case Right(noticeEmail) => Validate(c.isPagoPAUser, OutputRecord(user, noticeEmail));
    Outcome(response, resolution.calls)
  }

  /** With the cache disabled the cache is never read, and what it would answer is irrelevant. */
  lemma CacheDisabledIgnoresCache(user: Json, c: Collaborators, read: Settled<Either<Error, string>, Error>)
    ensures forall call :: call in Handle(user, false, c).calls ==> !call.GetNoticeEmail?
    ensures Handle(user, false, c) == Handle(user, false, c.(cacheRead := read))
    ensures Handle(user, false, c).calls[0] == FindLastProfile(Text(user, "fiscal_code"))
  {
  }

  /** A cached email is the answer: no profile query, no cache write. */
  lemma CacheHit(user: Json, c: Collaborators, email: string)
    requires c.cacheRead == Resolved(Right(email))
    ensures Handle(user, true, c).calls == [GetNoticeEmail(user)]
    ensures Handle(user, true, c).response == Validate(c.isPagoPAUser, OutputRecord(user, Some(email)))
  {
  }

  /** A cache read that fails or rejects is followed by exactly what happens with the cache disabled. */
  lemma CacheMissFallsBack(user: Json, c: Collaborators)
    requires !(c.cacheRead.Resolved? && c.cacheRead.value.Right?)
    ensures Handle(user, true, c).response == Handle(user, false, c).response
    ensures Handle(user, true, c).calls == [GetNoticeEmail(user)] + Handle(user, false, c).calls
  {
  }

  /** On the profile path a failed query or a missing profile ends the request without a cache write. */
  lemma ProfileFailuresSkipCacheWrite(user: Json, cacheEnabled: bool, c: Collaborators)
    requires !cacheEnabled || !(c.cacheRead.Resolved? && c.cacheRead.value.Right?)
    requires c.profile.Left? || c.profile == Right(None)
    ensures c.profile.Left? ==> Handle(user, cacheEnabled, c).response == ResponseErrorQuery(QueryErrorDetail, c.profile.left)
    ensures c.profile == Right(None) ==>
      Handle(user, cacheEnabled, c).response == ResponseErrorNotFound(NotFoundTitle, NotFoundDetail)
    ensures forall call :: call in Handle(user, cacheEnabled, c).calls ==> !call.SetNoticeEmail?
  {
  }

  /** The validated profile email wins over the identity provider's; an absent candidate is no email. */
  lemma CandidateChoice(user: Json, profile: Profile)
    ensures profile.isEmailValidated && profile.email.Some? && profile.email.value != "" ==>
      NoticeEmailCandidate(user, profile) == profile.email
    ensures !profile.isEmailValidated || profile.email.None? ==>
      NoticeEmailCandidate(user, profile) == Text(user, "spid_email")
  {
  }

  /**
   * A profile was found: the candidate email is what the response carries,
   * and it is written to the cache exactly once when there is one.
   */
  lemma ProfileFoundWritesCandidate(user: Json, cacheEnabled: bool, c: Collaborators, profile: Profile)
    requires !cacheEnabled || !(c.cacheRead.Resolved? && c.cacheRead.value.Right?)
    requires c.profile == Right(Some(profile))
    ensures var candidate := NoticeEmailCandidate(user, profile);
      && Handle(user, cacheEnabled, c).response == Validate(c.isPagoPAUser, OutputRecord(user, candidate))
      && Handle(user, cacheEnabled, c).calls ==
           (if cacheEnabled then [GetNoticeEmail(user)] else [])
           + [FindLastProfile(Text(user, "fiscal_code"))]
           + (if candidate.Some? then [SetNoticeEmail(user, candidate.value)] else [])
  {
  }

  /** Whatever the cache write answers, and whether it rejects, the outcome is the same. */
  lemma CacheWriteOutcomeIgnored(user: Json, cacheEnabled: bool, c: Collaborators, write: Settled<Either<Error, bool>, Error>)
    ensures Handle(user, cacheEnabled, c) == Handle(user, cacheEnabled, c.(cacheWrite := write))
  {
  }

  /**
   * Every response is one of the four kinds; a success carries the user's
   * data exactly; the record built with the resolved notice email decides
   * between success and a validation error.
   */
  lemma ResponseShape(user: Json, cacheEnabled: bool, c: Collaborators)
    ensures var r := Handle(user, cacheEnabled, c).response;
      r.ResponseSuccessJson? || r.ResponseErrorNotFound? || r.ResponseErrorValidation? || r.ResponseErrorQuery?
    ensures var r := Handle(user, cacheEnabled, c).response;
      r.ResponseSuccessJson? ==>
        && r.body.familyName == Text(user, "family_name")
        && r.body.fiscalCode == Text(user, "fiscal_code")
        && r.body.mobilePhone == Text(user, "spid_mobile_phone")
        && r.body.name == Text(user, "name")
        && r.body.spidEmail == Text(user, "spid_email")
    ensures var r := Handle(user, cacheEnabled, c).response;
      var resolved := (if cacheEnabled then CacheLookup(user, c) else ProfileLookup(user, c)).result;
      && (r.ResponseErrorValidation? <==> resolved.Right? && !c.isPagoPAUser(OutputRecord(user, resolved.right)))
      && (r.ResponseSuccessJson? <==> resolved.Right? && c.isPagoPAUser(OutputRecord(user, resolved.right)))
  {
  }

  /**
   * The handler run against the session storage: the cache read and the
   * cache write its trace lists are performed on the store. `read` and
   * `write` are what the store answered to the calls that were made (`None`
   * for a call not made); an answer to a call not made never matters.
   */
  method Serve(storage: SessionStorage, user: Json, cacheEnabled: bool,
               profile: Either<QueryFailure, Option<Profile>>, isPagoPAUser: PagoPAUser -> bool)
    returns (o: Outcome, read: Option<Settled<Either<Error, string>, Error>>,
             write: Option<Settled<Either<Error, bool>, Error>>)
    requires IsUser(storage.formats, user)
    requires storage.redisClient.Valid()
    modifies storage.redisClient
    ensures storage.redisClient.Valid() && storage.redisClient.failing == old(storage.redisClient.failing)
    ensures forall r, w :: read.None? || r == read.value ==>
      o == Handle(user, cacheEnabled, Collaborators(r, profile, w, isPagoPAUser))
    ensures read.Some? <==> cacheEnabled
    ensures read.Some? ==> read.value == Resolved(old(storage.CachedNoticeEmail(SessionTokenOf(user))))
    ensures write.Some? <==> exists e :: SetNoticeEmail(user, e) in o.calls
    ensures write.Some? ==> write.value == old(storage.NoticeEmailWriteAnswer(SessionTokenOf(user)))
    ensures write != Some(Resolved(Right(true))) ==>
      && storage.redisClient.values == old(storage.redisClient.values)
      && storage.redisClient.expires == old(storage.redisClient.expires)
    ensures forall e :: SetNoticeEmail(user, e) in o.calls ==>
      var token := SessionTokenOf(user);
      SessionKey(token) !in storage.redisClient.failing
        && old(storage.redisClient.Remaining(SessionKey(token))) > 0
        && NoticeEmailKey(token) !in storage.redisClient.failing
      ==> && write == Some(Resolved(Right(true)))
          && storage.redisClient.values == old(storage.redisClient.values)[NoticeEmailKey(token) := e]
          && storage.redisClient.expires ==
               old(storage.redisClient.expires)[NoticeEmailKey(token) := old(storage.redisClient.Remaining(SessionKey(token)))]
    ensures CacheBounded(old(storage.redisClient.values), old(storage.redisClient.expires)) ==>
      CacheBounded(storage.redisClient.values, storage.redisClient.expires)
  {
    var answer: Settled<Either<Error, string>, Error> := Rejected(NoticeEmailNotFound);
    read, write := None, None;
    if cacheEnabled {
      var cached := storage.GetPagoPaNoticeEmail(user);
      answer := Resolved(cached);
      read := Some(answer);
    }
    var c := Collaborators(answer, profile, Resolved(Right(true)), isPagoPAUser);
    var hit := answer.Resolved? && answer.value.Right?;
    if cacheEnabled && hit {
      CacheHit(user, c, answer.value.right);
    } else if profile.Right? && profile.right.Some? {
      var candidate := NoticeEmailCandidate(user, profile.right.value);
      ProfileFoundWritesCandidate(user, cacheEnabled, c, profile.right.value);
      if candidate.Some? {
        var written := storage.SetPagoPaNoticeEmail(user, candidate.value);
        write := Some(written);
        NamespacesDisjoint(SessionTokenOf(user), SessionTokenOf(user));
      }
    } else {
      ProfileFailuresSkipCacheWrite(user, cacheEnabled, c);
    }
    o := Handle(user, cacheEnabled, c);
    forall r, w | read.None? || r == read.value
      ensures o == Handle(user, cacheEnabled, Collaborators(r, profile, w, isPagoPAUser))
    {
      if !cacheEnabled {
        CacheDisabledIgnoresCache(user, c, r);
      }
      CacheWriteOutcomeIgnored(user, cacheEnabled, c.(cacheRead := r), w);
    }
  }

  /**
   * Cache-aside idempotence: with the cache enabled, a reachable session
   * that still has time to live and a profile that yields an email, a second
   * request gives the same response as the first and reads only the cache.
   */
  method ServeTwice(storage: SessionStorage, user: Json, profile: Profile, isPagoPAUser: PagoPAUser -> bool)
    returns (first: Outcome, second: Outcome)
    requires IsUser(storage.formats, user)
    requires storage.redisClient.Valid()
    requires SessionKey(SessionTokenOf(user)) !in storage.redisClient.failing
    requires NoticeEmailKey(SessionTokenOf(user)) !in storage.redisClient.failing
    requires storage.redisClient.Remaining(SessionKey(SessionTokenOf(user))) > 0
    requires NoticeEmailCandidate(user, profile).Some?
    requires profile.email.Some? ==> storage.formats.isEmail(profile.email.value)
    modifies storage.redisClient
    ensures second.response == first.response
    ensures second.calls == [GetNoticeEmail(user)]
  {
    var token := SessionTokenOf(user);
    var candidate := NoticeEmailCandidate(user, profile).value;
    OptionalFormats(storage.formats, user);
    assert storage.formats.isEmail(candidate);
    var read1, write1, read2, write2;
    first, read1, write1 := Serve(storage, user, true, Right(Some(profile)), isPagoPAUser);
    var c1 := Collaborators(read1.value, Right(Some(profile)), Resolved(Right(true)), isPagoPAUser);
    assert first == Handle(user, true, c1);
    ghost var answer: string;
    if read1.value.value.Right? {
      answer := read1.value.value.right;
      CacheHit(user, c1, answer);
      assert storage.redisClient.values == old(storage.redisClient.values);
    } else {
      answer := candidate;
      ProfileFoundWritesCandidate(user, true, c1, profile);
      assert SetNoticeEmail(user, candidate) in first.calls;
    }
    assert first.response == Validate(isPagoPAUser, OutputRecord(user, Some(answer)));
    assert storage.CachedNoticeEmail(token) == Right(answer);
    second, read2, write2 := Serve(storage, user, true, Right(Some(profile)), isPagoPAUser);
    var c2 := Collaborators(read2.value, Right(Some(profile)), Resolved(Right(true)), isPagoPAUser);
    assert second == Handle(user, true, c2);
    CacheHit(user, c2, answer);
  }

  /**
   * Without time to live on the session (no expiry, a missing session key,
   * or no seconds left) the notice email is never cached: every request
   * misses the cache, queries the profile and tries the write again.
   */
  method ServeTwiceWithoutTtl(storage: SessionStorage, user: Json, profile: Profile, isPagoPAUser: PagoPAUser -> bool)
    returns (first: Outcome, second: Outcome)
    requires IsUser(storage.formats, user)
    requires storage.redisClient.Valid()
    requires storage.redisClient.Remaining(SessionKey(SessionTokenOf(user))) <= 0
    requires NoticeEmailKey(SessionTokenOf(user)) !in storage.redisClient.values
    requires NoticeEmailCandidate(user, profile).Some?
    modifies storage.redisClient
    ensures var calls := [GetNoticeEmail(user), FindLastProfile(Text(user, "fiscal_code")),
                          SetNoticeEmail(user, NoticeEmailCandidate(user, profile).value)];
      first.calls == calls && second.calls == calls
    ensures second.response == first.response
  {
    var token := SessionTokenOf(user);
    var read1, write1, read2, write2;
    first, read1, write1 := Serve(storage, user, true, Right(Some(profile)), isPagoPAUser);
    var c1 := Collaborators(read1.value, Right(Some(profile)), Resolved(Right(true)), isPagoPAUser);
    assert first == Handle(user, true, c1);
    ProfileFoundWritesCandidate(user, true, c1, profile);
    assert storage.redisClient.values == old(storage.redisClient.values);
    second, read2, write2 := Serve(storage, user, true, Right(Some(profile)), isPagoPAUser);
    var c2 := Collaborators(read2.value, Right(Some(profile)), Resolved(Right(true)), isPagoPAUser);
    assert second == Handle(user, true, c2);
    ProfileFoundWritesCandidate(user, true, c2, profile);
  }
}

/** The scenarios of the handler's test suite, and two more about the choice of email. */
module PagoPaGetUserScenarios {
  import opened Fp
  import opened Errors
  import opened Json
  import opened PagoPaGetUser

  /** The test suite's user: it carries all four tokens and no identity-provider email. */
  const ValidUser := JObject(map[
    "name" := JString("Mario"),
    "family_name" := JString("Rossi"),
    "fiscal_code" := JString("RSSMRI01A02B123C"),
    "spid_level" := JString("SpidL2"),
    "created_at" := JNumber(1.0),
    "bpd_token" := JString("token"),
    "session_token" := JString("session-token"),
    "myportal_token" := JString("token"),
    "wallet_token" := JString("wallet-token")])

  const UserEmail := "email@example.it"
  const ValidatedProfile := Profile(Some(UserEmail), true)

  /** Cache disabled, validated profile email: it is cached and returned. */
  lemma SucceedsWithValidUser(c: Collaborators)
    requires c.profile == Right(Some(ValidatedProfile))
    requires c.isPagoPAUser(OutputRecord(ValidUser, Some(UserEmail)))
    ensures Handle(ValidUser, false, c).calls ==
      [FindLastProfile(Some("RSSMRI01A02B123C")), SetNoticeEmail(ValidUser, UserEmail)]
    ensures Handle(ValidUser, false, c).response.ResponseSuccessJson?
  {
  }

  /**
   * Unvalidated profile email and no identity-provider email: no email, no
   * cache write, and the schema (which wants a notice email) refuses the record.
   */
  lemma UnvalidatedEmailFailsValidation(c: Collaborators)
    requires c.profile == Right(Some(ValidatedProfile.(isEmailValidated := false)))
    requires !c.isPagoPAUser(OutputRecord(ValidUser, None))
    ensures Handle(ValidUser, false, c).calls == [FindLastProfile(Some("RSSMRI01A02B123C"))]
    ensures Handle(ValidUser, false, c).response.ResponseErrorValidation?
  {
  }

  /** No profile: not found, and neither the cache nor the write is touched. */
  lemma MissingProfileIsNotFound(c: Collaborators)
    requires c.profile == Right(None)
    ensures Handle(ValidUser, false, c).calls == [FindLastProfile(Some("RSSMRI01A02B123C"))]
    ensures Handle(ValidUser, false, c).response.ResponseErrorNotFound?
  {
  }

  /** The profile query fails: query error, no cache write. */
  lemma QueryFailureIsQueryError(c: Collaborators, failure: QueryFailure)
    requires c.profile == Left(failure)
    ensures Handle(ValidUser, false, c).calls == [FindLastProfile(Some("RSSMRI01A02B123C"))]
    ensures Handle(ValidUser, false, c).response == ResponseErrorQuery(QueryErrorDetail, failure)
  {
  }

  /** Cache enabled and holding an email: that email, and no write. */
  lemma CachedEmailIsUsed(c: Collaborators)
    requires c.cacheRead == Resolved(Right(UserEmail))
    requires c.isPagoPAUser(OutputRecord(ValidUser, Some(UserEmail)))
    ensures Handle(ValidUser, true, c).calls == [GetNoticeEmail(ValidUser)]
    ensures Handle(ValidUser, true, c).response == ResponseSuccessJson(OutputRecord(ValidUser, Some(UserEmail)))
  {
  }

  /** Cache enabled but the key is missing: the profile is read and its email cached once. */
  lemma MissingCacheEntryFallsBack(c: Collaborators)
    requires c.cacheRead == Resolved(Left(NoticeEmailNotFound))
    requires c.profile == Right(Some(ValidatedProfile))
    requires c.isPagoPAUser(OutputRecord(ValidUser, Some(UserEmail)))
    ensures Handle(ValidUser, true, c).calls ==
      [GetNoticeEmail(ValidUser), FindLastProfile(Some("RSSMRI01A02B123C")), SetNoticeEmail(ValidUser, UserEmail)]
    ensures Handle(ValidUser, true, c).response == ResponseSuccessJson(OutputRecord(ValidUser, Some(UserEmail)))
  {
  }

  /** A validated profile email wins over the identity provider's; an unvalidated one loses to it. */
  lemma EmailChoice()
    ensures var user := JObject(ValidUser.fields["spid_email" := JString("b@y.it")]);
      && NoticeEmailCandidate(user, Profile(Some("a@x.it"), true)) == Some("a@x.it")
      && NoticeEmailCandidate(user, Profile(Some("a@x.it"), false)) == Some("b@y.it")
  {
  }
}
