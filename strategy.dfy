/**
 * The Passport bearer strategy's verify callback (utils/strategy.ts): it looks
 * the wallet token up in the session storage and reports the result to
 * Passport's `done(error, user)`.
 */
module Strategy {
  import opened Fp
  import opened Errors
  import opened Json

  /** The second argument of `done`: left out, `false` (no user), or the user. */
  datatype Verdict = Omitted | NoUser | Authenticated(user: Json)

  /** One call `done(error, user)`; `error` is `None` for `undefined`. */
  datatype DoneCall = DoneCall(error: Option<Error>, user: Verdict)

  /** The calls made to `done`, and the exception that escaped the callback, if any. */
  datatype Report = Report(calls: seq<DoneCall>, escaped: Option<Error>)

  /**
   * `fulfill`: an error is passed as the error, no user as `false`, a user
   * as the user.
   */
  function Fulfill(errorOrUser: Either<Error, Option<Json>>): (call: DoneCall)
    ensures call.error.Some? <==> errorOrUser.Left?
    ensures errorOrUser.Left? ==> call == DoneCall(Some(errorOrUser.left), Omitted)
    ensures call == DoneCall(None, NoUser) <==> errorOrUser == Right(None)
    ensures call.user.Authenticated? <==> errorOrUser.Right? && errorOrUser.right.Some?
    ensures call.user.Authenticated? ==> call.user.user == errorOrUser.right.value
  {
    match errorOrUser
    case Left(error) => DoneCall(Some(error), Omitted)
    case Right(None) => DoneCall(None, NoUser)
    case Right(Some(user)) => DoneCall(None, Authenticated(user))
  }

  /**
   * One call to `done` inside `try`, with `done(e)` in the `catch`: `throws`
   * says which exception, if any, `done` raises for given arguments. An
   * exception raised by the second call escapes.
   */
  function TryDone(first: DoneCall, throws: DoneCall -> Option<Error>): (r: Report)
    ensures 1 <= |r.calls| <= 2 && r.calls[0] == first
    ensures |r.calls| == 2 <==> throws(first).Some?
    ensures |r.calls| == 2 ==> r.calls[1] == DoneCall(throws(first), Omitted) && r.escaped == throws(r.calls[1])
    ensures |r.calls| == 1 ==> r.escaped.None?
  {
    match throws(first)
    case None => Report([first], None)
    case Some(e) =>
      var second := DoneCall(Some(e), Omitted);
      Report([first, second], throws(second))
  }

  /**
   * The verify callback, once `getByWalletToken` has settled: a resolved
   * lookup goes through `fulfill`, a rejected one counts as no user.
   */
  function VerifyWalletToken(lookup: Settled<Either<Error, Option<Json>>, Error>,
                             throws: DoneCall -> Option<Error>): (r: Report)
    ensures 1 <= |r.calls| <= 2
    ensures lookup.Resolved? ==> r.calls[0] == Fulfill(lookup.value)
    ensures lookup.Rejected? ==> r.calls[0] == DoneCall(None, NoUser)
    ensures |r.calls| == 2 <==> throws(r.calls[0]).Some?
    ensures |r.calls| == 2 ==> r.calls[1] == DoneCall(throws(r.calls[0]), Omitted)
    ensures r.escaped.Some? <==> |r.calls| == 2 && throws(r.calls[1]).Some?
    ensures r.escaped.Some? ==> r.escaped == throws(r.calls[1])
    ensures (exists c :: c in r.calls && c.user.Authenticated?) ==>
      lookup.Resolved? && lookup.value.Right? && lookup.value.right.Some?
  {
    match lookup
    case Resolved(errorOrUser) => TryDone(Fulfill(errorOrUser), throws)
    case Rejected(_) => TryDone(DoneCall(None, NoUser), throws)
  }

  /** Only a user found under the wallet token authenticates; a rejected lookup is "no user". */
  lemma RejectedLookupIsUnauthenticated(reason: Error, throws: DoneCall -> Option<Error>)
    ensures var r := VerifyWalletToken(Rejected(reason), throws);
      && r.calls[0] == DoneCall(None, NoUser)
      && forall c :: c in r.calls ==> !c.user.Authenticated?
  {
  }
}
