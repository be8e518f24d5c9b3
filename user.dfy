/**
 * The user record stored as a session payload (types/user.ts): a common base
 * of required and optional attributes, three schema versions that differ in
 * the tokens they require, and the union of the three.
 *
 * Each io-ts codec is modelled as the predicate its `decode` checks on a JSON
 * value. io-ts hands back the very value it was given when it accepts it, so
 * a decoded `User` is the JSON object itself, extra properties included.
 */
module UserCodec {
  import opened Fp
  import opened Json
  import opened Errors

  /**
   * The refinements types/user.ts borrows from libraries outside this model:
   * `EmailString`, `FiscalCode` and the four token brands of types/token.
   * They are kept opaque: each is whatever predicate the library checks.
   */
  datatype Formats = Formats(
    isEmail: string -> bool,
    isFiscalCode: string -> bool,
    isSessionToken: string -> bool,
    isWalletToken: string -> bool,
    isMyPortalToken: string -> bool,
    isBpdToken: string -> bool)

  /** `NonEmptyString` */
  predicate NonEmpty(s: string) { |s| > 0 }

  /** `t.string`: every string is accepted */
  predicate AnyString(s: string) { true }

  /** A required `t.number` property. */
  predicate HasNumber(fields: map<string, Json>, key: string) {
    key in fields && fields[key].JNumber?
  }

  /** A required string property whose text `valid` accepts. */
  predicate HasString(fields: map<string, Json>, key: string, valid: string -> bool) {
    key in fields && fields[key].JString? && valid(fields[key].s)
  }

  /** A `t.partial` string property: absent, or a string `valid` accepts. */
  predicate MayHaveString(fields: map<string, Json>, key: string, valid: string -> bool) {
    key !in fields || (fields[key].JString? && valid(fields[key].s))
  }

  /**
   * `UserWithoutTokens`. `spid_level` is declared `t.unknown`, which accepts
   * every value and also a missing property, so it is not checked at all.
   */
  predicate IsUserWithoutTokens(fmt: Formats, j: Json)
    ensures IsUserWithoutTokens(fmt, j) ==>
      && j.JObject? && "created_at" in j.fields && j.fields["created_at"].JNumber?
      && Text(j, "family_name").Some? && Text(j, "name").Some?
      && Text(j, "fiscal_code").Some? && fmt.isFiscalCode(Text(j, "fiscal_code").value)
  {
    && j.JObject?
    && HasNumber(j.fields, "created_at")
    && HasString(j.fields, "family_name", AnyString)
    && HasString(j.fields, "fiscal_code", fmt.isFiscalCode)
    && HasString(j.fields, "name", AnyString)
    && MayHaveString(j.fields, "date_of_birth", AnyString)
    && MayHaveString(j.fields, "nameID", AnyString)
    && MayHaveString(j.fields, "nameIDFormat", AnyString)
    && MayHaveString(j.fields, "sessionIndex", AnyString)
    && MayHaveString(j.fields, "session_tracking_id", AnyString)
    && MayHaveString(j.fields, "spid_email", fmt.isEmail)
    && MayHaveString(j.fields, "spid_idp", AnyString)
    && MayHaveString(j.fields, "spid_mobile_phone", NonEmpty)
  }

  /** `RequiredUserTokensV1`: a session token and a wallet token. */
  predicate HasTokensV1(fmt: Formats, j: Json) {
    && j.JObject?
    && HasString(j.fields, "session_token", fmt.isSessionToken)
    && HasString(j.fields, "wallet_token", fmt.isWalletToken)
  }

  /** `RequiredUserTokensV2`: the V1 tokens and a MyPortal token. */
  predicate HasTokensV2(fmt: Formats, j: Json) {
    && HasTokensV1(fmt, j)
    && HasString(j.fields, "myportal_token", fmt.isMyPortalToken)
  }

  /** `RequiredUserTokensV3`: the V2 tokens and a BPD token. */
  predicate HasTokensV3(fmt: Formats, j: Json) {
    && HasTokensV2(fmt, j)
    && HasString(j.fields, "bpd_token", fmt.isBpdToken)
  }

  /** `UserV1`: the base attributes and the V1 tokens. */
  predicate IsUserV1(fmt: Formats, j: Json)
    ensures IsUserV1(fmt, j) ==>
      && IsUserWithoutTokens(fmt, j)
      && Text(j, "session_token").Some? && fmt.isSessionToken(Text(j, "session_token").value)
      && Text(j, "wallet_token").Some? && fmt.isWalletToken(Text(j, "wallet_token").value)
  {
    IsUserWithoutTokens(fmt, j) && HasTokensV1(fmt, j)
  }

  /** `UserV2`: the base attributes and the V2 tokens. */
  predicate IsUserV2(fmt: Formats, j: Json)
    ensures IsUserV2(fmt, j) ==>
      && IsUserV1(fmt, j)
      && Text(j, "myportal_token").Some? && fmt.isMyPortalToken(Text(j, "myportal_token").value)
  {
    IsUserWithoutTokens(fmt, j) && HasTokensV2(fmt, j)
  }

  /** `UserV3`: the base attributes and the V3 tokens. */
  predicate IsUserV3(fmt: Formats, j: Json)
    ensures IsUserV3(fmt, j) ==>
      && IsUserV2(fmt, j)
      && Text(j, "bpd_token").Some? && fmt.isBpdToken(Text(j, "bpd_token").value)
  {
    IsUserWithoutTokens(fmt, j) && HasTokensV3(fmt, j)
  }

  /** The union `User`: accepted when some variant accepts. */
  predicate IsUser(fmt: Formats, j: Json)
    ensures IsUser(fmt, j) ==> IsUserWithoutTokens(fmt, j) && HasTokensV1(fmt, j)
  {
    IsUserV1(fmt, j) || IsUserV2(fmt, j) || IsUserV3(fmt, j)
  }

  datatype Version = V1 | V2 | V3

  /** The variant `t.union` settles on: it tries UserV1, UserV2, UserV3 in turn. */
  function Variant(fmt: Formats, j: Json): (v: Option<Version>)
    ensures v.Some? <==> IsUser(fmt, j)
    ensures v == Some(V2) ==> !IsUserV1(fmt, j) && IsUserV2(fmt, j)
    ensures v == Some(V3) ==> !IsUserV1(fmt, j) && !IsUserV2(fmt, j) && IsUserV3(fmt, j)
  {
    if IsUserV1(fmt, j) then Some(V1)
    else if IsUserV2(fmt, j) then Some(V2)
    else if IsUserV3(fmt, j) then Some(V3)
    else None
  }

  /** `User.decode`: the value itself when a variant accepts it. */
  function DecodeUser(fmt: Formats, j: Json): (r: Either<Error, Json>)
    ensures r.Right? <==> IsUser(fmt, j)
    ensures r.Right? ==> r.right == j
    ensures r.Left? ==> r.left == InvalidUser
  {
    if Variant(fmt, j).Some? then Right(j) else Left(InvalidUser)
  }

  /** The text of a string property, if the value has one under `key`. */
  function Text(u: Json, key: string): Option<string> {
    if u.JObject? && key in u.fields && u.fields[key].JString? then Some(u.fields[key].s) else None
  }

  /** V3 requires everything V2 requires, and V2 everything V1 requires. */
  lemma SupersetChain(fmt: Formats, j: Json)
    ensures IsUserV3(fmt, j) ==> IsUserV2(fmt, j)
    ensures IsUserV2(fmt, j) ==> IsUserV1(fmt, j)
  {
  }

  /**
   * Because of the superset chain the union accepts exactly what UserV1
   * accepts, and it always settles on UserV1.
   */
  lemma UnionCollapsesToV1(fmt: Formats, j: Json)
    ensures IsUser(fmt, j) <==> IsUserV1(fmt, j)
    ensures Variant(fmt, j) == if IsUserV1(fmt, j) then Some(V1) else None
  {
  }

  /** Every accepted user carries a session token and a wallet token. */
  lemma UserCarriesTokens(fmt: Formats, u: Json)
    requires IsUser(fmt, u)
    ensures Text(u, "session_token").Some? && fmt.isSessionToken(Text(u, "session_token").value)
    ensures Text(u, "wallet_token").Some? && fmt.isWalletToken(Text(u, "wallet_token").value)
  {
  }

  /**
   * A value that is not an object, or an object without a numeric
   * `created_at`, without string names or without a valid fiscal code, is
   * rejected by every variant.
   */
  lemma MissingRequiredRejected(fmt: Formats, j: Json)
    requires j.JObject? ==>
               || !HasNumber(j.fields, "created_at")
               || !HasString(j.fields, "family_name", AnyString)
               || !HasString(j.fields, "name", AnyString)
               || !HasString(j.fields, "fiscal_code", fmt.isFiscalCode)
    ensures !IsUserV1(fmt, j) && !IsUserV2(fmt, j) && !IsUserV3(fmt, j)
    ensures DecodeUser(fmt, j) == Left(InvalidUser)
  {
  }

  /** The optional attributes with a format: present ones must meet it. */
  lemma OptionalFormats(fmt: Formats, u: Json)
    requires IsUser(fmt, u)
    ensures Text(u, "spid_email").Some? ==> fmt.isEmail(Text(u, "spid_email").value)
    ensures Text(u, "spid_mobile_phone").Some? ==> Text(u, "spid_mobile_phone").value != ""
    ensures "spid_email" in u.fields ==> Text(u, "spid_email").Some?
    ensures "spid_mobile_phone" in u.fields ==> Text(u, "spid_mobile_phone").Some?
  {
  }

  /** The names of the `t.partial` attributes. */
  const OptionalKeys: set<string> := {
    "date_of_birth", "nameID", "nameIDFormat", "sessionIndex",
    "session_tracking_id", "spid_email", "spid_idp", "spid_mobile_phone"
  }

  /** Dropping an optional attribute never turns an accepted user into a rejected one. */
  lemma OptionalMayBeAbsent(fmt: Formats, f: map<string, Json>, key: string)
    requires key in OptionalKeys
    requires IsUser(fmt, JObject(f))
    ensures IsUser(fmt, JObject(f - {key}))
  {
  }

  /** Two objects that agree everywhere but on `spid_level` are accepted alike. */
  lemma AgreeOutsideSpidLevel(fmt: Formats, f: map<string, Json>, g: map<string, Json>)
    requires forall k :: k != "spid_level" ==> (k in f <==> k in g)
    requires forall k :: k != "spid_level" && k in f ==> f[k] == g[k]
    ensures IsUserV1(fmt, JObject(f)) <==> IsUserV1(fmt, JObject(g))
  {
  }

  /** `spid_level` is `t.unknown`: its value, or its absence, never decides acceptance. */
  lemma SpidLevelUnconstrained(fmt: Formats, f: map<string, Json>, level: Json)
    ensures IsUser(fmt, JObject(f)) <==> IsUser(fmt, JObject(f["spid_level" := level]))
    ensures IsUser(fmt, JObject(f)) <==> IsUser(fmt, JObject(f - {"spid_level"}))
  {
    var g, h := f["spid_level" := level], f - {"spid_level"};
    UnionCollapsesToV1(fmt, JObject(f));
    UnionCollapsesToV1(fmt, JObject(g));
    UnionCollapsesToV1(fmt, JObject(h));
    AgreeOutsideSpidLevel(fmt, f, g);
    AgreeOutsideSpidLevel(fmt, f, h);
  }
}
