/** helpers/tokenHelper.go: issuing the access and refresh tokens, storing them on a user,
    and validating a presented token. Signing and parsing (HS256 with the configured
    secret) are parameters. The parser is given the clock because the JWT library may
    refuse a token whose `exp` has passed before the handler's own check runs; the
    lemmas hold whether or not it does. */
module Tokens {
  import opened Wrappers
  import opened Clock
  import opened Documents
  import opened Stores

  /** `SignedDetails`: the identity claims and the expiry in Unix seconds. */
  datatype Claims = Claims(email: string, firstName: string, lastName: string, uid: string, expiresAt: int)

  /** What the token parser makes of a token: its claims, an error with its text, or claims
      of another type than `SignedDetails`. */
  datatype Parsed = Parsed(claims: Claims) | Malformed(reason: string) | ForeignClaims

  datatype TokenPair = TokenPair(token: string, refreshToken: string)

  const AccessLifetime: int := 24 * Hour
  const RefreshLifetime: int := 168 * Hour

  /** The access token's claims: the full identity, expiring a day after `now`. */
  function AccessClaims(email: string, firstName: string, lastName: string, uid: string, now: Instant): Claims
  {
    Claims(email, firstName, lastName, uid, UnixSeconds(now + AccessLifetime))
  }

  /** The refresh token's claims: no identity at all, expiring a week after `now`. */
  function RefreshClaims(now: Instant): Claims
  {
    Claims("", "", "", "", UnixSeconds(now + RefreshLifetime))
  }

  /** `GenerateAllTokens`: the access token signs the user's identity with an expiry a day
      after the second of issue; the refresh token signs no identity, expiring a week after. */
  function GenerateAllTokens(email: string, firstName: string, lastName: string, uid: string, now: Instant, sign: Claims -> string): (pair: TokenPair)
    ensures pair.token == sign(Claims(email, firstName, lastName, uid, UnixSeconds(now) + 86400))
    ensures pair.refreshToken == sign(Claims("", "", "", "", UnixSeconds(now) + 604800))
  {
    UnixSecondsAfterHours(now, 24);
    UnixSecondsAfterHours(now, 168);
    TokenPair(sign(AccessClaims(email, firstName, lastName, uid, now)), sign(RefreshClaims(now)))
  }

  /** The access token expires 86400 seconds and the refresh token 604800 seconds after
      the second of issue; only the access token names the user. */
  lemma TokenLifetimes(email: string, firstName: string, lastName: string, uid: string, now: Instant)
    ensures AccessClaims(email, firstName, lastName, uid, now).expiresAt == UnixSeconds(now) + 86400
    ensures RefreshClaims(now).expiresAt == UnixSeconds(now) + 604800
    ensures var c := AccessClaims(email, firstName, lastName, uid, now);
      c.email == email && c.firstName == firstName && c.lastName == lastName && c.uid == uid
    ensures var c := RefreshClaims(now);
      c.email == "" && c.firstName == "" && c.lastName == "" && c.uid == ""
  {
    UnixSecondsAfterHours(now, 24);
    UnixSecondsAfterHours(now, 168);
  }

  /** The `$set` document of `UpdateAllTokens`. */
  function TokenChanges(pair: TokenPair, now: Instant): (staged: Doc)
    ensures staged.Keys == {"token", "refresh_token", "updated_at"}
    ensures staged["token"] == Str(pair.token) && staged["refresh_token"] == Str(pair.refreshToken)
    ensures staged["updated_at"] == Stamp(now)
  {
    map["token" := Str(pair.token), "refresh_token" := Str(pair.refreshToken), "updated_at" := Stamp(now)]
  }

  /** `UpdateAllTokens`: the two tokens and `updated_at` are `$set` on the user keyed by
      `user_id`, inserting one if there is none. */
  function UpdateAllTokens(users: Collection, pair: TokenPair, userId: string, env: Env): (r: Collection)
    ensures Upserted(users, r, "user_id", userId, TokenChanges(pair, env.now), env.upsertedId)
  {
    UpdateOneUpsert(users, "user_id", userId, TokenChanges(pair, env.now), env.upsertedId)
  }

  /** The two results of `ValidateToken`: the claims (nil when absent) and a message that
      is empty exactly on success. */
  datatype Validation = Validation(claims: Option<Claims>, msg: string)

  /** `ValidateToken`. An expired token still hands back its claims next to the message. */
  function ValidateToken(token: string, now: Instant, parse: (string, Instant) -> Parsed): (r: Validation)
    ensures parse(token, now).Parsed? ==> r.claims == Some(parse(token, now).claims)
    ensures parse(token, now).Parsed? ==> (r.msg == "" <==> parse(token, now).claims.expiresAt >= UnixSeconds(now))
    ensures parse(token, now).Parsed? && r.msg != "" ==> r.msg == "token is expired"
    ensures !parse(token, now).Parsed? ==> r.claims.None?
    ensures parse(token, now).Malformed? ==> r.msg == parse(token, now).reason
    ensures parse(token, now).ForeignClaims? ==> r.msg == "the token is invalid"
  {
    match parse(token, now)
    case Malformed(reason) => Validation(None, reason)
    case ForeignClaims => Validation(None, "the token is invalid")
    case Parsed(claims) =>
      if claims.expiresAt < UnixSeconds(now) then Validation(Some(claims), "token is expired")
      else Validation(Some(claims), "")
  }

  /** A parser that reads back what the signer wrote until the `exp` second has passed;
      afterwards it either still does, or fails with a non-empty error of its own. */
  ghost predicate ParsesSigned(sign: Claims -> string, parse: (string, Instant) -> Parsed)
  {
    forall c, now :: SignedParse(parse(sign(c), now), c, now)
  }

  /** What parsing a token signed over `c` yields at `now`. */
  predicate SignedParse(p: Parsed, c: Claims, now: Instant)
  {
    if UnixSeconds(now) <= c.expiresAt then p == Parsed(c)
    else p == Parsed(c) || (p.Malformed? && p.reason != "")
  }

  /** An issued access token validates, with its identity, up to and including the second
      a day after issue, and is refused with a message from the next second on. */
  lemma AccessTokenValidity(email: string, firstName: string, lastName: string, uid: string, issued: Instant, now: Instant,
                            sign: Claims -> string, parse: (string, Instant) -> Parsed)
    requires ParsesSigned(sign, parse)
    ensures var token := GenerateAllTokens(email, firstName, lastName, uid, issued, sign).token;
      var v := ValidateToken(token, now, parse);
      && (v.msg == "" <==> UnixSeconds(now) <= UnixSeconds(issued) + 86400)
      && (v.msg == "" ==> v.claims == Some(Claims(email, firstName, lastName, uid, UnixSeconds(issued) + 86400)))
  {
    TokenLifetimes(email, firstName, lastName, uid, issued);
    var c := AccessClaims(email, firstName, lastName, uid, issued);
    assert SignedParse(parse(sign(c), now), c, now);
  }
}
