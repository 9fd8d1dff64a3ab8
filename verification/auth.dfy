/** middleware/authMiddleware.go: the gate in front of every protected route. */
module Auth {
  import opened Wrappers
  import opened Replies
  import opened Clock
  import opened Tokens

  /** The values the gate puts into the request context. */
  datatype Identity = Identity(email: string, firstName: string, lastName: string, uid: string)

  /** `Authentication`: a missing `token` header, or a validation message, aborts with 401;
      otherwise the claims' identity is handed on. Empty validation text without claims
      would dereference nil claims. */
  function Authenticate(header: string, now: Instant, parse: (string, Instant) -> Parsed): (r: Result<Identity>)
    ensures header == "" ==> r == Err(Reject(Unauthorized, Text("No authorization header provided")))
    ensures header != "" && ValidateToken(header, now, parse).msg != "" ==>
      r == Err(Reject(Unauthorized, Text(ValidateToken(header, now, parse).msg)))
    ensures r.Ok? <==> header != "" && parse(header, now).Parsed? && parse(header, now).claims.expiresAt >= UnixSeconds(now)
    ensures r.Ok? ==> var c := parse(header, now).claims;
      r.value == Identity(c.email, c.firstName, c.lastName, c.uid)
    ensures r == Err(Panic) <==> header != "" && parse(header, now) == Malformed("")
  {
    if header == "" then Err(Reject(Unauthorized, Text("No authorization header provided")))
    else
      var v := ValidateToken(header, now, parse);
      if v.msg != "" then Err(Reject(Unauthorized, Text(v.msg)))
      else match v.claims
        case None => Err(Panic)
        case Some(c) => Ok(Identity(c.email, c.firstName, c.lastName, c.uid))
  }

  /** An access token issued at sign-up or login opens the gate for a day, carrying the
      user's identity. */
  lemma AccessTokenPassesGate(email: string, firstName: string, lastName: string, uid: string, issued: Instant, now: Instant,
                              sign: Claims -> string, parse: (string, Instant) -> Parsed)
    requires ParsesSigned(sign, parse)
    requires sign(AccessClaims(email, firstName, lastName, uid, issued)) != ""
    requires UnixSeconds(now) <= UnixSeconds(issued) + 86400
    ensures Authenticate(GenerateAllTokens(email, firstName, lastName, uid, issued, sign).token, now, parse)
         == Ok(Identity(email, firstName, lastName, uid))
  {
    AccessTokenValidity(email, firstName, lastName, uid, issued, now, sign, parse);
  }

  /** The gate does not tell the two tokens apart: a refresh token opens it for a week,
      with an empty identity. */
  lemma RefreshTokenPassesGate(issued: Instant, now: Instant, sign: Claims -> string, parse: (string, Instant) -> Parsed)
    requires ParsesSigned(sign, parse)
    requires sign(RefreshClaims(issued)) != ""
    requires UnixSeconds(now) <= UnixSeconds(issued) + 604800
    ensures Authenticate(sign(RefreshClaims(issued)), now, parse) == Ok(Identity("", "", "", ""))
  {
    TokenLifetimes("", "", "", "", issued);
    var c := RefreshClaims(issued);
    assert SignedParse(parse(sign(c), now), c, now);
  }
}
