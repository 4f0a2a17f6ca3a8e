/**
 * src/middleware/authMiddleware.js: the per-request decision between the
 * access token in the `Authorization` header and the `refreshToken` cookie.
 */
module AuthMiddleware {
  import opened Wrappers
  import opened Identity
  import opened Jwt
  import opened Http

  /** What verifying the header's candidate word as an access token gives. */
  function AccessVerification(authorization: Option<string>, cfg: Config, now: nat): (r: Option<Verification>)
    ensures r.Some? ==> AccessCandidate(authorization).Some? && r.value.tokenType == Access
    ensures r.Some? ==> Decode(AccessCandidate(authorization).value) == Some(Token(r.value.payload, cfg.jwtSecret))
  {
    match AccessCandidate(authorization)
    case None => None
    case Some(token) => VerifyToken(Text(token), Access, cfg, now)
  }

  /**
   * `authenticate`. A verified access token sets `req.id` and continues without
   * touching the response. Otherwise a truthy `refreshToken` cookie is rotated:
   * a new refresh cookie and a `Bearer` header are written and `req.id` is
   * taken from the new access token; a cookie that does not verify makes the
   * destructuring of `null` throw. Only without such a cookie is 403 sent.
   */
  method Authenticate(req: Request, res: Response, cfg: Config, now: nat) returns (outcome: Outcome)
    modifies req`id, res`statusCode, res`body, res`cookies, res`authorization
    ensures var access := AccessVerification(req.authorization, cfg, now);
      access.Some? ==>
        && outcome == Next && req.id == access.value.payload.id
        && res.statusCode == old(res.statusCode) && res.body == old(res.body)
        && res.cookies == old(res.cookies) && res.authorization == old(res.authorization)
    ensures AccessVerification(req.authorization, cfg, now).None? && CookieValue(req.cookies, "refreshToken").None? ==>
      && outcome == Ended && res.statusCode == 403 && res.body == Some(Body("Invalid or expired token", Absent))
      && res.cookies == old(res.cookies) && res.authorization == old(res.authorization) && req.id == old(req.id)
    ensures AccessVerification(req.authorization, cfg, now).None? && CookieValue(req.cookies, "refreshToken").Some? ==>
      var tokens := RefreshAllTokens(Text(CookieValue(req.cookies, "refreshToken").value), cfg, now);
      && res.statusCode == old(res.statusCode) && res.body == old(res.body)
      && (tokens.None? ==>
            outcome == Threw && req.id == old(req.id)
            && res.cookies == old(res.cookies) && res.authorization == old(res.authorization))
      && (tokens.Some? ==>
            && res.cookies == old(res.cookies) + [CookieSet("refreshToken", tokens.value.newRefreshToken, RefreshCookieOptions)]
            && res.authorization == Some(Bearer(tokens.value.newAccessToken))
            && (outcome == Next <==> cfg.implicitLifetime != Some(0))
            && (outcome == Next ==>
                  req.id == VerifyToken(Text(CookieValue(req.cookies, "refreshToken").value), Refresh, cfg, now).value.payload.id)
            && (outcome != Next ==> outcome == Threw && req.id == old(req.id)))
    ensures outcome == Ended <==> AccessVerification(req.authorization, cfg, now).None? && CookieValue(req.cookies, "refreshToken").None?
  {
    var token := AccessCandidate(req.authorization);
    if token.Some? {
      var accessTokenVerification := VerifyToken(Text(token.value), Access, cfg, now);
      if accessTokenVerification.Some? && accessTokenVerification.value.tokenType == Access {
        req.id := accessTokenVerification.value.payload.id;
        return Next;
      }
    }

    var refreshToken := CookieValue(req.cookies, "refreshToken");
    if refreshToken.Some? {
      var tokens := RefreshAllTokens(Text(refreshToken.value), cfg, now);
      if tokens.None? {
        // `const { newAccessToken, newRefreshToken } = null` throws.
        return Threw;
      }
      res.Cookie("refreshToken", tokens.value.newRefreshToken, RefreshCookieOptions);
      res.SetAuthorization(Bearer(tokens.value.newAccessToken));
      var newAccessTokenVerification := VerifyToken(Text(tokens.value.newAccessToken), Access, cfg, now);
      RotatedAccessTokenLifetime(Text(refreshToken.value), cfg, now, tokens.value);
      if newAccessTokenVerification.None? {
        // `null.payload` throws, after the cookie and the header were written.
        return Threw;
      }
      req.id := newAccessTokenVerification.value.payload.id;
      return Next;
    }

    res.Send(403, "Invalid or expired token", Absent);
    return Ended;
  }

  /**
   * The header written by a login, signup or rotation is accepted on the next
   * request while the access token it carries is unexpired, and yields its id.
   */
  lemma IssuedBearerHeaderAuthenticates(id: Option<UserId>, seconds: nat, cfg: Config, issuedAt: nat, now: nat)
    ensures var header := Bearer(GenerateToken(id, Seconds(seconds), cfg, issuedAt));
      var r := AccessVerification(Some(header), cfg, now);
      && (r.Some? <==> now / 1000 < issuedAt / 1000 + seconds)
      && (r.Some? ==> r.value.payload.id == id)
  {
    var token := GenerateToken(id, Seconds(seconds), cfg, issuedAt);
    EncodeDecode(token);
    EncodeIsWord(Decode(token).value);
    AnySchemeAccepted("Bearer", token);
    assert Bearer(token) == "Bearer" + " " + token;
    GeneratedTokenVerifiesUntilExpiry(id, seconds, cfg, issuedAt, now);
  }

  /**
   * With distinct secrets, a refresh token presented in the header is never
   * taken for an access token.
   */
  lemma RefreshTokenInHeaderRejected(scheme: string, id: Option<UserId>, cfg: Config, issuedAt: nat, now: nat)
    requires cfg.jwtSecret != cfg.refreshTokenSecret && ' ' !in scheme
    ensures AccessVerification(Some(scheme + " " + GenerateRefreshToken(id, cfg, issuedAt)), cfg, now).None?
  {
    var token := GenerateRefreshToken(id, cfg, issuedAt);
    EncodeDecode(token);
    EncodeIsWord(Decode(token).value);
    AnySchemeAccepted(scheme, token);
    KindIsolation(id, NotGiven, Refresh, cfg, issuedAt, now);
  }
}
