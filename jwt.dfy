/**
 * The token helpers of src/utils/jwtUtils.js over an abstract signer. A token
 * is the set of claims `jsonwebtoken` puts in a JWT (`id`, `iat`, `exp`) together
 * with the secret that signed it; its text form lists the claims and the signing
 * secret in decimal, separated by dots, standing in for the compact JWS form.
 * Seconds are used for `iat`/`exp` and milliseconds for the clock, as the library does.
 */
module Jwt {
  import opened Wrappers
  import opened Identity
  import opened Text

  /** A signing secret, identified by a tag. */
  type Secret = nat

  /**
   * The process-wide configuration: `JWT_SECRET`, `REFRESH_TOKEN_SECRET`, and the
   * lifetime the signer gives a token when `expiresIn` is `undefined`
   * (None: no `exp` claim at all). The library's choice is not known, so it is a parameter.
   */
  datatype Config = Config(jwtSecret: Secret, refreshTokenSecret: Secret, implicitLifetime: Option<nat>)

  /** The `expiresIn` option: a number of seconds, or `undefined`. */
  datatype Lifetime = Seconds(seconds: nat) | NotGiven

  /** "1h", "10m" and "30d" as `jsonwebtoken` reads them. */
  const OneHour: Lifetime := Seconds(60 * 60)
  const TenMinutes: Lifetime := Seconds(10 * 60)
  const ThirtyDays: Lifetime := Seconds(30 * 24 * 60 * 60)

  /** The decoded payload: `{ id, iat, exp }`; `id` is absent when it was signed as `undefined`. */
  datatype Claims = Claims(id: Option<UserId>, iat: nat, exp: Option<nat>)

  datatype Token = Token(claims: Claims, signedWith: Secret)

  /** The `{ type, payload }` object `verifyToken` returns on success. */
  datatype Verification = Verification(tokenType: string, payload: Claims)

  /** What can be handed to `verifyToken` as its token argument. */
  datatype TokenValue = Text(text: string) | Undefined | Decoded(object: Verification)

  const Access: string := "access"
  const Refresh: string := "refresh"

  function OptionalDecimal(v: Option<nat>): string
  {
    match v
    case None => ""
    case Some(n) => Decimal(n)
  }

  function ParseOptional(s: string): Option<Option<nat>>
  {
    if s == "" then Some(None)
    else match ParseDecimal(s)
      case None => None
      case Some(n) => Some(Some(n))
  }

  function Fields(t: Token): seq<string>
  {
    [OptionalDecimal(t.claims.id), Decimal(t.claims.iat), OptionalDecimal(t.claims.exp), Decimal(t.signedWith)]
  }

  /** The text form of a token. */
  function Encode(t: Token): string
  {
    Join(Fields(t), '.')
  }

  /** Reads a token text back; malformed text yields None. */
  function Decode(text: string): Option<Token>
  {
    var parts := Split(text, '.');
    if |parts| != 4 then None
    else
      match (ParseOptional(parts[0]), ParseDecimal(parts[1]), ParseOptional(parts[2]), ParseDecimal(parts[3]))
      case (Some(id), Some(iat), Some(exp), Some(secret)) => Some(Token(Claims(id, iat, exp), secret))
      case _ => None
  }

  lemma ParseOptionalOfOptionalDecimal(v: Option<nat>)
    ensures ParseOptional(OptionalDecimal(v)) == Some(v)
  {
    if v.Some? {
      ParseDecimalOfDecimal(v.value);
    }
  }

  lemma OptionalDecimalOfParse(s: string, v: Option<nat>)
    requires ParseOptional(s) == Some(v)
    ensures OptionalDecimal(v) == s
  {
    if s != "" {
      DecimalOfDigitsValue(s);
    }
  }

  lemma FieldsAreDotFree(t: Token)
    ensures forall i :: 0 <= i < 4 ==> '.' !in Fields(t)[i] && ' ' !in Fields(t)[i]
  {
  }

  /** Decoding an encoded token gives it back. */
  lemma DecodeEncode(t: Token)
    ensures Decode(Encode(t)) == Some(t)
  {
    FieldsAreDotFree(t);
    SplitJoin(Fields(t), '.');
    ParseOptionalOfOptionalDecimal(t.claims.id);
    ParseDecimalOfDecimal(t.claims.iat);
    ParseOptionalOfOptionalDecimal(t.claims.exp);
    ParseDecimalOfDecimal(t.signedWith);
  }

  /** Token texts are canonical: a text that decodes is the encoding of what it decodes to. */
  lemma EncodeDecode(text: string)
    requires Decode(text).Some?
    ensures Encode(Decode(text).value) == text
  {
    var parts := Split(text, '.');
    var t := Decode(text).value;
    OptionalDecimalOfParse(parts[0], t.claims.id);
    DecimalOfDigitsValue(parts[1]);
    OptionalDecimalOfParse(parts[2], t.claims.exp);
    DecimalOfDigitsValue(parts[3]);
    assert Fields(t) == parts;
    JoinSplit(text, '.');
  }

  /** An encoded token is a non-empty word: no space, so a header can carry it. */
  lemma EncodeIsWord(t: Token)
    ensures Encode(t) != "" && ' ' !in Encode(t)
  {
    FieldsAreDotFree(t);
    JoinAvoids(Fields(t), '.', ' ');
    var f := Fields(t);
    assert Join(f, '.') == f[0] + ['.'] + Join(f[1..], '.');
  }

  /** `exp` for a token issued at `iat` (seconds) with the given `expiresIn`. */
  function Expiry(lifetime: Lifetime, cfg: Config, iat: nat): (exp: Option<nat>)
    ensures lifetime.Seconds? ==> exp == Some(iat + lifetime.seconds)
    ensures lifetime.NotGiven? ==> (exp.None? <==> cfg.implicitLifetime.None?)
    ensures exp.Some? ==> iat <= exp.value
  {
    match lifetime
    case Seconds(s) => Some(iat + s)
    case NotGiven =>
      match cfg.implicitLifetime
      case None => None
      case Some(s) => Some(iat + s)
  }

  /** `jwt.sign({ id }, secret, { expiresIn })` at clock time `now` (ms). */
  function Sign(id: Option<UserId>, secret: Secret, lifetime: Lifetime, cfg: Config, now: nat): (text: string)
    ensures Decode(text) == Some(Token(Claims(id, now / 1000, Expiry(lifetime, cfg, now / 1000)), secret))
  {
    var t := Token(Claims(id, now / 1000, Expiry(lifetime, cfg, now / 1000)), secret);
    DecodeEncode(t);
    Encode(t)
  }

  /** Section 4.1.4 of RFC 7519: the token is accepted only before its `exp`, in whole seconds. */
  function Unexpired(c: Claims, now: nat): (live: bool)
    ensures c.exp.None? ==> live
    ensures c.exp.Some? ==> (live <==> now < c.exp.value * 1000)
  {
    c.exp.None? || now / 1000 < c.exp.value
  }

  /** `jwt.verify(token, secret)`: the claims, or None where the library throws. */
  function JwtVerify(token: TokenValue, secret: Secret, now: nat): (r: Option<Claims>)
    ensures !token.Text? ==> r.None?
    ensures r.Some? <==>
      token.Text? && Decode(token.text).Some?
      && Decode(token.text).value.signedWith == secret && Unexpired(Decode(token.text).value.claims, now)
    ensures r.Some? ==> Decode(token.text) == Some(Token(r.value, secret))
  {
    match token
    case Text(text) =>
      (match Decode(text)
       case Some(t) => if t.signedWith == secret && Unexpired(t.claims, now) then Some(t.claims) else None
       case None => None)
    case _ => None
  }

  /** The secret `verifyToken` picks: `JWT_SECRET` for "access", `REFRESH_TOKEN_SECRET` for anything else. */
  function SecretFor(tokenType: string, cfg: Config): (secret: Secret)
    ensures tokenType == Access ==> secret == cfg.jwtSecret
    ensures tokenType != Access ==> secret == cfg.refreshTokenSecret
  {
    if tokenType == Access then cfg.jwtSecret else cfg.refreshTokenSecret
  }

  /** `generateToken(userID, time)`: signed with `JWT_SECRET` for the caller's lifetime. */
  function GenerateToken(id: Option<UserId>, time: Lifetime, cfg: Config, now: nat): (text: string)
    ensures Decode(text) == Some(Token(Claims(id, now / 1000, Expiry(time, cfg, now / 1000)), cfg.jwtSecret))
  {
    Sign(id, cfg.jwtSecret, time, cfg, now)
  }

  /** `generateRefreshToken(userID)`: signed with `REFRESH_TOKEN_SECRET` for thirty days. */
  function GenerateRefreshToken(id: Option<UserId>, cfg: Config, now: nat): (text: string)
    ensures Decode(text) == Some(Token(Claims(id, now / 1000, Some(now / 1000 + 2592000)), cfg.refreshTokenSecret))
  {
    Sign(id, cfg.refreshTokenSecret, ThirtyDays, cfg, now)
  }

  /**
   * `verifyToken(token, tokenType)`: never fails; None stands for `null`. The
   * returned type is the requested one, whatever the token is.
   */
  function VerifyToken(token: TokenValue, tokenType: string, cfg: Config, now: nat): (r: Option<Verification>)
    ensures r.Some? ==> r.value.tokenType == tokenType
    ensures r.Some? <==>
      token.Text? && Decode(token.text).Some?
      && Decode(token.text).value.signedWith == SecretFor(tokenType, cfg)
      && Unexpired(Decode(token.text).value.claims, now)
    ensures r.Some? ==> Decode(token.text) == Some(Token(r.value.payload, SecretFor(tokenType, cfg)))
  {
    match JwtVerify(token, SecretFor(tokenType, cfg), now)
    case Some(decoded) => Some(Verification(tokenType, decoded))
    case None => None
  }

  datatype TokenPair = TokenPair(newAccessToken: string, newRefreshToken: string)

  /**
   * `refreshAllTokens(refreshToken)`: None (`null`) unless the argument verifies
   * as a refresh token; otherwise a new access token minted without a lifetime
   * and a new thirty-day refresh token, both for the verified token's `id`.
   */
  function RefreshAllTokens(refreshToken: TokenValue, cfg: Config, now: nat): (r: Option<TokenPair>)
    ensures r.Some? <==> VerifyToken(refreshToken, Refresh, cfg, now).Some?
    ensures r.Some? ==>
      var id := VerifyToken(refreshToken, Refresh, cfg, now).value.payload.id;
      && Decode(r.value.newAccessToken) == Some(Token(Claims(id, now / 1000, Expiry(NotGiven, cfg, now / 1000)), cfg.jwtSecret))
      && Decode(r.value.newRefreshToken) == Some(Token(Claims(id, now / 1000, Some(now / 1000 + 2592000)), cfg.refreshTokenSecret))
  {
    var refreshTokenVerification := VerifyToken(refreshToken, Refresh, cfg, now);
    if refreshTokenVerification.Some? && refreshTokenVerification.value.tokenType == Refresh then
      var id := refreshTokenVerification.value.payload.id;
      Some(TokenPair(GenerateToken(id, NotGiven, cfg, now), GenerateRefreshToken(id, cfg, now)))
    else
      None
  }

  /**
   * A token from `generateToken` verifies as "access" exactly while the clock,
   * in whole seconds, is before its issue second plus its lifetime, and yields the id it was issued for.
   */
  lemma GeneratedTokenVerifiesUntilExpiry(id: Option<UserId>, seconds: nat, cfg: Config, now: nat, later: nat)
    ensures var r := VerifyToken(Text(GenerateToken(id, Seconds(seconds), cfg, now)), Access, cfg, later);
      && (r.Some? <==> later / 1000 < now / 1000 + seconds)
      && (r.Some? ==> r.value.payload == Claims(id, now / 1000, Some(now / 1000 + seconds)))
  {
  }

  /**
   * A token from `generateRefreshToken` verifies under any type other than
   * "access" for thirty days, and yields the id it was issued for.
   */
  lemma GeneratedRefreshTokenVerifiesUntilExpiry(id: Option<UserId>, tokenType: string, cfg: Config, now: nat, later: nat)
    requires tokenType != Access
    ensures var r := VerifyToken(Text(GenerateRefreshToken(id, cfg, now)), tokenType, cfg, later);
      && (r.Some? <==> later / 1000 < now / 1000 + 2592000)
      && (r.Some? ==> r.value.payload.id == id)
  {
  }

  /**
   * Kind isolation, when the two secrets differ: an access token never verifies
   * as a refresh token and a refresh token never verifies as an access token.
   */
  lemma KindIsolation(id: Option<UserId>, time: Lifetime, tokenType: string, cfg: Config, now: nat, later: nat)
    requires cfg.jwtSecret != cfg.refreshTokenSecret
    requires tokenType != Access
    ensures VerifyToken(Text(GenerateToken(id, time, cfg, now)), tokenType, cfg, later) == None
    ensures VerifyToken(Text(GenerateRefreshToken(id, cfg, now)), Access, cfg, later) == None
  {
  }

  /**
   * When the two secrets are the same, nothing separates the kinds: any access
   * token still within its lifetime also verifies as a refresh token.
   */
  lemma SharedSecretMixesKinds(id: Option<UserId>, seconds: nat, cfg: Config, now: nat, later: nat)
    requires cfg.jwtSecret == cfg.refreshTokenSecret
    requires later / 1000 < now / 1000 + seconds
    ensures VerifyToken(Text(GenerateToken(id, Seconds(seconds), cfg, now)), Refresh, cfg, later).Some?
  {
  }

  /**
   * The access token minted by a rotation has no lifetime of its own: its `exp`
   * is whatever the signer does with `expiresIn: undefined`, so it verifies at
   * the moment of minting exactly when that implicit lifetime is not zero.
   */
  lemma RotatedAccessTokenLifetime(refreshToken: TokenValue, cfg: Config, now: nat, pair: TokenPair)
    requires RefreshAllTokens(refreshToken, cfg, now) == Some(pair)
    ensures Decode(pair.newAccessToken).value.claims.exp == Expiry(NotGiven, cfg, now / 1000)
    ensures VerifyToken(Text(pair.newAccessToken), Access, cfg, now).Some? <==> cfg.implicitLifetime != Some(0)
  {
    var id := VerifyToken(refreshToken, Refresh, cfg, now).value.payload.id;
    var claims := Claims(id, now / 1000, Expiry(NotGiven, cfg, now / 1000));
    VerifiesWhenDecoded(pair.newAccessToken, Token(claims, cfg.jwtSecret), Access, cfg, now);
  }

  /** Verification of a text depends only on the token it decodes to. */
  lemma VerifiesWhenDecoded(text: string, t: Token, tokenType: string, cfg: Config, now: nat)
    requires Decode(text) == Some(t)
    ensures VerifyToken(Text(text), tokenType, cfg, now).Some? <==> t.signedWith == SecretFor(tokenType, cfg) && Unexpired(t.claims, now)
  {
  }

  /** Only text is verified: `undefined` and an already decoded object both give `null`. */
  lemma NonTextNeverVerifies(v: Verification, tokenType: string, cfg: Config, now: nat)
    ensures VerifyToken(Undefined, tokenType, cfg, now) == None
    ensures VerifyToken(Decoded(v), tokenType, cfg, now) == None
    ensures RefreshAllTokens(Decoded(v), cfg, now) == None
  {
  }
}
