/**
 * Tokens (utils/jwt.go): the claims `GenerateToken` signs and the way `ParseToken` turns the
 * library's validation result into one of a few error names.
 *
 * The tokens are JSON Web Tokens (RFC 7519) signed with HMAC SHA-256 ("HS256", section 3.2
 * of RFC 7518). Signing, signature checking and the library's claim checks are not modelled:
 * signing is a parameter, and what the library reports for a token is an input.
 */
module JwtToken {
  import opened Wrappers

  /** `TokenExpireDuration`, in seconds. */
  const TokenExpireSeconds := 3600

  /** `CustomClaims`: the user's id and name and the registered claims the service sets. */
  datatype CustomClaims = CustomClaims(uid: nat, username: string, expiresAt: int, issuedAt: int,
                                       subject: string, issuer: string)

  /** The claims of a new token. The clock is read twice: `expiryClock` for the expiry time and
      `issueClock` for the issue time (Unix seconds). */
  function NewClaims(uid: nat, username: string, expiryClock: int, issueClock: int): (c: CustomClaims)
    ensures c.uid == uid && c.username == username
    ensures c.subject == "Token" && c.issuer == "ives"
    ensures c.expiresAt == expiryClock + TokenExpireSeconds && c.issuedAt == issueClock
  {
    CustomClaims(uid, username, expiryClock + TokenExpireSeconds, issueClock, "Token", "ives")
  }

  /** `GenerateToken`: signs the new claims; `sign` stands for HS256 signing and serialisation. */
  function GenerateToken(uid: nat, username: string, expiryClock: int, issueClock: int,
                         sign: CustomClaims -> Result<string, string>): (r: Result<string, string>)
    ensures r == sign(NewClaims(uid, username, expiryClock, issueClock))
  {
    sign(NewClaims(uid, username, expiryClock, issueClock))
  }

  /** A token lives one hour from the first clock reading, and no longer than one hour from its
      issue time, since the clock does not run backwards between the two readings. */
  lemma TokenLifetime(uid: nat, username: string, expiryClock: int, issueClock: int)
    requires expiryClock <= issueClock
    ensures var c := NewClaims(uid, username, expiryClock, issueClock);
      c.expiresAt - c.issuedAt <= TokenExpireSeconds && c.expiresAt - expiryClock == TokenExpireSeconds
  {
  }

  /** The bits of the library's `ValidationError` the service looks at. */
  const ValidationErrorMalformed: bv32 := 1
  const ValidationErrorExpired: bv32 := 16
  const ValidationErrorNotValidYet: bv32 := 128

  /** The errors `ParseToken` returns. */
  datatype TokenError = TokenMalformed | TokenExpired | TokenNotValidYet | TokenInvalid | ParseFailed

  /** The text of each error, as the middleware sees it. */
  function ErrorText(e: TokenError): string {
    match e
    case TokenMalformed => "TokenMalformed"
    case TokenExpired => "TokenExpired"
    case TokenNotValidYet => "TokenNotValidYet"
    case TokenInvalid => "TokenInvalid"
    case ParseFailed => "解析Token失败"
  }

  /** Only the expired error reads "TokenExpired". */
  lemma ErrorTextExpired(e: TokenError)
    ensures ErrorText(e) == "TokenExpired" <==> e == TokenExpired
  {
    if e == ParseFailed {
      assert ErrorText(e)[0] != 'T';
    }
  }

  /** The name of a validation error: malformed before expired before not yet valid; any other
      bit makes the token invalid. */
  function Classify(bits: bv32): (e: TokenError)
    ensures e != ParseFailed
  {
    if bits & ValidationErrorMalformed != 0 then TokenMalformed
    else if bits & ValidationErrorExpired != 0 then TokenExpired
    else if bits & ValidationErrorNotValidYet != 0 then TokenNotValidYet
    else TokenInvalid
  }

  /** Each name in terms of the bits: the malformed bit wins whatever else is set, and a
      later name needs every earlier bit clear. */
  lemma ClassifyPriority(bits: bv32)
    ensures Classify(bits) == TokenMalformed <==> bits & ValidationErrorMalformed != 0
    ensures Classify(bits) == TokenExpired <==>
      bits & ValidationErrorMalformed == 0 && bits & ValidationErrorExpired != 0
    ensures Classify(bits) == TokenNotValidYet <==>
      bits & ValidationErrorMalformed == 0 && bits & ValidationErrorExpired == 0 &&
      bits & ValidationErrorNotValidYet != 0
    ensures Classify(bits) == TokenInvalid <==>
      bits & (ValidationErrorMalformed | ValidationErrorExpired | ValidationErrorNotValidYet) == 0
  {
    assert bits & (ValidationErrorMalformed | ValidationErrorExpired | ValidationErrorNotValidYet) ==
      (bits & ValidationErrorMalformed) | (bits & ValidationErrorExpired) | (bits & ValidationErrorNotValidYet);
  }

  /** What the library's `ParseWithClaims` reported: a validation error with its bits, or a
      token with its claims, whether they have the service's claims type, and whether the
      token is valid. */
  datatype Parsed =
    | ValidationFailed(bits: bv32)
    | Token(claims: CustomClaims, claimsTyped: bool, valid: bool)

  /** `ParseToken`: a validation error becomes its name; otherwise the claims come back only
      when they have the right type and the token is valid. */
  function ParseToken(parsed: Parsed): (r: Result<CustomClaims, TokenError>)
    ensures r.Ok? <==> parsed.Token? && parsed.claimsTyped && parsed.valid
    ensures r.Ok? ==> r.value == parsed.claims
    ensures parsed.ValidationFailed? ==> r == Err(Classify(parsed.bits))
    ensures parsed.Token? && r.Err? ==> r.error == ParseFailed
  {
    match parsed
    case ValidationFailed(bits) => Err(Classify(bits))
    case Token(claims, claimsTyped, valid) =>
      if claimsTyped && valid then Ok(claims) else Err(ParseFailed)
  }
}
