/**
 * The authentication middleware (middle/jwt.go `JWTAuth`): which requests pass without a
 * token, and what a request that needs one gets back.
 *
 * The URL is the request URL's string form, which is ASCII (it is percent-encoded), so its
 * characters are its bytes. Parsing the token is `JwtToken.ParseToken` applied to what the
 * library reports for the header, passed in as `parse`.
 */
module JwtMiddleware {
  import opened Wrappers
  import JwtToken

  const StatusBadRequest := 400
  const StatusUnauthorized := 401

  /** Why a request was refused. */
  datatype Refusal = NotLoggedIn | LoginExpired | TokenRejected(text: string)

  /** What the middleware does with a request. */
  datatype AuthOutcome =
    | OutOfRange                                   // slicing a URL shorter than 10 bytes panics
    | Pass                                         // whitelisted: the next handler runs, no claims
    | Refused(status: int, refusal: Refusal)       // answered and aborted
    | Authorized(claims: JwtToken.CustomClaims)    // claims stored under "claims", next handler runs

  /** The first ten bytes of the URL equal `prefix`. */
  predicate StartsWith10(url: string, prefix: string)
    requires |prefix| == 10
  {
    |url| >= 10 && url[..10] == prefix
  }

  /** `JWTAuth`: the login prefix and the download prefix pass; the download test slices the
      URL without checking its length; otherwise the Authorization header must hold a token
      that parses. */
  function JWTAuth(url: string, authorization: string,
                   parse: string -> Result<JwtToken.CustomClaims, JwtToken.TokenError>): (r: AuthOutcome)
    ensures r.Pass? <==> StartsWith10(url, "/api/login") || StartsWith10(url, "/download/")
    ensures r.OutOfRange? <==> |url| < 10
    ensures r.Authorized? <==>
      |url| >= 10 && !r.Pass? && authorization != "" && parse(authorization).Ok?
    ensures r.Authorized? ==> r.claims == parse(authorization).value
  {
    if |url| >= 10 && url[0..10] == "/api/login" then Pass
    else if |url| < 10 then OutOfRange
    else if url[0..10] == "/download/" then Pass
    else
      var token := authorization;
      if token == "" then Refused(StatusBadRequest, NotLoggedIn)
      else match parse(token)
        case Err(e) =>
          if JwtToken.ErrorText(e) == "TokenExpired" then Refused(StatusUnauthorized, LoginExpired)
          else Refused(StatusBadRequest, TokenRejected(JwtToken.ErrorText(e)))
        case Ok(claims) => Authorized(claims)
  }

  /** A request that needs a token: no header is a 400; an expired token a 401; any other parse
      error a 400 carrying its text; a token that parses is accepted with its claims. */
  lemma NeedsToken(url: string, authorization: string,
                   parse: string -> Result<JwtToken.CustomClaims, JwtToken.TokenError>)
    requires |url| >= 10 && !StartsWith10(url, "/api/login") && !StartsWith10(url, "/download/")
    ensures authorization == "" ==> JWTAuth(url, authorization, parse) == Refused(StatusBadRequest, NotLoggedIn)
    ensures authorization != "" && parse(authorization) == Err(JwtToken.TokenExpired) ==>
      JWTAuth(url, authorization, parse) == Refused(StatusUnauthorized, LoginExpired)
    ensures authorization != "" && parse(authorization).Err? && parse(authorization).error != JwtToken.TokenExpired ==>
      JWTAuth(url, authorization, parse) ==
      Refused(StatusBadRequest, TokenRejected(JwtToken.ErrorText(parse(authorization).error)))
    ensures authorization != "" && parse(authorization).Ok? ==>
      JWTAuth(url, authorization, parse) == Authorized(parse(authorization).value)
  {
    if authorization != "" && parse(authorization).Err? {
      JwtToken.ErrorTextExpired(parse(authorization).error);
    }
  }

  /** Whitelisting looks only at the first ten bytes: anything after "/api/login" passes, and
      "/api/register" does not. */
  lemma WhitelistExamples(rest: string, authorization: string,
                          parse: string -> Result<JwtToken.CustomClaims, JwtToken.TokenError>)
    ensures JWTAuth("/api/login" + rest, authorization, parse) == Pass
    ensures JWTAuth("/download/" + rest, authorization, parse) == Pass
    ensures JWTAuth("/api/register", authorization, parse) != Pass
    ensures JWTAuth("/testapi", authorization, parse) == OutOfRange
  {
    assert ("/api/login" + rest)[..10] == "/api/login";
    assert ("/download/" + rest)[..10] == "/download/";
    assert "/api/register"[..10] == "/api/regis";
  }

  /** With the parse result of `JwtToken.ParseToken`: an expired token is a 401, a malformed
      one a 400 with "TokenMalformed", and a valid one is accepted. */
  lemma ParsedTokenOutcomes(url: string, authorization: string, parsed: string -> JwtToken.Parsed)
    requires |url| >= 10 && !StartsWith10(url, "/api/login") && !StartsWith10(url, "/download/")
    requires authorization != ""
    ensures var parse := (t: string) => JwtToken.ParseToken(parsed(t));
      && (parsed(authorization).ValidationFailed? &&
          parsed(authorization).bits & JwtToken.ValidationErrorMalformed == 0 &&
          parsed(authorization).bits & JwtToken.ValidationErrorExpired != 0 ==>
            JWTAuth(url, authorization, parse) == Refused(StatusUnauthorized, LoginExpired))
      && (parsed(authorization).ValidationFailed? &&
          parsed(authorization).bits & JwtToken.ValidationErrorMalformed != 0 ==>
            JWTAuth(url, authorization, parse) == Refused(StatusBadRequest, TokenRejected("TokenMalformed")))
      && (parsed(authorization).Token? && parsed(authorization).claimsTyped && parsed(authorization).valid ==>
            JWTAuth(url, authorization, parse) == Authorized(parsed(authorization).claims))
  {
    var parse := (t: string) => JwtToken.ParseToken(parsed(t));
    NeedsToken(url, authorization, parse);
    if parsed(authorization).ValidationFailed? {
      JwtToken.ClassifyPriority(parsed(authorization).bits);
    }
  }
}
