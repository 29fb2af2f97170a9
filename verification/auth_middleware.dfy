/**
 * The authentication middleware: it reads the Authorization header, strips
 * the "Bearer " scheme, has the token verified, attaches the verified payload
 * to the request and passes control on. Token verification is not modelled
 * here: it is the parameter `verify`, which yields a payload or the error it
 * raised.
 */
module AuthMiddleware {
  import opened Wrappers
  import opened Strings
  import opened ErrorHandler
  import opened AuthTypes

  const BearerPrefix := "Bearer "

  const NoTokenError := AppError(401, "NO_TOKEN", "No authentication token provided", None)

  /** `s.substring(7)`: everything after the first seven characters, or "" when there are fewer. */
  function DropSchemeChars(s: string): string {
    if |s| >= 7 then s[7..] else ""
  }

  /**
   * The token of an Authorization header, or None when the header is missing
   * or does not start with the exact, case-sensitive "Bearer ".
   */
  function BearerToken(header: Option<string>): (r: Option<string>)
    ensures r.Some? <==> header.Some? && StartsWith(header.value, BearerPrefix)
    ensures r.Some? ==> BearerPrefix + r.value == header.value
  {
    match header
    case None => None
    case Some(h) =>
      if !StartsWith(h, BearerPrefix) then None
      else Some(DropSchemeChars(h))
  }

  /** Putting the scheme in front of any token gives back that token. */
  lemma BearerTokenRoundTrip(token: string)
    ensures BearerToken(Some(BearerPrefix + token)) == Some(token)
  {
    assert (BearerPrefix + token)[..|BearerPrefix|] == BearerPrefix;
  }

  /** The scheme is matched exactly: other spellings, or the word without its space, carry no token. */
  lemma SchemeIsExact(token: string)
    ensures BearerToken(Some("bearer " + token)) == None
    ensures BearerToken(Some("Bearer")) == None
    ensures BearerToken(Some("Bearer ")) == Some("")
  {
    assert ("bearer " + token)[0] == 'b';
  }

  /** An incoming request: its Authorization header, and the user the middleware attaches. */
  class Request {
    const authorization: Option<string>
    var user: Option<JwtPayload>

    constructor (authorization: Option<string>)
      ensures this.authorization == authorization && user == None
    {
      this.authorization := authorization;
      user := None;
    }
  }

  /** How `next` was called: with no argument, or with an error. */
  datatype NextCall = Continue | Forward(error: Error)

  /**
   * Authenticates `req`, calling `next` exactly once (the returned call).
   * On success the verified payload becomes `req.user`; on any failure the
   * error is forwarded and `req.user` is left as it was.
   */
  method Authenticate(req: Request, verify: string -> Result<JwtPayload, Error>) returns (call: NextCall)
    modifies req`user
    ensures BearerToken(req.authorization).None? ==>
      call == Forward(App(NoTokenError)) && req.user == old(req.user)
    ensures BearerToken(req.authorization).Some? ==>
      var verified := verify(BearerToken(req.authorization).value);
      && (verified.Ok? ==> call == Continue && req.user == Some(verified.value))
      && (verified.Err? ==> call == Forward(verified.error) && req.user == old(req.user))
  {
    var header := req.authorization;
    if header.None? || header.value == "" || !StartsWith(header.value, BearerPrefix) {
      return Forward(App(NoTokenError));
    }
    var token := DropSchemeChars(header.value);
    var verified := verify(token);
    if verified.Err? {
      return Forward(verified.error);
    }
    req.user := Some(verified.value);
    call := Continue;
  }
}
