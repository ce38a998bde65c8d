/** The request gate of `AuthMiddleware` (backend/api/auth.go): the token is
    taken from the Authorization header, with or without a "Bearer " prefix,
    and the request proceeds under the `user_id` claim only when that claim
    is a string. Signature checking is a parameter of the model. */
module Auth {
  import opened Models

  datatype AuthError = MissingHeader | InvalidToken | InvalidClaims | InvalidUserId

  /** The body of the 401 response for each refusal. */
  function Message(e: AuthError): (m: string)
    ensures |m| > 0
  {
    match e
    case MissingHeader => "Missing authorization header"
    case InvalidToken => "Invalid token"
    case InvalidClaims => "Invalid token claims"
    case InvalidUserId => "Invalid user ID in token"
  }

  /** Different refusals are reported with different texts. */
  lemma MessagesDistinct(e: AuthError, f: AuthError)
    requires e != f
    ensures Message(e) != Message(f)
  {
  }

  /** What parsing and verifying a token string yields: a rejected token,
      claims of another shape, or a claim map. */
  datatype Verdict = Rejected | OtherClaims | MapClaims(claims: map<string, Value>)

  const Prefix: string := "Bearer "

  /** The token string: the header minus "Bearer " when the header is longer
      than the prefix and starts with it, otherwise the whole header. */
  function BearerToken(header: string): (token: string)
    ensures |header| > |Prefix| && header[..|Prefix|] == Prefix ==> Prefix + token == header
    ensures !(|header| > |Prefix| && header[..|Prefix|] == Prefix) ==> token == header
    ensures |token| <= |header|
  {
    if |header| > 7 && header[..7] == "Bearer " then header[7..] else header
  }

  /** Prefixing a non-empty token with "Bearer " and extracting it gives the token back. */
  lemma BearerRoundTrip(token: string)
    requires token != ""
    ensures BearerToken(Prefix + token) == token
  {
    assert (Prefix + token)[..|Prefix|] == Prefix;
    assert (Prefix + token)[|Prefix|..] == token;
  }

  /** The prefix alone is not stripped: the token is "Bearer " itself. */
  lemma PrefixAloneKept()
    ensures BearerToken(Prefix) == Prefix
  {
  }

  /** Only one prefix is stripped. */
  lemma StripsOnce(token: string)
    requires token != ""
    ensures BearerToken(Prefix + Prefix + token) == Prefix + token
  {
    assert Prefix + Prefix + token == Prefix + (Prefix + token);
    BearerRoundTrip(Prefix + token);
  }

  /** The middleware's verdict on a request: the user id it proceeds with, or the refusal. */
  function Authenticate(header: string, verify: string -> Verdict): (r: Result<string, AuthError>)
    ensures header == "" ==> r == Failure(MissingHeader)
    ensures header != "" && verify(BearerToken(header)) == Rejected ==> r == Failure(InvalidToken)
    ensures header != "" && verify(BearerToken(header)) == OtherClaims ==> r == Failure(InvalidClaims)
    ensures r.Success? <==>
      && header != ""
      && verify(BearerToken(header)).MapClaims?
      && "user_id" in verify(BearerToken(header)).claims
      && verify(BearerToken(header)).claims["user_id"].Str?
    ensures r.Success? ==> r.value == verify(BearerToken(header)).claims["user_id"].s
  {
    if header == "" then Failure(MissingHeader)
    else
      match verify(BearerToken(header))
      case Rejected => Failure(InvalidToken)
      case OtherClaims => Failure(InvalidClaims)
      case MapClaims(claims) =>
        if "user_id" in claims && claims["user_id"].Str? then Success(claims["user_id"].s)
        else Failure(InvalidUserId)
  }

  /** A token authenticates the same whether or not it is sent with the
      "Bearer " prefix, provided it does not itself begin with the prefix. */
  lemma PrefixOptional(token: string, verify: string -> Verdict)
    requires token != ""
    requires !(|token| > |Prefix| && token[..|Prefix|] == Prefix)
    ensures Authenticate(Prefix + token, verify) == Authenticate(token, verify)
  {
    BearerRoundTrip(token);
  }

  /** A `user_id` claim that is a number, a boolean or anything but a string is refused. */
  lemma NonStringUserIdRefused(header: string, verify: string -> Verdict)
    requires header != ""
    requires verify(BearerToken(header)).MapClaims?
    requires "user_id" in verify(BearerToken(header)).claims
    requires !verify(BearerToken(header)).claims["user_id"].Str?
    ensures Authenticate(header, verify) == Failure(InvalidUserId)
  {
  }
}
