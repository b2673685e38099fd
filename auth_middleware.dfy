/**
 * The request guard of backend/middleware/auth.go: pick the token from the
 * headers, validate it, and either abort with 401 or hand the claims on.
 */
module AuthMiddleware {
  import opened Text

  /** The `token` header wins; otherwise `Authorization` split on single spaces must give exactly two pieces. */
  function ExtractToken(tokenHeader: string, authHeader: string): (token: string)
    ensures tokenHeader != "" ==> token == tokenHeader
    ensures tokenHeader == "" && token != "" ==> |Split(authHeader, ' ')| == 2 && token == Split(authHeader, ' ')[1]
    ensures tokenHeader == "" && |Split(authHeader, ' ')| == 2 ==> token == Split(authHeader, ' ')[1]
  {
    if tokenHeader != "" then tokenHeader
    else if authHeader != "" then
      var parts := Split(authHeader, ' ');
      if |parts| == 2 then parts[1] else ""
    else ""
  }

  /** `<scheme> <token>` yields the token whatever the scheme word is; with an empty token (`"Bearer "`) it yields "". */
  lemma SchemeAndToken(scheme: string, t: string)
    requires ' ' !in scheme && ' ' !in t
    ensures ExtractToken("", scheme + " " + t) == t
  {
    SplitOneSeparator(scheme, t, ' ');
    assert scheme + " " + t == scheme + [' '] + t;
  }

  /** A header with no space, or with more than one, yields no token. */
  lemma NotOneSpace(authHeader: string)
    requires CountChar(' ', authHeader) != 1
    ensures ExtractToken("", authHeader) == ""
  {
    SplitCount(authHeader, ' ');
  }

  /** A token is extracted from `Authorization` only when it holds exactly one space, and it is what follows that space. */
  lemma OnlyOneSpace(authHeader: string)
    requires ExtractToken("", authHeader) != ""
    ensures CountChar(' ', authHeader) == 1
    ensures exists k :: 0 <= k < |authHeader| && authHeader[k] == ' ' && ExtractToken("", authHeader) == authHeader[k + 1..]
  {
    var parts := Split(authHeader, ' ');
    SplitCount(authHeader, ' ');
    JoinSplit(authHeader, ' ');
    assert Join(parts, ' ') == parts[0] + [' '] + parts[1];
    var k := |parts[0]|;
    assert authHeader[k] == ' ';
    assert authHeader[k + 1..] == parts[1];
  }

  /** The claims `ValidateToken` returns for a good token. */
  datatype Claims = Claims(email: string, firstName: string, lastName: string, uid: string)

  /** The validator's verdict, its error given by its text as the middleware compares it. */
  datatype Validation = Valid(claims: Claims) | Failed(err: string)

  /** Only an expiry is reported as such; every other validation error is reported as an invalid token. */
  function ErrorMessage(err: string): (m: string)
    ensures m == "token is expired" <==> err == "token is expired"
    ensures m != "token is expired" ==> m == "The Token is invalid"
  {
    if err == "token is expired" then "token is expired" else "The Token is invalid"
  }

  datatype Outcome = Abort(status: int, error: string) | Next(user: Claims)

  /** `validate` stands for `utils.ValidateToken` (JWT parsing is not modelled). */
  function Authenticate(tokenHeader: string, authHeader: string, validate: string -> Validation): (o: Outcome)
    ensures ExtractToken(tokenHeader, authHeader) == "" ==> o == Abort(401, "No Authorization Header Provided")
    ensures (ExtractToken(tokenHeader, authHeader) != "" &&
             validate(ExtractToken(tokenHeader, authHeader)).Failed?) ==>
      o == Abort(401, ErrorMessage(validate(ExtractToken(tokenHeader, authHeader)).err))
    ensures o.Next? <==> ExtractToken(tokenHeader, authHeader) != "" && validate(ExtractToken(tokenHeader, authHeader)).Valid?
    ensures o.Next? ==> o.user == validate(ExtractToken(tokenHeader, authHeader)).claims
    ensures o.Abort? ==> o.status == 401
  {
    var token := ExtractToken(tokenHeader, authHeader);
    if token == "" then Abort(401, "No Authorization Header Provided")
    else match validate(token)
      case Failed(err) => Abort(401, ErrorMessage(err))
      case Valid(claims) => Next(claims)
  }
}
