/** app/services/auth.py: the stub token check behind protected routes. */
module AuthService {
  import opened Wrappers
  import opened Http
  import opened Errors
  import opened Middlewares

  /** `User`: `scopes` defaults to the empty list. */
  datatype User = User(id: int, username: string, scopes: seq<string>)

  /** The one token the stub accepts, and the user it stands for. */
  const DemoToken: string := "demo-token"
  const DemoUser: User := User(1, "demo", ["read", "write"])

  /** `decode_token(token)`: the demo user for the demo token, None for every other token. */
  function DecodeToken(token: string): (r: Option<User>)
    ensures r.Some? <==> token == DemoToken
    ensures r.Some? ==> r.value == DemoUser && r.value.id == 1 && r.value.scopes == ["read", "write"]
  {
    if token == DemoToken then Some(DemoUser) else None
  }

  /** The 401 `get_current_user` raises. */
  const AuthFailure: HttpException :=
    HttpException(401, JObject(map["code" := JStr("E_AUTH_FAILED"), "message" := JStr("Invalid or expired token")]),
                  map["WWW-Authenticate" := "Bearer"])

  /** `get_current_user(token)`: the decoded user, or the 401. */
  function GetCurrentUser(token: string): (r: Result<User, HttpException>)
    ensures r.Failure? <==> DecodeToken(token).None?
    ensures r.Success? ==> Some(r.value) == DecodeToken(token)
    ensures r.Failure? ==> r.error == AuthFailure
  {
    match DecodeToken(token)
    case Some(u) => Success(u)
    case None => Failure(AuthFailure)
  }

  /** The 401's detail names the code `from_status(401)` gives, and asks for a Bearer token. */
  lemma AuthFailureIsConsistent()
    ensures AuthFailure.status == 401
    ensures AuthFailure.detail.fields["code"] == JStr(Value(FromStatus(AuthFailure.status)))
    ensures AuthFailure.headers["WWW-Authenticate"] == "Bearer"
  {
  }

  /** Answered by the handler as written, a rejected token gets the envelope with
      E_AUTH_FAILED and the detail's message, but no `WWW-Authenticate` header, which
      section 11.6.1 of RFC 9110 requires on a 401; the corrected handler keeps it. */
  lemma RejectedTokenLosesChallenge(token: string, requestId: Option<string>)
    requires token != DemoToken
    ensures var exc := GetCurrentUser(token).error;
            var r := HttpExceptionHandler(exc, requestId);
            && r.Success? && r.value.status == 401
            && r.value.content["code"] == JStr("E_AUTH_FAILED")
            && r.value.content["message"] == JStr("Invalid or expired token")
            && "WWW-Authenticate" !in r.value.headers
            && HttpExceptionHandlerCorrected(exc, requestId).headers["WWW-Authenticate"] == "Bearer"
  {
    var f := AuthFailure.detail.fields;
    assert "message" in f && f["message"] == JStr("Invalid or expired token");
  }
}
