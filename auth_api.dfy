/** app/api/auth.py: the stub token endpoint. */
module AuthApi {
  import opened Wrappers
  import opened AuthService

  datatype TokenRequest = TokenRequest(username: string, password: string)

  datatype TokenResponse = TokenResponse(accessToken: string, tokenType: string)

  /** `TokenResponse(access_token=...)`: the token type defaults to "bearer". */
  function NewTokenResponse(accessToken: string): (r: TokenResponse)
    ensures r.accessToken == accessToken && r.tokenType == "bearer"
  {
    TokenResponse(accessToken, "bearer")
  }

  /** `issue_token(body)`: the demo token, whatever the credentials. */
  function IssueToken(body: TokenRequest): (r: TokenResponse)
    ensures r.accessToken == DemoToken && r.tokenType == "bearer"
  {
    NewTokenResponse("demo-token")
  }

  /** The answer does not depend on the username or the password. */
  lemma IssueTokenIgnoresCredentials(a: TokenRequest, b: TokenRequest)
    ensures IssueToken(a) == IssueToken(b)
  {
  }

  /** Every issued token is accepted, and stands for the demo user. */
  lemma IssuedTokenAuthenticates(body: TokenRequest)
    ensures DecodeToken(IssueToken(body).accessToken) == Some(DemoUser)
    ensures GetCurrentUser(IssueToken(body).accessToken) == Success(DemoUser)
  {
  }
}
