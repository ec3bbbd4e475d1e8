/** `ErrorCode` and the status-to-code mapping of app/models/errors.py. */
module Errors {
  import opened Wrappers

  /** The closed set of error codes carried in every error envelope. */
  datatype ErrorCode = NotFound | Validation | AuthFailed | Forbidden | ServerError | BadRequest

  /** The enum member's value, which is spelled exactly as the member's name. */
  function Value(c: ErrorCode): (v: string)
    ensures |v| > 2 && v[..2] == "E_"
  {
    match c
    case NotFound => "E_NOT_FOUND"
    case Validation => "E_VALIDATION"
    case AuthFailed => "E_AUTH_FAILED"
    case Forbidden => "E_FORBIDDEN"
    case ServerError => "E_SERVER_ERROR"
    case BadRequest => "E_BAD_REQUEST"
  }

  /** `ErrorCode(v)`: the member whose value is `v`, if any. */
  function FromValue(v: string): (r: Option<ErrorCode>)
    ensures r.Some? ==> Value(r.value) == v
  {
    if v == "E_NOT_FOUND" then Some(NotFound)
    else if v == "E_VALIDATION" then Some(Validation)
    else if v == "E_AUTH_FAILED" then Some(AuthFailed)
    else if v == "E_FORBIDDEN" then Some(Forbidden)
    else if v == "E_SERVER_ERROR" then Some(ServerError)
    else if v == "E_BAD_REQUEST" then Some(BadRequest)
    else None
  }

  /** Looking a code up by its value gives the code back, so no two codes share a value. */
  lemma ValueRoundTrip(c: ErrorCode)
    ensures FromValue(Value(c)) == Some(c)
  {
  }

  lemma ValueInjective(c: ErrorCode, d: ErrorCode)
    requires Value(c) == Value(d)
    ensures c == d
  {
    ValueRoundTrip(c);
    ValueRoundTrip(d);
  }

  /** `ErrorCode.from_status`: total; 400 and every status outside the table give BadRequest. */
  function FromStatus(status: int): (r: ErrorCode)
    ensures r == AuthFailed <==> status == 401
    ensures r == Forbidden <==> status == 403
    ensures r == NotFound <==> status == 404
    ensures r == ServerError <==> 500 <= status <= 599
    ensures r == BadRequest <==> status != 401 && status != 403 && status != 404 && !(500 <= status <= 599)
    ensures r != Validation
  {
    if status == 400 then BadRequest
    else if status == 401 then AuthFailed
    else if status == 403 then Forbidden
    else if status == 404 then NotFound
    else if 500 <= status <= 599 then ServerError
    else BadRequest
  }

  /** Status classes of section 15 of RFC 9110 that matter to the mapping. */
  predicate IsClientError(status: int) { 400 <= status <= 499 }
  predicate IsServerError(status: int) { 500 <= status <= 599 }

  /** The mapping follows the client/server split of RFC 9110: a 5xx status always gives
      ServerError and a 4xx status never does. */
  lemma FromStatusFollowsStatusClass(status: int)
    ensures IsServerError(status) <==> FromStatus(status) == ServerError
    ensures IsClientError(status) ==> FromStatus(status) in {BadRequest, AuthFailed, Forbidden, NotFound}
  {
  }
}
