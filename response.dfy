/** The response envelopes of app/models/response.py. */
module Response {
  import opened Wrappers
  import opened Http

  /** `PaginationMeta`: exactly these four fields. */
  datatype PaginationMeta = PaginationMeta(total: int, page: int, pageSize: int, hasNext: bool)

  /** `SuccessResponse[T]`. */
  datatype SuccessResponse<T> = SuccessResponse(code: string, message: string, data: Option<T>, meta: Option<PaginationMeta>)

  /** `ErrorResponse`: code and message are required, detail is any JSON value. */
  datatype ErrorResponse = ErrorResponse(code: string, message: string, detail: Json)

  /** `SuccessResponse(data=data, meta=meta)`: the code and message take their defaults. */
  function Success<T>(data: Option<T>, meta: Option<PaginationMeta>): (r: SuccessResponse<T>)
    ensures r.code == "OK" && r.message == "success"
    ensures r.data == data && r.meta == meta
  {
    SuccessResponse("OK", "success", data, meta)
  }

  /** `SuccessResponse()`: every field at its default. */
  function DefaultSuccess<T>(): (r: SuccessResponse<T>)
    ensures r.code == "OK" && r.message == "success"
    ensures r.data == None && r.meta == None
  {
    Success(None, None)
  }

  /** `ErrorResponse(code=code, message=message)`: the detail defaults to `None`. */
  function Error(code: string, message: string): (r: ErrorResponse)
    ensures r.code == code && r.message == message && r.detail == JNull
  {
    ErrorResponse(code, message, JNull)
  }

  /** `ErrorResponse.model_dump()`: one key per field. */
  function Dump(e: ErrorResponse): (m: map<string, Json>)
    ensures m.Keys == {"code", "message", "detail"}
    ensures m["code"] == JStr(e.code) && m["message"] == JStr(e.message) && m["detail"] == e.detail
  {
    map["code" := JStr(e.code), "message" := JStr(e.message), "detail" := e.detail]
  }
}
