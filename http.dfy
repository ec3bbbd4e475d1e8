/** The framework values the core exchanges with FastAPI/Starlette: JSON-like payloads,
    `HTTPException` and `JSONResponse`. */
module Http {
  import opened Wrappers

  /** A JSON-serialisable Python value (`None`, bool, int, str, list, dict). */
  datatype Json =
    | JNull
    | JBool(b: bool)
    | JInt(i: int)
    | JStr(s: string)
    | JList(elems: seq<Json>)
    | JObject(fields: map<string, Json>)

  /** An optional string as it lands in a JSON payload: `None` becomes `null`. */
  function OptText(o: Option<string>): (j: Json)
    ensures o.None? <==> j == JNull
    ensures o.Some? ==> j == JStr(o.value)
  {
    match o
    case Some(s) => JStr(s)
    case None => JNull
  }

  /** FastAPI's `HTTPException(status_code, detail, headers)`. */
  datatype HttpException = HttpException(status: int, detail: Json, headers: map<string, string>)

  /** Starlette's `JSONResponse(status_code, content, headers)`. */
  datatype JsonResponse = JsonResponse(status: int, content: map<string, Json>, headers: map<string, string>)
}
