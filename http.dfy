/** Responses as the server writes them: status, header set and JSON payload. */
module Http {

  datatype Header = Header(name: string, value: string)

  /** The three CORS headers every response carries. */
  const CorsHeaders: seq<Header> := [
    Header("Access-Control-Allow-Origin", "*"),
    Header("Access-Control-Allow-Methods", "GET, POST, OPTIONS"),
    Header("Access-Control-Allow-Headers", "Content-Type")
  ]

  /** The header set of `sendJSON`: Content-Type first, then the CORS headers. */
  const JsonHeaders: seq<Header> := [Header("Content-Type", "application/json")] + CorsHeaders

  /** A stored record. */
  datatype Item = Item(id: nat, name: string)

  /** What the response body holds before `JSON.stringify`; NoBody is `res.end()`. */
  datatype Payload =
    | NoBody
    | ItemArray(items: seq<Item>)
    | ItemObject(item: Item)
    | ErrorObject(error: string)

  datatype Response = Response(status: nat, headers: seq<Header>, payload: Payload)

  predicate HasHeader(r: Response, name: string)
  {
    exists k :: 0 <= k < |r.headers| && r.headers[k].name == name
  }

  /** True when `r` carries all three CORS headers with their fixed values. */
  predicate HasCors(r: Response)
  {
    forall h :: h in CorsHeaders ==> h in r.headers
  }

  /** `sendJSON(res, status, data)`. */
  function SendJson(status: nat, data: Payload): (r: Response)
    ensures r.status == status && r.payload == data
    ensures HasCors(r)
    ensures Header("Content-Type", "application/json") in r.headers
  {
    Response(status, JsonHeaders, data)
  }

  /** The OPTIONS answer: 200, the CORS headers only, an empty body. */
  function PreflightResponse(): (r: Response)
    ensures r.status == 200 && r.payload == NoBody
    ensures HasCors(r) && !HasHeader(r, "Content-Type")
  {
    Response(200, CorsHeaders, NoBody)
  }
}
