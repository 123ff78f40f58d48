/** The HTTP replies of the two edge functions, as the clients read them. */
module Http {
  import opened Wrappers

  /** The JSON body fields the edge functions write and their clients read;
      `result` stands for the platform's reply, kept opaque. */
  datatype Json = Json(
    success: Option<bool>,
    error: Option<string>,
    message: Option<string>,
    result: Option<string>)

  datatype Response = Response(status: int, body: Option<Json>)

  predicate IsOk(r: Response) { 200 <= r.status <= 299 }

  /** The CORS preflight reply: headers only, no body. */
  const Preflight: Response := Response(200, None)

  function ErrorJson(msg: string): Json {
    Json(None, Some(msg), None, None)
  }

  function SuccessJson(result: Option<string>): Json {
    Json(Some(true), None, None, result)
  }
}
