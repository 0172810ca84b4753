/** The part of an HTTP response the handlers decide: the status code and the body. */
module Http {
  import Models

  const Ok200: nat := 200
  const Accepted202: nat := 202
  /** 408 Request Timeout (section 15.5.9 of RFC 9110). */
  const RequestTimeout408: nat := 408
  const InternalServerError500: nat := 500

  /** `StatusCode::from_u16` accepts exactly the three-digit codes. */
  predicate IsValidStatusCode(code: int)
  {
    100 <= code <= 999
  }

  /** What the handlers put in a body: nothing, plain text, or a value serialised as JSON. */
  datatype Body =
    | NoBody
    | Text(text: string)
    | StatusJson(status: Models.Status)
    | StringJson(json: string)
    | SimuleringJson(simulering: Models.Simulering)

  datatype Response = Response(code: nat, body: Body)
}
