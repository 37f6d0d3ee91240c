/** `error_parser`: how every HTTP response of the venue is turned into a
    value or an exception. */
module Common {
  import opened Json

  /** An HTTP response: its status code and what `response.json()` gives,
      with `None` where that call raises (the body is not JSON). */
  datatype Response = Response(statusCode: int, body: Option<Json>)

  /** What the exception raised by `error_parser` carries. */
  datatype Failure = BodyFailure(body: Json) | MessageFailure(message: string)

  /** The outcome of `error_parser`: a returned value (`None` stands for
      Python's `None`) or a raised exception. */
  datatype Outcome = Returned(value: Option<Json>) | Raised(failure: Failure)

  /** The fixed message for a failed response without a usable body. */
  const NoResponseMessage: string := "レスポンスを取得できませんでした。"

  /** `res_json`: the decoded body, or `None` when decoding raised. A JSON
      `null` body decodes to Python's `None` as well. */
  function ParsedBody(r: Response): (b: Option<Json>)
    ensures b.Some? ==> r.body == b && b.value != JNull
    ensures b.None? <==> r.body.None? || r.body == Some(JNull)
  {
    if r.body == Some(JNull) then None else r.body
  }

  /** `error_parser`: status 200 returns the decoded body, whatever it is;
      any other status raises, with the decoded body when there is one and
      with the fixed message otherwise. */
  function ErrorParser(r: Response): (o: Outcome)
    ensures o.Returned? <==> r.statusCode == 200
    ensures o.Returned? ==> o.value == ParsedBody(r)
    ensures o.Raised? && o.failure.BodyFailure? <==>
              r.statusCode != 200 && r.body.Some? && r.body.value != JNull
    ensures o.Raised? && o.failure.BodyFailure? ==> Some(o.failure.body) == r.body
    ensures o.Raised? && o.failure.MessageFailure? ==> o.failure.message == NoResponseMessage
  {
    var resJson := ParsedBody(r);
    if r.statusCode == 200 then Returned(resJson)
    else if resJson.Some? then Raised(BodyFailure(resJson.value))
    else Raised(MessageFailure(NoResponseMessage))
  }
}
