/** The request/response boundary between drivers and workers, with HTTP and
    JSON decoding replaced by datatypes. */
module Http {
  import opened Wrappers
  import opened Json
  import opened PyText

  /** What a Flask handler produces: a JSON reply with a status code, or an
      exception escaping the handler, which Flask answers with a 500 HTML page. */
  datatype HttpReply = JsonReply(code: int, body: Json) | ServerError

  /** What `requests.post(...)` followed by `response.json()` gives a driver:
      a status code and a decoded body, or the text of the exception raised on
      the way (connection error, timeout, a body that is not JSON). */
  datatype Response = Reply(code: int, body: Json) | TransportError(message: string)

  /** `str(e)` of the decode error for a body that does not start a JSON value
      (the HTML page Flask serves for a 404 or a 500). */
  const NotJsonMessage := "Expecting value: line 1 column 1 (char 0)"

  /** A handler's reply as the driver receives it. */
  function Deliver(h: HttpReply): Response {
    match h
    case JsonReply(code, body) => Reply(code, body)
    case ServerError => TransportError(NotJsonMessage)
  }

  /** A reply the drivers accept: code 200 and a dict body whose "status" is "success". */
  predicate Succeeded(r: Response)
    ensures Succeeded(r) <==> r.Reply? && r.code == 200 && Get(r.body, "status", JNull) == Success(JStr("success"))
    ensures Succeeded(r) ==> Field(r.body, "status") == JStr("success")
  {
    r.Reply? && r.code == 200 && r.body.JObj? && Lookup(r.body.fields, "status") == Some(JStr("success"))
  }

  /** The drivers' test `status_code != 200 or resp.get("status") != "success"`,
      raising `RuntimeError(prefix + str(resp))` when it holds, with the
      exceptions of the call itself and of `resp.get` on a non-dict passed through. */
  function CheckReply(r: Response, prefix: string, fmt: FloatFormat): (res: Result<seq<(string, Json)>>)
    ensures res.Success? <==> Succeeded(r)
    ensures res.Success? ==> res.value == r.body.fields
    ensures r.TransportError? ==> res == Failure(r.message)
    ensures r.Reply? && (r.code != 200 || (r.body.JObj? && !Succeeded(r))) ==>
      res == Failure(prefix + Str(r.body, fmt))
    ensures r.Reply? && r.code == 200 && !r.body.JObj? ==>
      res == Failure("'" + TypeName(r.body) + "' object has no attribute 'get'")
  {
    match r
    case TransportError(message) => Failure(message)
    case Reply(code, body) =>
      if code != 200 then Failure(prefix + Str(body, fmt))
      else
        match Get(body, "status", JNull)
        case Failure(e) => Failure(e)
        case Success(status) =>
          if status != JStr("success") then Failure(prefix + Str(body, fmt)) else Success(body.fields)
  }

  /** `resp.get("summary")` is a non-empty str: the drivers' last check. */
  predicate HasSummary(r: Response)
    ensures HasSummary(r) <==> r.Reply? && Field(r.body, "summary").JStr? && !IsFalsy(Field(r.body, "summary"))
    ensures HasSummary(r) ==> |Field(r.body, "summary").s| > 0
  {
    r.Reply? && Field(r.body, "summary").JStr? && Field(r.body, "summary").s != ""
  }

  /** A 200 JSON reply whose dict body says "success" passes the drivers' check. */
  lemma DeliverSucceeds(h: HttpReply)
    requires h.JsonReply? && h.code == 200 && h.body.JObj? && Field(h.body, "status") == JStr("success")
    ensures Succeeded(Deliver(h))
  {
  }

  /** A JSON reply with a non-empty str under "summary" passes the summary check. */
  lemma DeliverHasSummary(h: HttpReply)
    requires h.JsonReply? && Field(h.body, "summary").JStr? && Field(h.body, "summary").s != ""
    ensures HasSummary(Deliver(h))
  {
  }
}
