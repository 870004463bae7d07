/**
 * sendApiRequest: one call of the HTTP transport (axios), whose outcome is
 * adapted into the response envelope the viewer shows. The transport is a
 * `Network` object: a fixed answer to each request it may be given (a
 * completed exchange or a thrown error) and a log of the requests sent.
 */
module ApiClient {
  import opened JsonValues

  type Headers = map<string, string>

  /** The request configuration handed to the transport. */
  datatype ApiRequest = ApiRequest(httpMethod: Json, url: string, headers: Json, body: Json)

  /** The response an error carries when the server did answer. */
  datatype ErrorResponse = ErrorResponse(status: int, data: Json)

  /** What the transport call does: resolve with a response, or reject with an
      error that may carry the server's response and always carries a message. */
  datatype TransportOutcome =
    | Completed(status: int, data: Json, headers: Headers)
    | Failed(response: Option<ErrorResponse>, message: string)

  /** The value sendApiRequest resolves to; `headers` is absent on failure. */
  datatype Envelope = Envelope(success: bool, data: Json, status: int, headers: Option<Headers>)

  /** The status reported when the failure carries no usable status. */
  const FallbackStatus: int := 500

  /** The envelope for one transport outcome. The catch branch uses `||`, so a
      status of 0 becomes 500 and a falsy error body (null, false, 0, "")
      becomes the error's message. */
  function ToEnvelope(outcome: TransportOutcome): (r: Envelope)
    ensures r.success <==> outcome.Completed?
    ensures r.headers.Some? <==> r.success
    ensures outcome.Completed? ==>
              r.data == outcome.data && r.status == outcome.status && r.headers == Some(outcome.headers)
    ensures outcome.Failed? ==> r.status != 0
    ensures outcome.Failed? && outcome.response.Some? && outcome.response.value.status != 0 ==>
              r.status == outcome.response.value.status
    ensures outcome.Failed? && (outcome.response.None? || outcome.response.value.status == 0) ==>
              r.status == FallbackStatus
    ensures outcome.Failed? && outcome.response.Some? && Truthy(outcome.response.value.data) ==>
              r.data == outcome.response.value.data
    ensures outcome.Failed? && (outcome.response.None? || !Truthy(outcome.response.value.data)) ==>
              r.data == JString(outcome.message)
  {
    match outcome
    case Completed(status, data, headers) =>
      Envelope(true, data, status, Some(headers))
    case Failed(response, message) =>
      var data := if response.Some? then OrElse(Some(response.value.data), JString(message))
                  else JString(message);
      var status := if response.Some? && response.value.status != 0 then response.value.status
                    else FallbackStatus;
      Envelope(false, data, status, None)
  }

  /**
   * The HTTP transport (axios). What it answers to a request is fixed by
   * `respond`; `sent` records every request handed to it, in order.
   */
  class Network {
    const respond: ApiRequest -> TransportOutcome
    ghost var sent: seq<ApiRequest>

    constructor (respond: ApiRequest -> TransportOutcome)
      ensures this.respond == respond
      ensures sent == []
    {
      this.respond := respond;
      sent := [];
    }

    /** One call of the transport: the request is recorded as sent, and the
        outcome is the answer to it. */
    method Send(request: ApiRequest) returns (outcome: TransportOutcome)
      modifies this`sent
      ensures sent == old(sent) + [request]
      ensures outcome == respond(request)
    {
      sent := sent + [request];
      outcome := respond(request);
    }
  }

  /** sendApiRequest(httpMethod, url, headers, body): exactly one request, made
      of the four arguments, goes to the transport, and the answer to it
      decides the envelope. It never throws: every outcome has an envelope. */
  method SendApiRequest(net: Network, httpMethod: Json, url: string, headers: Json, body: Json)
    returns (r: Envelope)
    modifies net`sent
    ensures net.sent == old(net.sent) + [ApiRequest(httpMethod, url, headers, body)]
    ensures r == ToEnvelope(net.respond(ApiRequest(httpMethod, url, headers, body)))
  {
    var outcome := net.Send(ApiRequest(httpMethod, url, headers, body));
    r := ToEnvelope(outcome);
  }

  /** A network error (no response at all) is reported as status 500 with the
      error's message as the payload. */
  lemma NetworkErrorEnvelope(message: string)
    ensures ToEnvelope(Failed(None, message)) == Envelope(false, JString(message), FallbackStatus, None)
  {
  }

  /** A server error body that is falsy is replaced by the error message, while
      the server's non-zero status is kept. */
  lemma FalsyErrorBodyReplaced(status: int, data: Json, message: string)
    requires status != 0 && !Truthy(data)
    ensures ToEnvelope(Failed(Some(ErrorResponse(status, data)), message))
            == Envelope(false, JString(message), status, None)
  {
  }
}
