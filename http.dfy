/**
 * The HTTP client as the adapters see it. A request is answered by the
 * caller-supplied network (a `Reply`: the server's status and body, or a
 * transport failure); the client then resolves or rejects according to the
 * request's `validateStatus` policy, as axios does.
 */
module Http {
  import opened JsText
  import opened JsCore

  /** What the server, or the network, did with one request. */
  datatype Reply = Response(status: int, data: JsVal) | NetworkError(message: string, code: Option<string>)

  /** The `validateStatus` policies the code uses. */
  datatype StatusPolicy =
    | Only2xx        // axios default
    | AnyStatus      // `validateStatus: (status) => true`
    | Only200Or503   // `validateStatus: status => status === 200 || status === 503`

  predicate Accepts(p: StatusPolicy, status: int) {
    match p
    case Only2xx => 200 <= status < 300
    case AnyStatus => true
    case Only200Or503 => status == 200 || status == 503
  }

  /** The error a client raises for a status its policy rejects; it carries the response. */
  function StatusError(status: int, data: JsVal): (e: Exn)
    ensures e.response == Some(HttpResponse(status, data))
  {
    Exn("Request failed with status code " + IntToString(status), None, Some(HttpResponse(status, data)))
  }

  /** Resolving or rejecting the client's promise for one reply. */
  function Settle(reply: Reply, p: StatusPolicy): (r: Outcome<HttpResponse>)
    ensures r.Ok? <==> reply.Response? && Accepts(p, reply.status)
    ensures r.Ok? ==> r.value == HttpResponse(reply.status, reply.data)
    ensures reply.Response? && !Accepts(p, reply.status) ==> r == Throw(StatusError(reply.status, reply.data))
    ensures reply.NetworkError? ==> r == Throw(Exn(reply.message, reply.code, None))
  {
    match reply
    case NetworkError(m, c) => Throw(Exn(m, c, None))
    case Response(s, d) => if Accepts(p, s) then Ok(HttpResponse(s, d)) else Throw(StatusError(s, d))
  }
}
