/**
 * The DeepAI adapter under services/providers/: one form-encoded request that
 * accepts any status; the outcome, success or failure, is returned as a value.
 */
module DeepAIProviderService {
  import opened JsText
  import opened JsCore
  import opened Http
  import opened Json
  import opened Generation
  import opened UriEncoding

  /** The adapter; the key only goes into a request header. */
  datatype DeepAIService = DeepAIService(apiKey: string)

  /** The `application/x-www-form-urlencoded` request body. */
  function RequestBody(prompt: string): (body: string)
    ensures StartsWith(body, "text=") && body[5..] == EncodeURIComponent(prompt)
  {
    "text=" + EncodeURIComponent(prompt)
  }

  /** The network: the reply to a POST of the given body to the text2img endpoint. */
  type Network = string -> Reply

  /** The `catch` block: an error carrying a response is described by it, any other by its message. */
  function CatchMessage(e: Exn): (m: string)
    ensures e.response.None? ==> m == e.message
    ensures e.response.Some? ==>
      m == "API Error (" + IntToString(e.response.value.status) + "): " + JsonText(e.response.value.data)
  {
    if e.response.Some? then
      "API Error (" + IntToString(e.response.value.status) + "): " + JsonText(e.response.value.data)
    else e.message
  }

  function StatusMessage(status: int, data: JsVal): string
  {
    "API returned status " + IntToString(status) + ": " + JsonText(data)
  }

  /** `generateImage(prompt)`. */
  function GenerateImage(svc: DeepAIService, prompt: string, net: Network): (r: FlagResult)
    ensures r.provider == "deepai"
    ensures var reply := net(RequestBody(prompt));
      r.Succeeded? <==> reply.Response? && reply.status == 200 && Truthy(reply.data)
                        && Truthy(OptGet(reply.data, "output_url"))
    ensures r.Succeeded? ==> Truthy(r.url) && r.url == OptGet(net(RequestBody(prompt)).data, "output_url")
    ensures var reply := net(RequestBody(prompt));
      reply.Response? && reply.status != 200 ==> r == Failed(StatusMessage(reply.status, reply.data), "deepai")
    ensures var reply := net(RequestBody(prompt));
      reply.Response? && reply.status == 200 && !r.Succeeded? ==>
        r == Failed("Invalid response structure from DeepAI: " + JsonText(reply.data), "deepai")
    ensures var reply := net(RequestBody(prompt));
      reply.NetworkError? ==> r == Failed(reply.message, "deepai")
  {
    match Settle(net(RequestBody(prompt)), AnyStatus)
    case Throw(e) => Failed(CatchMessage(e), "deepai")
    case Ok(response) =>
      if response.status != 200 then Failed(CatchMessage(Error(StatusMessage(response.status, response.data))), "deepai")
      else if Truthy(response.data) && Truthy(OptGet(response.data, "output_url")) then
        Succeeded(OptGet(response.data, "output_url"), "deepai")
      else Failed(CatchMessage(Error("Invalid response structure from DeepAI: " + JsonText(response.data))), "deepai")
  }

  /**
   * Every status is accepted, so no error reaching the `catch` block carries a
   * response and the "API Error" description never appears.
   */
  lemma NoApiErrorDescription(reply: Reply)
    ensures Settle(reply, AnyStatus).Throw? ==> Settle(reply, AnyStatus).exn.response.None?
  {
  }

  /**
   * The body is a single form field named `text`: after `text=` no `&` or `=`
   * occurs, whatever the prompt holds.
   */
  lemma BodyIsOneField(prompt: string)
    ensures var body := RequestBody(prompt);
      body[..5] == "text=" && forall i :: 5 <= i < |body| ==> body[i] != '&' && body[i] != '='
  {
    var body := RequestBody(prompt);
    EncodedIsFormSafe(prompt);
    forall i | 5 <= i < |body| ensures body[i] != '&' && body[i] != '=' {
      assert body[i] == EncodeURIComponent(prompt)[i - 5];
    }
  }
}
