/**
 * The stand-alone DeepAI adapter (services/DeepAIService.js): one JSON request;
 * the outcome is returned as a value.
 */
module DeepAIService {
  import opened JsCore
  import opened Http
  import opened Generation

  datatype DeepAIService = DeepAIService(apiKey: string)

  /** The JSON body `{text}`. */
  datatype Request = Request(text: JsVal)

  type Network = Request -> Reply

  const InvalidResponseMessage := "Invalid response from DeepAI API"

  /** `generateImage(prompt)`. */
  function GenerateImage(svc: DeepAIService, prompt: JsVal, net: Network): (r: FlagResult)
    ensures r.provider == "deepai"
    ensures var s := Settle(net(Request(prompt)), Only2xx);
      r.Succeeded? <==> s.Ok? && Truthy(s.value.data) && Truthy(OptGet(s.value.data, "output_url"))
    ensures r.Succeeded? ==> Truthy(r.url) && r.url == OptGet(net(Request(prompt)).data, "output_url")
    ensures var s := Settle(net(Request(prompt)), Only2xx);
      s.Ok? && !r.Succeeded? ==> r == Failed(InvalidResponseMessage, "deepai")
    ensures var s := Settle(net(Request(prompt)), Only2xx);
      s.Throw? ==> r == Failed(s.exn.message, "deepai")
  {
    match Settle(net(Request(prompt)), Only2xx)
    case Throw(e) => Failed(e.message, "deepai")
    case Ok(response) =>
      if Truthy(response.data) && Truthy(OptGet(response.data, "output_url")) then
        Succeeded(OptGet(response.data, "output_url"), "deepai")
      else Failed(InvalidResponseMessage, "deepai")
  }

  /** A 2xx reply of a non-object body, or of an object without `output_url`, is a failure, not a result. */
  lemma MissingOutputUrlFails(svc: DeepAIService, prompt: JsVal, net: Network)
    requires net(Request(prompt)).Response? && 200 <= net(Request(prompt)).status < 300
    requires !Truthy(OptGet(net(Request(prompt)).data, "output_url"))
    ensures GenerateImage(svc, prompt, net) == Failed(InvalidResponseMessage, "deepai")
  {
  }
}
