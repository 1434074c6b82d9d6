/**
 * The stand-alone Midjourney adapter (services/MidjourneyService.js): one JSON
 * request; the outcome is returned as a value.
 */
module MidjourneyService {
  import opened JsCore
  import opened Http
  import opened Generation

  datatype MidjourneyService = MidjourneyService(apiKey: string)

  /** The JSON body `{prompt, version}`. */
  datatype Request = Request(prompt: JsVal, version: string)

  function RequestFor(prompt: JsVal): (q: Request)
    ensures q.prompt == prompt && q.version == "v4"
  {
    Request(prompt, "v4")
  }

  type Network = Request -> Reply

  const InvalidResponseMessage := "Invalid response from Midjourney API"

  /** `generateImage(prompt)`. */
  function GenerateImage(svc: MidjourneyService, prompt: JsVal, net: Network): (r: FlagResult)
    ensures r.provider == "midjourney"
    ensures var s := Settle(net(RequestFor(prompt)), Only2xx);
      r.Succeeded? <==> s.Ok? && Truthy(s.value.data) && Truthy(OptGet(s.value.data, "imageUrl"))
    ensures r.Succeeded? ==> Truthy(r.url) && r.url == OptGet(net(RequestFor(prompt)).data, "imageUrl")
    ensures var s := Settle(net(RequestFor(prompt)), Only2xx);
      s.Ok? && !r.Succeeded? ==> r == Failed(InvalidResponseMessage, "midjourney")
    ensures var s := Settle(net(RequestFor(prompt)), Only2xx);
      s.Throw? ==> r == Failed(s.exn.message, "midjourney")
  {
    match Settle(net(RequestFor(prompt)), Only2xx)
    case Throw(e) => Failed(e.message, "midjourney")
    case Ok(response) =>
      if Truthy(response.data) && Truthy(OptGet(response.data, "imageUrl")) then
        Succeeded(OptGet(response.data, "imageUrl"), "midjourney")
      else Failed(InvalidResponseMessage, "midjourney")
  }
}
