/**
 * The Llama adapter of the AI gateway (services/providers/LlamaService.js): a
 * placeholder whose client is never built.
 */
module LlamaService {
  import opened JsCore
  import opened Generation

  /** The adapter; `client` tells whether a client exists. */
  datatype LlamaService = LlamaService(client: bool)

  /** The constructor leaves the client null. */
  function New(): (svc: LlamaService)
    ensures !svc.client
  {
    LlamaService(false)
  }

  predicate IsConfigured(svc: LlamaService) {
    svc.client
  }

  /** `generateImage(prompt)`: throws whichever way the client is set. */
  function GenerateImage(svc: LlamaService, prompt: JsVal): (r: Outcome<ImageResult>)
    ensures r.Throw?
    ensures !IsConfigured(svc) ==> r.exn == Error("Llama is not configured")
    ensures IsConfigured(svc) ==> r.exn == Error("Image generation not yet supported by Llama")
  {
    if !IsConfigured(svc) then Throw(Error("Llama is not configured"))
    else Throw(Error("Image generation not yet supported by Llama"))
  }

  /** As constructed the adapter is never configured, so the "not yet supported" branch cannot be reached. */
  lemma NeverConfigured(prompt: JsVal)
    ensures !IsConfigured(New())
    ensures GenerateImage(New(), prompt) == Throw(Error("Llama is not configured"))
  {
  }
}
