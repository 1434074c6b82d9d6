/**
 * The Claude adapter of the AI gateway (services/providers/ClaudeService.js):
 * configured when `CLAUDE_API_KEY` is set, but it generates nothing.
 */
module ClaudeService {
  import opened JsCore
  import opened Generation

  /** The adapter; `client` tells whether the constructor built an HTTP client. */
  datatype ClaudeService = ClaudeService(client: bool)

  function New(env: Env): (svc: ClaudeService)
    ensures svc.client <==> EnvVar(env, "CLAUDE_API_KEY") != ""
  {
    ClaudeService(EnvVar(env, "CLAUDE_API_KEY") != "")
  }

  predicate IsConfigured(svc: ClaudeService) {
    svc.client
  }

  /** `generateImage(prompt)`: always throws, and sends nothing. */
  function GenerateImage(svc: ClaudeService, prompt: JsVal): (r: Outcome<ImageResult>)
    ensures r.Throw?
    ensures !IsConfigured(svc) ==> r.exn == Error("Claude is not configured")
    ensures IsConfigured(svc) ==> r.exn == Error("Image generation not yet supported by Claude")
  {
    if !IsConfigured(svc) then Throw(Error("Claude is not configured"))
    else Throw(Error("Image generation not yet supported by Claude"))
  }
}
