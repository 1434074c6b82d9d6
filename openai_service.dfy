/**
 * The OpenAI adapter of the AI gateway (services/providers/OpenAIService.js):
 * configured from the trimmed `OPENAI_API_KEY`; one SDK call; the first image's
 * URL or a mapped error.
 */
module OpenAIService {
  import opened JsText
  import opened JsCore
  import opened Generation

  /** The adapter; `client` holds the trimmed key the SDK client was built with, if any. */
  datatype OpenAIService = OpenAIService(client: Option<string>)

  /** The constructor: the key with surrounding white space removed, and a client only if that is nonempty. */
  function New(env: Env): (svc: OpenAIService)
    ensures svc.client.Some? <==> Trim(EnvVar(env, "OPENAI_API_KEY")) != ""
    ensures svc.client.Some? ==> svc.client.value == Trim(EnvVar(env, "OPENAI_API_KEY"))
  {
    var raw := EnvVar(env, "OPENAI_API_KEY");
    var apiKey := if raw != "" then Trim(raw) else "";
    if apiKey != "" then OpenAIService(Some(apiKey)) else OpenAIService(None)
  }

  predicate IsConfigured(svc: OpenAIService) {
    svc.client.Some?
  }

  /** The adapter is configured exactly when the key holds a character other than white space. */
  lemma ConfiguredIffKeyNotBlank(env: Env)
    ensures IsConfigured(New(env)) <==> !AllWhiteSpace(EnvVar(env, "OPENAI_API_KEY"))
  {
    TrimEmptyIffAllWhiteSpace(EnvVar(env, "OPENAI_API_KEY"));
  }

  /** The `images.generate` parameters. */
  datatype Request = Request(model: string, prompt: JsVal, n: nat, size: string, quality: string, responseFormat: string)

  function RequestFor(prompt: JsVal): (q: Request)
    ensures q.prompt == prompt && q.model == "dall-e-2" && q.n == 1
    ensures q.size == "1024x1024" && q.quality == "standard" && q.responseFormat == "url"
  {
    Request("dall-e-2", prompt, 1, "1024x1024", "standard", "url")
  }

  /** The SDK: the response object, or the error it throws (which may carry a `code`). */
  type Sdk = Request -> Outcome<JsVal>

  const InvalidResponseMessage := "Invalid response from OpenAI API"
  const QuotaMessage := "OpenAI API quota exceeded. Please check your billing settings."

  /** `response.data[0].url`, checked for truthiness at each step as the adapter does. */
  function ImageUrl(response: JsVal): (r: Outcome<JsVal>)
    ensures r.Ok? ==> Truthy(r.value)
    ensures r.Ok? <==> !IsNullish(response) && Truthy(OptGet(response, "data"))
                       && Truthy(OptAt(OptGet(response, "data"), 0))
                       && Truthy(OptGet(OptAt(OptGet(response, "data"), 0), "url"))
    ensures IsNullish(response) ==> r == Throw(ReadError(response, "data"))
    ensures !IsNullish(response) && r.Throw? ==> r.exn == Error(InvalidResponseMessage)
  {
    match Get(response, "data")
    case Throw(e) => Throw(e)
    case Ok(data) =>
      if !Truthy(data) then Throw(Error(InvalidResponseMessage))
      else
        var first := Element(data, 0);
        if !Truthy(first) then Throw(Error(InvalidResponseMessage))
        else
          var url := OwnProperty(first, "url");
          if !Truthy(url) then Throw(Error(InvalidResponseMessage)) else Ok(url)
  }

  /** The `catch` block: a quota error gets its own message, every other error is prefixed. */
  function MapError(e: Exn): (m: Exn)
    ensures e.code == Some("insufficient_quota") ==> m == Error(QuotaMessage)
    ensures e.code != Some("insufficient_quota") ==> m == Error("OpenAI image generation failed: " + e.message)
  {
    if e.code == Some("insufficient_quota") then Error(QuotaMessage)
    else Error("OpenAI image generation failed: " + e.message)
  }

  /** `generateImage(prompt)`. */
  function GenerateImage(svc: OpenAIService, prompt: JsVal, sdk: Sdk): (r: Outcome<ImageResult>)
    ensures !IsConfigured(svc) ==> r == Throw(Error("OpenAI is not configured"))
    ensures r.Ok? <==> IsConfigured(svc) && sdk(RequestFor(prompt)).Ok? && ImageUrl(sdk(RequestFor(prompt)).value).Ok?
    ensures r.Ok? ==> Truthy(r.value.url) && r.value.url == ImageUrl(sdk(RequestFor(prompt)).value).value
    ensures r.Ok? ==> r.value.model == "dall-e-2" && r.value.provider == "openai" && r.value.size == "1024x1024"
    ensures IsConfigured(svc) && sdk(RequestFor(prompt)).Throw? ==> r == Throw(MapError(sdk(RequestFor(prompt)).exn))
    ensures IsConfigured(svc) && sdk(RequestFor(prompt)).Ok? && ImageUrl(sdk(RequestFor(prompt)).value).Throw? ==> r == Throw(MapError(ImageUrl(sdk(RequestFor(prompt)).value).exn))
  {
    if !IsConfigured(svc) then Throw(Error("OpenAI is not configured"))
    else
      match sdk(RequestFor(prompt))
      case Throw(e) => Throw(MapError(e))
      case Ok(response) =>
        match ImageUrl(response)
        case Throw(e) => Throw(MapError(e))
        case Ok(url) => Ok(ImageResult(url, "dall-e-2", "openai", "1024x1024"))
  }

  /**
   * A response whose `data`, `data[0]` or `data[0].url` is falsy is reported as a
   * failed generation, never as a result.
   */
  lemma InvalidResponseIsPrefixedFailure(svc: OpenAIService, prompt: JsVal, sdk: Sdk)
    requires IsConfigured(svc) && sdk(RequestFor(prompt)).Ok?
    requires var resp := sdk(RequestFor(prompt)).value;
      && !IsNullish(resp)
      && (|| !Truthy(OptGet(resp, "data"))
          || !Truthy(OptAt(OptGet(resp, "data"), 0))
          || !Truthy(OptGet(OptAt(OptGet(resp, "data"), 0), "url")))
    ensures GenerateImage(svc, prompt, sdk) == Throw(Error("OpenAI image generation failed: " + InvalidResponseMessage))
  {
  }

  /** A nullish response makes the `response.data` read a TypeError, which is reported prefixed. */
  lemma NullishResponseIsPrefixedTypeError(svc: OpenAIService, prompt: JsVal, sdk: Sdk)
    requires IsConfigured(svc) && sdk(RequestFor(prompt)).Ok? && IsNullish(sdk(RequestFor(prompt)).value)
    ensures var resp := sdk(RequestFor(prompt)).value;
      GenerateImage(svc, prompt, sdk) == Throw(Error("OpenAI image generation failed: " + ReadError(resp, "data").message))
  {
  }
}
