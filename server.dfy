/**
 * The image-generation route of the server (server.js, `POST /api/generate`):
 * it reads the options with their defaults, enhances the prompt with suffixes
 * chosen by quality, type and style, picks the avatar settings of the named
 * provider, asks the Portkey gateway first, falls back to the AI gateway when
 * that throws, and shapes the JSON reply.
 */
module Server {
  import opened JsText
  import opened JsCore
  import opened Generation
  import PortkeyProviders
  import PortkeyRequests
  import PortkeyGateway
  import PortkeyProperties
  import AIGateway

  /** The request body the route reads: `{prompt, provider, options}`; a missing provider is `""`. */
  datatype Body = Body(prompt: string, provider: string, options: JsVal)

  const HdSuffix := ", highly detailed, sharp focus, high resolution"
  const UltraHdSuffix := ", ultra high definition, extremely detailed, 4K resolution, maximum quality, sharp focus"
  const MasterpieceSuffix := ", masterpiece, best quality, highly detailed"

  /** What `prompt += table[key]` appends for a key the table does not have: an inherited member's text, or nothing. */
  function Missing(key: string): string
  {
    if key in PrototypeKeys then InheritedText(key) else ""
  }

  /** `styleEnhancements[key]`, for general images. */
  function StyleEnhancement(key: string): string
  {
    if key == "anime" then ", high quality anime artwork, detailed anime art style, vibrant colors, manga-inspired, professional anime illustration"
    else if key == "photographic" then ", professional photography, perfect lighting, high-end camera, photorealistic quality, masterful composition, 8k resolution"
    else if key == "digital-art" then ", professional digital artwork, detailed digital painting, concept art quality, trending on artstation, vibrant colors, masterful digital illustration"
    else if key == "oil-painting" then ", masterful oil painting, rich textures, traditional oil painting techniques, detailed brushwork, gallery quality artwork, fine art"
    else if key == "watercolor" then ", beautiful watercolor painting, delicate brushstrokes, artistic watercolor effects, traditional watercolor techniques, professional watercolor illustration"
    else Missing(key)
  }

  /** `avatarStyleEnhancements[key]`. */
  function AvatarStyleEnhancement(key: string): string
  {
    if key == "realistic" then ", professional headshot portrait, photorealistic, 8k, detailed facial features, professional lighting, high-end camera, clean background"
    else if key == "anime" then ", high quality anime portrait, detailed anime character design, studio ghibli inspired, professional anime illustration, clean background"
    else if key == "3d" then ", 3D rendered portrait, pixar style, high quality 3D character, detailed textures, professional 3D modeling, clean background"
    else if key == "pixel" then ", high quality pixel art portrait, 32-bit style, detailed pixel art character, professional pixel art, clean background"
    else Missing(key)
  }

  predicate IsHighQuality(quality: JsVal) {
    quality == Str("hd") || quality == Str("4k")
  }

  function QualitySuffix(quality: JsVal): string
  {
    if quality == Str("hd") then HdSuffix else if quality == Str("4k") then UltraHdSuffix else ""
  }

  /** The enhanced prompt: the prompt, the quality suffix, then what the general or the avatar type adds. */
  function Enhanced(prompt: string, style: JsVal, quality: JsVal, kind: JsVal): string
  {
    var withQuality := prompt + QualitySuffix(quality);
    var general :=
      if kind == Str("general")
      then withQuality + StyleEnhancement(ToStr(style)) + (if IsHighQuality(quality) then MasterpieceSuffix else "")
      else withQuality;
    if kind == Str("avatar") then general + AvatarStyleEnhancement(ToStr(style)) else general
  }

  /**
   * `avatarSettings[provider] || {}` as the properties a spread copies; an
   * inherited member is truthy but has no own enumerable property to copy.
   */
  function AvatarSettings(provider: string): seq<(string, JsVal)>
  {
    if provider == "openai" then [("model", Str("dall-e-3")), ("quality", Str("hd")), ("style", Str("vivid"))]
    else if provider == "huggingface" then
      [("model", Str("stabilityai/stable-diffusion-xl-base-1.0")), ("guidance_scale", Num(8.5)),
       ("num_inference_steps", Num(50.0))]
    else []
  }

  function ProviderSettings(provider: string, kind: JsVal): seq<(string, JsVal)>
  {
    if kind == Str("avatar") then AvatarSettings(provider) else []
  }

  /**
   * The enhancement block: the prompt grows by `+=` in the order the route writes
   * it, and `providerSettings` is reassigned for avatars.
   */
  method EnhancePrompt(prompt: string, provider: string, style: JsVal, quality: JsVal, kind: JsVal)
    returns (enhancedPrompt: string, providerSettings: seq<(string, JsVal)>)
    ensures enhancedPrompt == Enhanced(prompt, style, quality, kind)
    ensures providerSettings == ProviderSettings(provider, kind)
  {
    enhancedPrompt := prompt;
    enhancedPrompt := AddQuality(enhancedPrompt, quality);
    if kind == Str("general") {
      enhancedPrompt := AddGeneral(enhancedPrompt, style, quality);
    }
    providerSettings := [];
    if kind == Str("avatar") {
      enhancedPrompt := AddEnhancement(enhancedPrompt, AvatarStyleEnhancement(ToStr(style)));
      providerSettings := AvatarSettings(provider);
    }
  }

  /** The quality suffix, `+=` for `'hd'` or `'4k'`. */
  method AddQuality(prompt: string, quality: JsVal) returns (enhancedPrompt: string)
    ensures enhancedPrompt == prompt + QualitySuffix(quality)
  {
    enhancedPrompt := prompt;
    if quality == Str("hd") {
      enhancedPrompt := enhancedPrompt + HdSuffix;
    } else if quality == Str("4k") {
      enhancedPrompt := enhancedPrompt + UltraHdSuffix;
    }
  }

  /** The general-image block: the style's suffix, then the quality details for `'hd'` or `'4k'`. */
  method AddGeneral(prompt: string, style: JsVal, quality: JsVal) returns (enhancedPrompt: string)
    ensures enhancedPrompt
         == prompt + StyleEnhancement(ToStr(style)) + (if IsHighQuality(quality) then MasterpieceSuffix else "")
  {
    enhancedPrompt := AddEnhancement(prompt, StyleEnhancement(ToStr(style)));
    if quality == Str("hd") || quality == Str("4k") {
      enhancedPrompt := enhancedPrompt + MasterpieceSuffix;
    }
  }

  /** `if (table[key]) prompt += table[key]`, given what the lookup finds. */
  method AddEnhancement(prompt: string, enhancement: string) returns (enhancedPrompt: string)
    ensures enhancedPrompt == prompt + enhancement
  {
    enhancedPrompt := prompt;
    if enhancement != "" {
      enhancedPrompt := enhancedPrompt + enhancement;
    }
  }

  /** A destructured property with a default: the default replaces only `undefined`. */
  function Default(v: JsVal, d: JsVal): JsVal
  {
    if v.Undefined? then d else v
  }

  /** The request as the route sends it on: the enhanced prompt, the options read, the gateway options and target. */
  datatype Plan = Plan(enhanced: string, style: JsVal, quality: JsVal, kind: JsVal, imageOptions: JsVal, target: string)

  /** `{size: '1024x1024', quality, type, style, ...providerSettings}`. */
  function RequestOptions(style: JsVal, quality: JsVal, kind: JsVal, settings: seq<(string, JsVal)>): JsVal
  {
    Obj(Spread([("size", Str("1024x1024")), ("quality", quality), ("type", kind), ("style", style)], settings))
  }

  /** `provider || 'auto'`. */
  function Target(provider: string): string
  {
    if provider == "" then "auto" else provider
  }

  /** Reading the body and building the request; destructuring a null `options` throws. */
  function PlanOf(body: Body): Outcome<Plan>
  {
    var options := if body.options.Undefined? then Obj([]) else body.options;
    if options.Null? then Throw(Error("Cannot destructure property 'style' of 'options' as it is null."))
    else
      var style := Default(OwnProperty(options, "style"), Str("none"));
      var quality := Default(OwnProperty(options, "quality"), Str("standard"));
      var kind := Default(OwnProperty(options, "type"), Str("general"));
      var settings := ProviderSettings(body.provider, kind);
      Ok(Plan(Enhanced(body.prompt, style, quality, kind), style, quality, kind,
              RequestOptions(style, quality, kind, settings), Target(body.provider)))
  }

  /** The route's JSON reply: `{success: true, imageUrl, metadata}` or status 500 with `{success: false, error}`. */
  datatype Response =
    | Success(imageUrl: JsVal, gateway: JsVal, provider: JsVal, model: JsVal,
              prompt: string, style: JsVal, quality: JsVal, kind: JsVal)
    | Failure(error: string)

  /** `portkeyGateway.providerMap[result.provider]?.model || result.model`. */
  function PortkeyModel(providerMap: seq<PortkeyProviders.ProviderConfig>, result: PortkeyGateway.PortkeyResult): JsVal
  {
    var config := PortkeyProviders.FindConfig(providerMap, result.provider);
    Or(if config.Some? then Str(config.value.model) else Undefined, Str(result.model))
  }

  function PortkeyReply(providerMap: seq<PortkeyProviders.ProviderConfig>, plan: Plan,
                        result: PortkeyGateway.PortkeyResult): Response
  {
    Success(result.url, Str("PortkeyGateway"), Str(result.provider), PortkeyModel(providerMap, result),
            plan.enhanced, plan.style, plan.quality, plan.kind)
  }

  /** The reply after the fallback: its result read as an object, or the outer catch. */
  function FallbackReply(plan: Plan, ai: Outcome<ImageResult>): Response
  {
    match ai
    case Throw(e) => Failure(e.message)
    case Ok(result) =>
      var fields := AsObject(result).fields;
      Success(result.url, Or(Lookup(fields, "gateway"), Str("AIGateway")), Lookup(fields, "provider"),
              Lookup(fields, "model"), plan.enhanced, plan.style, plan.quality, plan.kind)
  }

  /** The single argument the route hands the AI gateway: `{prompt, provider, options}`. */
  function FallbackPrompt(plan: Plan): JsVal
  {
    Obj([("prompt", Str(plan.enhanced)), ("provider", Str(plan.target)), ("options", plan.imageOptions)])
  }

  /** What the fallback call settles to, when the AI gateway's calls complete in `order`. */
  function Fallback(reg: AIGateway.Registry, plan: Plan, order: seq<nat>, oracles: AIGateway.Oracles): Outcome<ImageResult>
  {
    AIGateway.Generate(reg, FallbackPrompt(plan), Undefined, order, oracles)
  }

  /** What the Portkey gateway settles to for the request the route builds. */
  function PortkeyOutcome(gw: PortkeyGateway.Gateway, plan: Plan, net: PortkeyGateway.Network)
    : Outcome<PortkeyGateway.PortkeyResult>
  {
    PortkeyGateway.Generate(gw, plan.enhanced, plan.target, plan.imageOptions, net).outcome
  }

  /** The route's reply and the gateways it asked, in order. */
  function Handle(gw: PortkeyGateway.Gateway, reg: AIGateway.Registry, body: Body, net: PortkeyGateway.Network,
                  order: seq<nat>, oracles: AIGateway.Oracles): (Response, seq<string>)
  {
    match PlanOf(body)
    case Throw(e) => (Failure(e.message), [])
    case Ok(plan) =>
      var portkey := PortkeyOutcome(gw, plan, net);
      if portkey.Ok? then (PortkeyReply(gw.providerMap, plan, portkey.value), ["PortkeyGateway"])
      else (FallbackReply(plan, Fallback(reg, plan, order, oracles)), ["PortkeyGateway", "AIGateway"])
  }

  /** The route handler. `asked` lists the gateways it called, in order. */
  method HandleGenerate(gw: PortkeyGateway.Gateway, reg: AIGateway.Registry, body: Body, net: PortkeyGateway.Network,
                        order: seq<nat>, oracles: AIGateway.Oracles)
    returns (res: Response, asked: seq<string>)
    requires AIGateway.IsCompletionOrder(order, 4)
    ensures (res, asked) == Handle(gw, reg, body, net, order, oracles)
  {
    var plan := ReadRequest(body);
    if plan.Throw? {
      return Failure(plan.exn.message), [];
    }
    var p := plan.value;
    var portkey, tried := PortkeyGateway.GenerateImage(gw, p.enhanced, p.target, p.imageOptions, net);
    if portkey.Ok? {
      var result := portkey.value;
      var config := PortkeyProviders.FindConfig(gw.providerMap, result.provider);
      var configModel := if config.Some? then Str(config.value.model) else Undefined;
      res := Success(result.url, Str("PortkeyGateway"), Str(result.provider), Or(configModel, Str(result.model)),
                     p.enhanced, p.style, p.quality, p.kind);
      asked := ["PortkeyGateway"];
    } else {
      AIGateway.ProvidersToUseCases(Undefined);
      var ai, invoked := AIGateway.GenerateImage(reg, FallbackPrompt(p), Undefined, order, oracles);
      res := FallbackReply(p, ai);
      asked := ["PortkeyGateway", "AIGateway"];
    }
  }

  /** Reading the body's options with their defaults, then the enhancement block. */
  method ReadRequest(body: Body) returns (plan: Outcome<Plan>)
    ensures plan == PlanOf(body)
  {
    var options := if body.options.Undefined? then Obj([]) else body.options;
    if options.Null? {
      return Throw(Error("Cannot destructure property 'style' of 'options' as it is null."));
    }
    var style := Default(OwnProperty(options, "style"), Str("none"));
    var quality := Default(OwnProperty(options, "quality"), Str("standard"));
    var kind := Default(OwnProperty(options, "type"), Str("general"));
    var enhancedPrompt, providerSettings := EnhancePrompt(body.prompt, body.provider, style, quality, kind);
    plan := Ok(Plan(enhancedPrompt, style, quality, kind, RequestOptions(style, quality, kind, providerSettings),
                    Target(body.provider)));
  }
}
