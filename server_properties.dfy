/**
 * What the image-generation route of the server (server.js) promises: how the
 * prompt grows, which options the gateways receive, the order in which the two
 * gateways are asked, and the metadata of each reply.
 */
module ServerProperties {
  import opened JsText
  import opened JsCore
  import opened Generation
  import PortkeyProviders
  import PortkeyRequests
  import PortkeyGateway
  import PortkeyProperties
  import AIGateway
  import AIGatewayProperties
  import OpenAIService
  import LlamaService
  import HuggingFaceService
  import opened Server

  /** The keys of the general-image style table. */
  predicate IsStyleKey(key: string) {
    key == "anime" || key == "photographic" || key == "digital-art" || key == "oil-painting" || key == "watercolor"
  }

  /** The keys of the avatar style table. */
  predicate IsAvatarStyleKey(key: string) {
    key == "realistic" || key == "anime" || key == "3d" || key == "pixel"
  }

  /** The enhanced prompt starts with the client's prompt followed by the quality suffix; later steps only append. */
  lemma EnhancedPrefix(prompt: string, style: JsVal, quality: JsVal, kind: JsVal)
    ensures StartsWith(Enhanced(prompt, style, quality, kind), prompt + QualitySuffix(quality))
    ensures StartsWith(Enhanced(prompt, style, quality, kind), prompt)
  {
    var withQuality := prompt + QualitySuffix(quality);
    AppendKeepsPrefix(prompt, prompt, QualitySuffix(quality));
    var general := withQuality;
    if kind == Str("general") {
      var more := StyleEnhancement(ToStr(style)) + (if IsHighQuality(quality) then MasterpieceSuffix else "");
      AppendKeepsPrefix(withQuality, prompt, StyleEnhancement(ToStr(style)));
      AppendKeepsPrefix(withQuality, withQuality, StyleEnhancement(ToStr(style)));
      general := withQuality + StyleEnhancement(ToStr(style));
      AppendKeepsPrefix(general, prompt, if IsHighQuality(quality) then MasterpieceSuffix else "");
      AppendKeepsPrefix(general, withQuality, if IsHighQuality(quality) then MasterpieceSuffix else "");
      general := general + (if IsHighQuality(quality) then MasterpieceSuffix else "");
    }
    if kind == Str("avatar") {
      AppendKeepsPrefix(general, prompt, AvatarStyleEnhancement(ToStr(style)));
      AppendKeepsPrefix(general, withQuality, AvatarStyleEnhancement(ToStr(style)));
    }
  }

  lemma AppendKeepsPrefix(s: string, prefix: string, more: string)
    requires StartsWith(s, prefix) || s == prefix
    ensures StartsWith(s + more, prefix)
  {
    assert (s + more)[..|prefix|] == s[..|prefix|];
  }

  /** Only `'hd'` and `'4k'` add a quality suffix. */
  lemma QualitySuffixEmptyIff(quality: JsVal)
    ensures QualitySuffix(quality) == "" <==> !IsHighQuality(quality)
  {
  }

  /** A type other than `'general'` and `'avatar'` gets the quality suffix only, whatever the style. */
  lemma OtherKindQualityOnly(prompt: string, style: JsVal, quality: JsVal, kind: JsVal)
    requires kind != Str("general") && kind != Str("avatar")
    ensures Enhanced(prompt, style, quality, kind) == prompt + QualitySuffix(quality)
  {
  }

  /**
   * A general image gets, after the quality suffix, the style table's entry for
   * its style (a table suffix, an inherited member's text, or nothing), then the
   * masterpiece details for `'hd'` or `'4k'`; nothing of the avatar table.
   */
  lemma GeneralAppendsStyleEntry(prompt: string, style: JsVal, quality: JsVal)
    ensures Enhanced(prompt, style, quality, Str("general"))
         == prompt + QualitySuffix(quality) + StyleEnhancement(ToStr(style))
              + (if IsHighQuality(quality) then MasterpieceSuffix else "")
  {
  }

  /**
   * An avatar gets the quality suffix and then only the avatar table's suffix
   * (never the masterpiece details), and its settings are those of the named
   * provider, or none for a provider without avatar settings.
   */
  lemma AvatarUsesAvatarTable(prompt: string, provider: string, style: JsVal, quality: JsVal)
    ensures Enhanced(prompt, style, quality, Str("avatar"))
         == prompt + QualitySuffix(quality) + AvatarStyleEnhancement(ToStr(style))
    ensures ProviderSettings(provider, Str("avatar")) == AvatarSettings(provider)
    ensures provider != "openai" && provider != "huggingface" ==> ProviderSettings(provider, Str("avatar")) == []
    ensures forall kind :: kind != Str("avatar") ==> ProviderSettings(provider, kind) == []
  {
  }

  /** A high-quality general image ends with the masterpiece details, whatever the style. */
  lemma GeneralHighQualityEndsWithMasterpiece(prompt: string, style: JsVal, quality: JsVal)
    requires IsHighQuality(quality)
    ensures var e := Enhanced(prompt, style, quality, Str("general"));
      |MasterpieceSuffix| <= |e| && e[|e| - |MasterpieceSuffix|..] == MasterpieceSuffix
  {
  }

  /**
   * A style that is neither a key of the table in use nor a name every object
   * inherits adds nothing: the prompt gets the quality suffix, plus the
   * masterpiece details for a high-quality general image.
   */
  lemma UnknownStyleAddsNothing(prompt: string, style: JsVal, quality: JsVal, kind: JsVal)
    requires ToStr(style) !in PrototypeKeys
    requires kind == Str("general") ==> !IsStyleKey(ToStr(style))
    requires kind == Str("avatar") ==> !IsAvatarStyleKey(ToStr(style))
    ensures Enhanced(prompt, style, quality, kind)
         == prompt + QualitySuffix(quality)
              + (if kind == Str("general") && IsHighQuality(quality) then MasterpieceSuffix else "")
  {
  }

  /**
   * A style naming a member every object inherits (`'constructor'`,
   * `'toString'`, …) and not a key of the table appends that member's text.
   */
  lemma InheritedStyleAppendsText(prompt: string, style: JsVal, quality: JsVal)
    requires ToStr(style) in PrototypeKeys && !IsStyleKey(ToStr(style))
    ensures var withQuality := prompt + QualitySuffix(quality);
      Enhanced(prompt, style, quality, Str("general"))
        == withQuality + InheritedText(ToStr(style)) + (if IsHighQuality(quality) then MasterpieceSuffix else "")
  {
  }

  /**
   * The options both gateways receive: the fixed size, the type, and the
   * quality and style read, except that an OpenAI avatar's settings override
   * the quality with `'hd'` and the style with `'vivid'` and add their model.
   */
  lemma RequestOptionsSpec(provider: string, style: JsVal, quality: JsVal, kind: JsVal)
    ensures var o := RequestOptions(style, quality, kind, ProviderSettings(provider, kind));
      var openaiAvatar := kind == Str("avatar") && provider == "openai";
      var hfAvatar := kind == Str("avatar") && provider == "huggingface";
      && o.Obj?
      && Lookup(o.fields, "size") == Str("1024x1024")
      && Lookup(o.fields, "type") == kind
      && Lookup(o.fields, "quality") == (if openaiAvatar then Str("hd") else quality)
      && Lookup(o.fields, "style") == (if openaiAvatar then Str("vivid") else style)
      && Lookup(o.fields, "model")
         == (if openaiAvatar then Str("dall-e-3")
             else if hfAvatar then Str("stabilityai/stable-diffusion-xl-base-1.0") else Undefined)
  {
    var settings := ProviderSettings(provider, kind);
    var base := [("size", Str("1024x1024")), ("quality", quality), ("type", kind), ("style", style)];
    assert UniqueKeys(base);
    LookupUnique(base, 0);
    LookupUnique(base, 1);
    LookupUnique(base, 2);
    LookupUnique(base, 3);
    LookupAbsent(base, "model");
    assert UniqueKeys(settings);
    if kind == Str("avatar") && provider == "openai" {
      LookupUnique(settings, 0);
      LookupUnique(settings, 1);
      LookupUnique(settings, 2);
    } else if kind == Str("avatar") && provider == "huggingface" {
      LookupUnique(settings, 0);
      assert !HasKey(settings, "quality") && !HasKey(settings, "style");
    }
    assert !HasKey(settings, "size") && !HasKey(settings, "type");
    LookupSpread(base, settings, "size");
    LookupSpread(base, settings, "type");
    LookupSpread(base, settings, "quality");
    LookupSpread(base, settings, "style");
    LookupSpread(base, settings, "model");
  }

  /** The Portkey gateway reads these options as a 1024 by 1024 image of the quality the spread left. */
  lemma RequestOptionsPrepared(provider: string, style: JsVal, quality: JsVal, kind: JsVal)
    ensures var o := RequestOptions(style, quality, kind, ProviderSettings(provider, kind));
      PortkeyGateway.Prepare(o) == Ok((Num(1024.0), Num(1024.0), Lookup(o.fields, "quality")))
  {
    RequestOptionsSpec(provider, style, quality, kind);
    PortkeyRequests.DefaultSizeIsSquare();
  }

  /** Without options the route keeps the prompt as sent and uses the defaults `'none'`, `'standard'`, `'general'`. */
  lemma DefaultOptions(body: Body)
    requires body.options.Undefined? || body.options == Obj([])
    ensures PlanOf(body).Ok?
    ensures var plan := PlanOf(body).value;
      && plan.enhanced == body.prompt
      && plan.style == Str("none") && plan.quality == Str("standard") && plan.kind == Str("general")
      && plan.imageOptions
         == Obj([("size", Str("1024x1024")), ("quality", Str("standard")), ("type", Str("general")), ("style", Str("none"))])
      && plan.target == (if body.provider == "" then "auto" else body.provider)
  {
    assert ToStr(Str("none")) == "none";
    assert "none" !in PrototypeKeys;
  }

  /**
   * Every request the route builds asks for a 1024 by 1024 image, targets
   * `provider || 'auto'`, and carries a prompt that starts with the client's.
   */
  lemma PlanSendsFixedSizeAndTarget(body: Body)
    requires PlanOf(body).Ok?
    ensures var plan := PlanOf(body).value;
      plan.target == (if body.provider == "" then "auto" else body.provider)
    ensures var plan := PlanOf(body).value;
      && plan.imageOptions.Obj? && Lookup(plan.imageOptions.fields, "size") == Str("1024x1024")
      && StartsWith(plan.enhanced, body.prompt)
  {
    var plan := PlanOf(body).value;
    RequestOptionsSpec(body.provider, plan.style, plan.quality, plan.kind);
    EnhancedPrefix(body.prompt, plan.style, plan.quality, plan.kind);
  }

  /** Destructuring a null `options` is the only way reading the request fails. */
  lemma PlanFailsOnlyOnNull(body: Body)
    ensures PlanOf(body).Throw? <==> body.options.Null?
    ensures PlanOf(body).Throw? ==>
      PlanOf(body).exn.message == "Cannot destructure property 'style' of 'options' as it is null."
  {
  }

  /**
   * A request that cannot be read is answered with its error before any gateway
   * is asked; otherwise the Portkey gateway is asked first, and the AI gateway
   * after it exactly when the Portkey gateway throws.
   */
  lemma CascadeOrder(gw: PortkeyGateway.Gateway, reg: AIGateway.Registry, body: Body,
                     net: PortkeyGateway.Network, order: seq<nat>, oracles: AIGateway.Oracles)
    ensures var h := Handle(gw, reg, body, net, order, oracles);
      && (h.1 == [] <==> PlanOf(body).Throw?)
      && (PlanOf(body).Throw? ==> h.0 == Failure(PlanOf(body).exn.message))
      && (PlanOf(body).Ok? ==>
            && h.1[0] == "PortkeyGateway" && |h.1| <= 2
            && ("AIGateway" in h.1 <==> PortkeyOutcome(gw, PlanOf(body).value, net).Throw?))
  {
  }

  /**
   * A Portkey success is reported with the Portkey gateway's name, a truthy
   * URL, an available provider, that provider's configured model, and the
   * enhanced prompt and options read.
   */
  lemma PortkeySuccessReply(gw: PortkeyGateway.Gateway, reg: AIGateway.Registry, body: Body,
                            net: PortkeyGateway.Network, order: seq<nat>, oracles: AIGateway.Oracles)
    requires PlanOf(body).Ok? && PortkeyOutcome(gw, PlanOf(body).value, net).Ok?
    ensures var plan := PlanOf(body).value;
      var res := Handle(gw, reg, body, net, order, oracles).0;
      && res.Success? && res.gateway == Str("PortkeyGateway") && Truthy(res.imageUrl)
      && res.provider.Str? && res.provider.s in PortkeyGateway.Available(gw)
      && PortkeyProviders.FindConfig(gw.providerMap, res.provider.s).Some?
      && res.model == Str(PortkeyProviders.FindConfig(gw.providerMap, res.provider.s).value.model)
      && res.prompt == plan.enhanced && res.style == plan.style && res.quality == plan.quality
      && res.kind == plan.kind
  {
    var plan := PlanOf(body).value;
    PortkeyProperties.SuccessCarriesConfig(gw, plan.enhanced, plan.target, plan.imageOptions, net);
  }

  /**
   * After a Portkey failure the reply is the AI gateway's: its URL under the
   * name `'AIGateway'`, with no provider and no model (the adapters' results
   * carry those under `metadata`), or its error as the route's error.
   */
  lemma FallbackReplySpec(gw: PortkeyGateway.Gateway, reg: AIGateway.Registry, body: Body,
                          net: PortkeyGateway.Network, order: seq<nat>, oracles: AIGateway.Oracles)
    requires PlanOf(body).Ok? && PortkeyOutcome(gw, PlanOf(body).value, net).Throw?
    ensures var plan := PlanOf(body).value;
      var ai := Fallback(reg, plan, order, oracles);
      var res := Handle(gw, reg, body, net, order, oracles).0;
      && (ai.Ok? ==> res == Success(ai.value.url, Str("AIGateway"), Undefined, Undefined,
                                    plan.enhanced, plan.style, plan.quality, plan.kind))
      && (ai.Throw? ==> res == Failure(ai.exn.message))
  {
  }

  /**
   * Without a named provider the route passes `'auto'`, which every gateway the
   * Portkey constructor builds refuses: the reply always comes from the AI gateway.
   */
  lemma NoProviderAlwaysFallsBack(env: Env, reg: AIGateway.Registry, body: Body,
                                  net: PortkeyGateway.Network, order: seq<nat>, oracles: AIGateway.Oracles)
    requires PortkeyGateway.New(env).Ok? && body.provider == "" && PlanOf(body).Ok?
    ensures var gw := PortkeyGateway.New(env).value;
      var h := Handle(gw, reg, body, net, order, oracles);
      && h.1 == ["PortkeyGateway", "AIGateway"]
      && h.0 == FallbackReply(PlanOf(body).value, Fallback(reg, PlanOf(body).value, order, oracles))
  {
    NoProviderPortkeyThrows(env, body, net);
  }

  /** The Portkey half: the request the route builds for `'auto'` is refused without trying a provider. */
  lemma NoProviderPortkeyThrows(env: Env, body: Body, net: PortkeyGateway.Network)
    requires PortkeyGateway.New(env).Ok? && body.provider == "" && PlanOf(body).Ok?
    ensures var plan := PlanOf(body).value;
      var g := PortkeyGateway.Generate(PortkeyGateway.New(env).value, plan.enhanced, plan.target, plan.imageOptions, net);
      g.outcome.Throw? && g.tried == []
  {
    var plan := PlanOf(body).value;
    RequestOptionsPrepared(body.provider, plan.style, plan.quality, plan.kind);
    PortkeyProperties.AutoIsRejected(env, plan.enhanced, plan.imageOptions, net);
  }

  /**
   * On a registry like the AI gateway's constructor builds, a fallback success
   * is OpenAI's result for the object the route passes as the prompt.
   */
  lemma FallbackSuccessIsOpenAI(gw: PortkeyGateway.Gateway, reg: AIGateway.Registry, body: Body,
                                net: PortkeyGateway.Network, order: seq<nat>, oracles: AIGateway.Oracles)
    requires !LlamaService.IsConfigured(reg.llama) && !HuggingFaceService.IsConfigured(reg.huggingface)
    requires PlanOf(body).Ok? && PortkeyOutcome(gw, PlanOf(body).value, net).Throw?
    requires Handle(gw, reg, body, net, order, oracles).0.Success?
    ensures var plan := PlanOf(body).value;
      var openai := OpenAIService.GenerateImage(reg.openai, FallbackPrompt(plan), oracles.sdk(0));
      && openai.Ok?
      && Handle(gw, reg, body, net, order, oracles).0.imageUrl == openai.value.url
  {
    var plan := PlanOf(body).value;
    FallbackReplySpec(gw, reg, body, net, order, oracles);
    AIGatewayProperties.DefaultCallResultIsOpenAI(reg, FallbackPrompt(plan), order, oracles);
  }
}
