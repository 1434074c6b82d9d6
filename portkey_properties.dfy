/**
 * What `generateImage` of the Portkey gateway (services/PortkeyGateway.js)
 * promises its callers: which `tryProvider` calls it makes, in what order, and
 * what it returns or throws.
 */
module PortkeyProperties {
  import opened JsCore
  import opened PortkeyProviders
  import opened PortkeyRequests
  import opened PortkeyGateway

  /** Without an available provider the call throws before any provider is tried. */
  lemma NoProvidersNoCall(gw: Gateway, prompt: string, provider: string, imageOptions: JsVal, net: Network)
    requires Prepare(imageOptions).Ok? && !IsConfigured(gw)
    ensures Generate(gw, prompt, provider, imageOptions, net) == GenerateResult(Throw(NoProviders()), [])
  {
  }

  /** A named provider that is not available is refused with the list of available ones, and nothing is tried. */
  lemma UnavailableTargetNoCall(gw: Gateway, prompt: string, provider: string, imageOptions: JsVal, net: Network)
    requires Prepare(imageOptions).Ok? && IsConfigured(gw) && Targeted(provider) && provider !in Available(gw)
    ensures Generate(gw, prompt, provider, imageOptions, net)
         == GenerateResult(Throw(NotConfigured(provider, Available(gw))), [])
  {
  }

  /**
   * `'auto'`, which the server passes when the client names no provider, is not a
   * registry name: a gateway built from any environment refuses it without trying anything.
   */
  lemma AutoIsRejected(env: Env, prompt: string, imageOptions: JsVal, net: Network)
    requires New(env).Ok? && Prepare(imageOptions).Ok?
    ensures var g := Generate(New(env).value, prompt, "auto", imageOptions, net);
      g.outcome.Throw? && g.tried == []
  {
    AutoNotAvailable(env);
    RefusedWithoutCall(New(env).value, prompt, "auto", imageOptions, net);
  }

  /** Either refusal throws and tries nothing. */
  lemma RefusedWithoutCall(gw: Gateway, prompt: string, provider: string, imageOptions: JsVal, net: Network)
    requires Prepare(imageOptions).Ok? && Targeted(provider) && provider !in Available(gw)
    ensures Generate(gw, prompt, provider, imageOptions, net).outcome.Throw?
    ensures Generate(gw, prompt, provider, imageOptions, net).tried == []
  {
  }

  /** `'auto'` is not among the providers of any registry the constructor builds. */
  lemma AutoNotAvailable(env: Env)
    requires New(env).Ok?
    ensures "auto" !in Available(New(env).value)
  {
    AvailableFromEnvironment(env, "auto");
    assert "auto" !in ProviderNames;
  }

  /**
   * `tryProvider` called with the name of an inherited object member finds that
   * member in the registry object, and fails on its missing key rather than as
   * an unknown provider.
   */
  lemma InheritedNameHasNoKey(env: Env, name: string, prompt: string, width: JsVal, height: JsVal, quality: JsVal,
                              net: Network)
    requires New(env).Ok? && name in PrototypeKeys
    ensures TryProvider(New(env).value, name, prompt, width, height, quality, net)
         == Throw(Error("API key missing for provider " + name))
  {
    NoProviderIsInherited(env, name);
  }

  /** An available named provider is tried once, alone, and its outcome (error included) is passed on as is. */
  lemma TargetedSingleCall(gw: Gateway, prompt: string, provider: string, imageOptions: JsVal, net: Network)
    requires Prepare(imageOptions).Ok? && Targeted(provider) && provider in Available(gw)
    ensures var p := Prepare(imageOptions).value;
      Generate(gw, prompt, provider, imageOptions, net)
        == GenerateResult(TryProvider(gw, provider, prompt, p.0, p.1, p.2, net), [provider])
  {
  }

  /**
   * Without a named target the available providers are tried in their order:
   * the names tried are a prefix of them, every one but the last failed, and a
   * success is the outcome of the last one tried. When every provider fails, all
   * of them were tried and the error lists one `"name: message"` per provider, in
   * order. `outs[i]` is the outcome of trying the `i`-th available provider
   * (`AttemptAt`).
   */
  lemma FanOutOrder(gw: Gateway, prompt: string, provider: string, imageOptions: JsVal, net: Network)
    requires Prepare(imageOptions).Ok? && IsConfigured(gw) && !Targeted(provider)
    ensures var p := Prepare(imageOptions).value;
      var av := Available(gw);
      var outs := Attempts(gw, av, prompt, p.0, p.1, p.2, net);
      var g := Generate(gw, prompt, provider, imageOptions, net);
      && 0 < |g.tried| <= |av| && g.tried == av[..|g.tried|]
      && (forall i :: 0 <= i < |g.tried| - 1 ==> outs[i].Throw?)
      && (g.outcome.Ok? ==> g.outcome == outs[|g.tried| - 1])
      && (g.outcome.Throw? ==>
            && g.tried == av
            && (forall i :: 0 <= i < |av| ==> outs[i].Throw?)
            && exists lines: seq<string> ::
                 && g.outcome.exn == AllFailed(lines) && |lines| == |av|
                 && forall i :: 0 <= i < |av| ==> lines[i] == av[i] + ": " + outs[i].exn.message)
  {
    var p := Prepare(imageOptions).value;
    var av := Available(gw);
    var outs := Attempts(gw, av, prompt, p.0, p.1, p.2, net);
    FanOutIsFallback(gw, prompt, provider, imageOptions, net);
    FallbackOrder(av, outs);
    FallbackLines(av, outs);
  }

  /** Without a named target the call is the fallback over the attempts of the available providers. */
  lemma FanOutIsFallback(gw: Gateway, prompt: string, provider: string, imageOptions: JsVal, net: Network)
    requires Prepare(imageOptions).Ok? && IsConfigured(gw) && !Targeted(provider)
    ensures var p := Prepare(imageOptions).value;
      Generate(gw, prompt, provider, imageOptions, net)
        == Fallback(Available(gw), Attempts(gw, Available(gw), prompt, p.0, p.1, p.2, net))
  {
  }

  /** When the fallback fails, its error lists one line per name. */
  lemma FallbackLines(names: seq<string>, outs: seq<Outcome<PortkeyResult>>)
    requires |outs| == |names|
    ensures var g := Fallback(names, outs);
      g.outcome.Throw? ==> exists lines: seq<string> ::
        && g.outcome.exn == AllFailed(lines) && |lines| == |names|
        && forall i :: 0 <= i < |names| ==> lines[i] == names[i] + ": " + outs[i].exn.message
  {
    var g := Fallback(names, outs);
    if g.outcome.Throw? {
      var lines := FailureLines(names, outs, |names|);
      assert g.outcome.exn == AllFailed(lines);
    }
  }

  /** The fallback over given attempt outcomes: a prefix tried, failures before the end, the last one deciding. */
  lemma FallbackOrder(names: seq<string>, outs: seq<Outcome<PortkeyResult>>)
    requires |outs| == |names| > 0
    ensures var g := Fallback(names, outs);
      && 0 < |g.tried| <= |names| && g.tried == names[..|g.tried|]
      && (forall i :: 0 <= i < |g.tried| - 1 ==> outs[i].Throw?)
      && (g.outcome.Ok? ==> g.outcome == outs[|g.tried| - 1])
      && (g.outcome.Throw? ==> g.tried == names && forall i :: 0 <= i < |names| ==> outs[i].Throw?)
  {
  }

  /** Every result the call returns has a truthy URL, names a provider it tried, and carries that provider's model. */
  lemma SuccessCarriesConfig(gw: Gateway, prompt: string, provider: string, imageOptions: JsVal, net: Network)
    requires Generate(gw, prompt, provider, imageOptions, net).outcome.Ok?
    ensures var g := Generate(gw, prompt, provider, imageOptions, net);
      var r := g.outcome.value;
      && Truthy(r.url) && r.provider in g.tried && r.provider in Available(gw)
      && FindConfig(gw.providerMap, r.provider).Some? && r.model == FindConfig(gw.providerMap, r.provider).value.model
  {
    var p := Prepare(imageOptions).value;
    if Targeted(provider) {
      TargetedSingleCall(gw, prompt, provider, imageOptions, net);
    } else {
      FanOutIsFallback(gw, prompt, provider, imageOptions, net);
      FallbackSuccess(gw, Available(gw), prompt, p.0, p.1, p.2, net);
    }
  }

  /** A success of the fallback is the result of one of the names it tried, with that name's model. */
  lemma FallbackSuccess(gw: Gateway, names: seq<string>, prompt: string, width: JsVal, height: JsVal, quality: JsVal,
                        net: Network)
    requires Fallback(names, Attempts(gw, names, prompt, width, height, quality, net)).outcome.Ok?
    ensures var g := Fallback(names, Attempts(gw, names, prompt, width, height, quality, net));
      var r := g.outcome.value;
      && Truthy(r.url) && r.provider in g.tried && r.provider in names
      && FindConfig(gw.providerMap, r.provider).Some? && r.model == FindConfig(gw.providerMap, r.provider).value.model
  {
    var outs := Attempts(gw, names, prompt, width, height, quality, net);
    var k := FirstSuccess(outs);
    AttemptAt(gw, names, prompt, width, height, quality, net, k);
    assert names[..k + 1][k] == names[k];
  }
}
