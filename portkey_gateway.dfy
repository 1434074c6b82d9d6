/**
 * The Portkey gateway (services/PortkeyGateway.js): one named provider, or every
 * available provider in turn until one succeeds, each request shaped for its
 * provider and its reply classified into an image URL or an error.
 */
module PortkeyGateway {
  import opened JsText
  import opened JsCore
  import opened Http
  import opened Json
  import opened PortkeyProviders
  import opened PortkeyRequests
  import opened PortkeyResponses

  /** The gateway object; its registry is fixed by the constructor. */
  datatype Gateway = Gateway(providerMap: seq<ProviderConfig>)

  /** The constructor: refuses to build a gateway without `PORTKEY_API_KEY`. */
  function New(env: Env): (r: Outcome<Gateway>)
    ensures r.Throw? <==> EnvVar(env, "PORTKEY_API_KEY") == ""
    ensures r.Throw? ==> r.exn == Error("PORTKEY_API_KEY is required")
    ensures r.Ok? ==> r.value.providerMap == ProviderMap(env)
  {
    if EnvVar(env, "PORTKEY_API_KEY") == "" then Throw(Error("PORTKEY_API_KEY is required"))
    else Ok(Gateway(ProviderMap(env)))
  }

  /** `this.availableProviders`. */
  function Available(gw: Gateway): seq<string>
  {
    AvailableProviders(gw.providerMap)
  }

  predicate IsConfigured(gw: Gateway) {
    |Available(gw)| > 0
  }

  /** The network behind the Portkey client: replies to requests and to status polls. */
  datatype Network = Network(send: Request -> Reply, poll: Poller)

  /** `{url, provider, model}`. */
  datatype PortkeyResult = PortkeyResult(url: JsVal, provider: string, model: string)

  /** The request `tryProvider` sends for a configuration. */
  function RequestOf(config: ProviderConfig, name: string, prompt: string, width: JsVal, height: JsVal, quality: JsVal): Request
  {
    Request(config.endpoint, config.provider, config.apiKey, BodyFor(name, config.model, prompt, width, height, quality))
  }

  /** The final `if (!imageUrl)` check. */
  function Present(name: string, url: JsVal): (r: Outcome<JsVal>)
    ensures r.Ok? <==> Truthy(url)
    ensures r.Ok? ==> r.value == url
    ensures r.Throw? ==> r.exn == Error("No image URL in " + name + " response")
  {
    if Truthy(url) then Ok(url) else Throw(Error("No image URL in " + name + " response"))
  }

  /** The body of the `try` in `tryProvider`: send, classify, poll if need be; a success is a truthy URL. */
  function InFlight(name: string, req: Request, net: Network): (r: Outcome<JsVal>)
    ensures r.Ok? ==> Truthy(r.value)
    ensures Settle(net.send(req), Only2xx).Throw? ==> r == Throw(Settle(net.send(req), Only2xx).exn)
  {
    match Settle(net.send(req), Only2xx)
    case Throw(e) => Throw(e)
    case Ok(response) =>
      match Extract(name, response.data)
      case Throw(e) => Throw(e)
      case Ok(ImageUrl(url)) => Present(name, url)
      case Ok(MessageId(id)) =>
        match AfterPoll(PollResult(Steps(StatusUrl(id), net.poll)))
        case Throw(e) => Throw(e)
        case Ok(url) => Present(name, url)
  }

  /** `tryProvider(name, prompt, width, height, quality)`. */
  function TryProvider(gw: Gateway, name: string, prompt: string, width: JsVal, height: JsVal, quality: JsVal, net: Network)
    : (r: Outcome<PortkeyResult>)
    ensures FindConfig(gw.providerMap, name).None? && name !in PrototypeKeys ==> r == Throw(Error("Provider " + name + " not found"))
    ensures FindConfig(gw.providerMap, name).None? && name in PrototypeKeys ==> r == Throw(Error("API key missing for provider " + name))
    ensures var c := FindConfig(gw.providerMap, name);
      c.Some? && c.value.apiKey == "" ==> r == Throw(Error("API key missing for provider " + name))
    ensures r.Ok? ==> Truthy(r.value.url) && r.value.provider == name
                      && FindConfig(gw.providerMap, name).Some? && r.value.model == FindConfig(gw.providerMap, name).value.model
  {
    match FindConfig(gw.providerMap, name)
    case None =>
      // `providerMap[name]` on an object literal finds an inherited member, which is
      // truthy and has no `apiKey`.
      if name in PrototypeKeys then Throw(Error("API key missing for provider " + name))
      else Throw(Error("Provider " + name + " not found"))
    case Some(config) =>
      if config.apiKey == "" then Throw(Error("API key missing for provider " + name))
      else
        match InFlight(name, RequestOf(config, name, prompt, width, height, quality), net)
        case Throw(e) => Throw(Rewrap(name, e))
        case Ok(url) => Ok(PortkeyResult(url, name, config.model))
  }

  /**
   * Once the configuration is found and has a key, the outcome is the in-flight
   * outcome: every error raised there is rethrown as `"<name> request failed: ..."`,
   * and a URL becomes the result under the attempted name and its model. The two
   * errors raised before (unknown name, missing key) are not rewrapped.
   */
  lemma RequestErrorsAreRewrapped(gw: Gateway, name: string, prompt: string, width: JsVal, height: JsVal, quality: JsVal,
                                  net: Network)
    requires FindConfig(gw.providerMap, name).Some? && FindConfig(gw.providerMap, name).value.apiKey != ""
    ensures var c := FindConfig(gw.providerMap, name).value;
      var f := InFlight(name, RequestOf(c, name, prompt, width, height, quality), net);
      var r := TryProvider(gw, name, prompt, width, height, quality, net);
      && (f.Throw? ==> r == Throw(Rewrap(name, f.exn)) && StartsWith(r.exn.message, name + " request failed: "))
      && (f.Ok? ==> r == Ok(PortkeyResult(f.value, name, c.model)))
  {
  }

  /** The `try` body, running the Midjourney poll loop; `polls` counts the status requests it made. */
  method InFlightRun(name: string, req: Request, net: Network) returns (imageUrl: Outcome<JsVal>, polls: nat)
    ensures imageUrl == InFlight(name, req, net)
    ensures polls <= MaxPolls
    ensures name != "midjourney" ==> polls == 0
  {
    polls := 0;
    var response := Settle(net.send(req), Only2xx);
    if response.Throw? {
      return Throw(response.exn), 0;
    }
    var extracted := Extract(name, response.value.data);
    if extracted.Throw? {
      return Throw(extracted.exn), 0;
    }
    match extracted.value
    case ImageUrl(url) =>
      imageUrl := Present(name, url);
    case MessageId(id) =>
      var outcome, waits;
      outcome, polls, waits := PollMidjourney(StatusUrl(id), net.poll);
      var after := AfterPoll(outcome);
      imageUrl := if after.Throw? then after else Present(name, after.value);
  }

  /** `tryProvider`; `polls` counts the Midjourney status requests it made. */
  method TryProviderRun(gw: Gateway, name: string, prompt: string, width: JsVal, height: JsVal, quality: JsVal, net: Network)
    returns (r: Outcome<PortkeyResult>, polls: nat)
    ensures r == TryProvider(gw, name, prompt, width, height, quality, net)
    ensures polls <= MaxPolls
    ensures name != "midjourney" ==> polls == 0
  {
    var config := FindConfig(gw.providerMap, name);
    if config.None? {
      if name in PrototypeKeys {
        return Throw(Error("API key missing for provider " + name)), 0;
      }
      return Throw(Error("Provider " + name + " not found")), 0;
    }
    if config.value.apiKey == "" {
      return Throw(Error("API key missing for provider " + name)), 0;
    }
    var req := RequestOf(config.value, name, prompt, width, height, quality);
    var imageUrl;
    imageUrl, polls := InFlightRun(name, req, net);
    assert TryProvider(gw, name, prompt, width, height, quality, net)
        == if imageUrl.Throw? then Throw(Rewrap(name, imageUrl.exn)) else Ok(PortkeyResult(imageUrl.value, name, config.value.model));
    if imageUrl.Throw? {
      r := Throw(Rewrap(name, imageUrl.exn));
    } else {
      r := Ok(PortkeyResult(imageUrl.value, name, config.value.model));
    }
  }

  // ---------------------------------------------------------------- fan-out

  /** What `tryProvider` would come to for each name. */
  function Attempts(gw: Gateway, names: seq<string>, prompt: string, width: JsVal, height: JsVal, quality: JsVal, net: Network)
    : (outs: seq<Outcome<PortkeyResult>>)
    ensures |outs| == |names|
    decreases |names|
  {
    if |names| == 0 then []
    else [TryProvider(gw, names[0], prompt, width, height, quality, net)] + Attempts(gw, names[1..], prompt, width, height, quality, net)
  }

  /** Entry `i` of the attempts is the outcome of trying `names[i]`. */
  lemma {:induction false} AttemptAt(gw: Gateway, names: seq<string>, prompt: string, width: JsVal, height: JsVal, quality: JsVal,
                                     net: Network, i: nat)
    requires i < |names|
    ensures Attempts(gw, names, prompt, width, height, quality, net)[i] == TryProvider(gw, names[i], prompt, width, height, quality, net)
    decreases i
  {
    if i > 0 {
      AttemptAt(gw, names[1..], prompt, width, height, quality, net, i - 1);
    }
  }

  /** The first attempt that succeeded, or the length when none did. */
  function FirstSuccess(outs: seq<Outcome<PortkeyResult>>): (k: nat)
    ensures k <= |outs|
    ensures k < |outs| ==> outs[k].Ok?
    ensures forall i :: 0 <= i < k ==> outs[i].Throw?
  {
    if |outs| == 0 then 0 else if outs[0].Ok? then 0 else 1 + FirstSuccess(outs[1..])
  }

  function MessageOf(o: Outcome<PortkeyResult>): string
  {
    if o.Throw? then o.exn.message else ""
  }

  /** The `"name: message"` entries for the first `k` attempts. */
  function FailureLines(names: seq<string>, outs: seq<Outcome<PortkeyResult>>, k: nat): (lines: seq<string>)
    requires k <= |names| && k <= |outs|
    ensures |lines| == k
    ensures forall i :: 0 <= i < k ==> lines[i] == names[i] + ": " + MessageOf(outs[i])
  {
    seq(k, i requires 0 <= i < k => names[i] + ": " + MessageOf(outs[i]))
  }

  function AllFailed(lines: seq<string>): Exn
  {
    Error("All Portkey providers failed: " + JsonText(StringArray(lines)))
  }

  /** The sequential fallback, stated recursively: try the head; on failure record it and go on. */
  datatype FanOutResult = FanOutResult(success: Option<PortkeyResult>, errors: seq<string>, tried: seq<string>)

  /** `outs[i]` is what trying `names[i]` comes to. */
  function FanOut(names: seq<string>, outs: seq<Outcome<PortkeyResult>>): FanOutResult
    requires |outs| == |names|
  {
    if |names| == 0 then FanOutResult(None, [], [])
    else
      match outs[0]
      case Ok(result) => FanOutResult(Some(result), [], [names[0]])
      case Throw(e) =>
        var rest := FanOut(names[1..], outs[1..]);
        FanOutResult(rest.success, [names[0] + ": " + e.message] + rest.errors, [names[0]] + rest.tried)
  }

  /**
   * The fallback tries the names in order, stops right after the first success
   * and records one `"name: message"` per failure before it; with no success it
   * tries every name and records every failure.
   */
  lemma {:induction false} FanOutByFirstSuccess(names: seq<string>, outs: seq<Outcome<PortkeyResult>>)
    requires |outs| == |names|
    ensures FanOutMatches(names, outs)
    decreases |names|
  {
    if |names| == 0 || outs[0].Ok? {
      assert FailureLines(names, outs, 0) == [];
    } else {
      FanOutByFirstSuccess(names[1..], outs[1..]);
      FanOutStep(names, outs);
    }
  }

  /** The property the fallback is proved to have, for the attempts `outs`. */
  predicate FanOutMatches(names: seq<string>, outs: seq<Outcome<PortkeyResult>>)
    requires |outs| == |names|
  {
    var k := FirstSuccess(outs);
    var f := FanOut(names, outs);
    && f.errors == FailureLines(names, outs, k)
    && (k < |names| ==> f.success == Some(outs[k].value) && f.tried == names[..k + 1])
    && (k == |names| ==> f.success.None? && f.tried == names)
  }

  /** A failed head passes the property on from the rest. */
  lemma FanOutStep(names: seq<string>, outs: seq<Outcome<PortkeyResult>>)
    requires |outs| == |names| > 0 && outs[0].Throw?
    requires FanOutMatches(names[1..], outs[1..])
    ensures FanOutMatches(names, outs)
  {
    var names', outs' := names[1..], outs[1..];
    var rest := FanOut(names', outs');
    assert FanOut(names, outs)
        == FanOutResult(rest.success, [names[0] + ": " + MessageOf(outs[0])] + rest.errors, [names[0]] + rest.tried);
    var k := FirstSuccess(outs);
    assert k == 1 + FirstSuccess(outs');
    FailureLinesCons(names, outs, k);
    if k < |names| {
      assert outs'[k - 1] == outs[k];
      assert names[..k + 1] == [names[0]] + names'[..k];
    } else {
      assert names == [names[0]] + names';
    }
  }

  lemma FailureLinesCons(names: seq<string>, outs: seq<Outcome<PortkeyResult>>, k: nat)
    requires 1 <= k <= |names| && k <= |outs|
    ensures FailureLines(names, outs, k)
         == [names[0] + ": " + MessageOf(outs[0])] + FailureLines(names[1..], outs[1..], k - 1)
  {
    var a := FailureLines(names, outs, k);
    var b := [names[0] + ": " + MessageOf(outs[0])] + FailureLines(names[1..], outs[1..], k - 1);
    forall i | 0 <= i < k ensures a[i] == b[i] {
      if i > 0 {
        assert names[1..][i - 1] == names[i] && outs[1..][i - 1] == outs[i];
      }
    }
  }

  /** The loop's outcome for the attempts `outs`: the first success and the names tried up to it, or every failure. */
  function Fallback(names: seq<string>, outs: seq<Outcome<PortkeyResult>>): GenerateResult
    requires |outs| == |names|
  {
    var k := FirstSuccess(outs);
    if k < |names| then GenerateResult(outs[k], names[..k + 1])
    else GenerateResult(Throw(AllFailed(FailureLines(names, outs, |names|))), names)
  }

  /** The loop agrees with the recursive fallback. */
  lemma FallbackIsFanOut(names: seq<string>, outs: seq<Outcome<PortkeyResult>>)
    requires |outs| == |names|
    ensures var f := FanOut(names, outs);
      Fallback(names, outs)
        == if f.success.Some? then GenerateResult(Ok(f.success.value), f.tried) else GenerateResult(Throw(AllFailed(f.errors)), f.tried)
  {
    FanOutByFirstSuccess(names, outs);
  }

  // ---------------------------------------------------------------- generateImage

  /** Any truthy provider other than `'all'` names a single target. */
  predicate Targeted(provider: string) {
    provider != "" && provider != "all"
  }

  function NoProviders(): Exn {
    Error("No providers are configured. Please set up at least one provider API key.")
  }

  function NotConfigured(provider: string, available: seq<string>): Exn {
    Error("Provider " + provider + " is not configured. Available providers: " + Join(available, ", "))
  }

  /** `const { size = '1024x1024', quality } = imageOptions; const [width, height] = size.split('x').map(Number)`. */
  function Prepare(imageOptions: JsVal): (r: Outcome<(JsVal, JsVal, JsVal)>)
    ensures r.Throw? <==> ReadOptions(imageOptions).Throw? || ParseSize(ReadOptions(imageOptions).value.0).Throw?
    ensures r.Ok? ==> var p := ParseSize(ReadOptions(imageOptions).value.0).value;
      r.value == (p.0, p.1, ReadOptions(imageOptions).value.1)
  {
    match ReadOptions(imageOptions)
    case Throw(e) => Throw(e)
    case Ok((size, quality)) =>
      match ParseSize(size)
      case Throw(e) => Throw(e)
      case Ok((width, height)) => Ok((width, height, quality))
  }

  /** What a `generateImage` call throws or returns, and the names `tryProvider` was called for, in order. */
  datatype GenerateResult = GenerateResult(outcome: Outcome<PortkeyResult>, tried: seq<string>)

  /** `generateImage({prompt, provider, options})`. */
  function Generate(gw: Gateway, prompt: string, provider: string, imageOptions: JsVal, net: Network): GenerateResult
  {
    match Prepare(imageOptions)
    case Throw(e) => GenerateResult(Throw(e), [])
    case Ok((width, height, quality)) =>
      if !IsConfigured(gw) then GenerateResult(Throw(NoProviders()), [])
      else if Targeted(provider) then
        if provider !in Available(gw) then GenerateResult(Throw(NotConfigured(provider, Available(gw))), [])
        else GenerateResult(TryProvider(gw, provider, prompt, width, height, quality, net), [provider])
      else
        Fallback(Available(gw), Attempts(gw, Available(gw), prompt, width, height, quality, net))
  }

  /** `generateImage({prompt, provider, options})`; `tried` lists the names `tryProvider` was called for. */
  method GenerateImage(gw: Gateway, prompt: string, provider: string, imageOptions: JsVal, net: Network)
    returns (r: Outcome<PortkeyResult>, tried: seq<string>)
    ensures GenerateResult(r, tried) == Generate(gw, prompt, provider, imageOptions, net)
  {
    var prepared := Prepare(imageOptions);
    if prepared.Throw? {
      return Throw(prepared.exn), [];
    }
    var (width, height, quality) := prepared.value;
    if !IsConfigured(gw) {
      return Throw(NoProviders()), [];
    }
    var av := Available(gw);
    if Targeted(provider) {
      if provider !in av {
        return Throw(NotConfigured(provider, av)), [];
      }
      var polls;
      r, polls := TryProviderRun(gw, provider, prompt, width, height, quality, net);
      return r, [provider];
    }
    r, tried := FallbackRun(gw, av, prompt, width, height, quality, net);
  }

  /** The fallback branch of `generateImage`. */
  method FallbackRun(gw: Gateway, names: seq<string>, prompt: string, width: JsVal, height: JsVal, quality: JsVal, net: Network)
    returns (r: Outcome<PortkeyResult>, tried: seq<string>)
    ensures GenerateResult(r, tried) == Fallback(names, Attempts(gw, names, prompt, width, height, quality, net))
  {
    ghost var outs := Attempts(gw, names, prompt, width, height, quality, net);
    forall j | 0 <= j < |names|
      ensures outs[j] == TryProvider(gw, names[j], prompt, width, height, quality, net)
    {
      AttemptAt(gw, names, prompt, width, height, quality, net, j);
    }
    r, tried := FanOutRun(gw, names, prompt, width, height, quality, net, outs);
  }

  /**
   * The `for` loop over the available providers: in order, up to the first
   * success, collecting failures; `outs[j]` is what trying `names[j]` comes to.
   */
  method FanOutRun(gw: Gateway, names: seq<string>, prompt: string, width: JsVal, height: JsVal, quality: JsVal, net: Network,
                   ghost outs: seq<Outcome<PortkeyResult>>)
    returns (r: Outcome<PortkeyResult>, tried: seq<string>)
    requires |outs| == |names|
    requires forall j {:trigger TryProvider(gw, names[j], prompt, width, height, quality, net)} :: 0 <= j < |names| ==>
      outs[j] == TryProvider(gw, names[j], prompt, width, height, quality, net)
    ensures var k := FirstSuccess(outs);
      && (k < |names| ==> r == outs[k] && tried == names[..k + 1])
      && (k == |names| ==> r == Throw(AllFailed(FailureLines(names, outs, |names|))) && tried == names)
  {
    var errors: seq<string> := [];
    for i := 0 to |names|
      invariant forall j :: 0 <= j < i ==> outs[j].Throw?
      invariant errors == FailureLines(names, outs, i)
    {
      var result, polls := TryProviderRun(gw, names[i], prompt, width, height, quality, net);
      if result.Ok? {
        FirstSuccessAt(outs, i);
        return result, names[..i + 1];
      }
      FailureLinesSnoc(names, outs, i);
      errors := errors + [names[i] + ": " + result.exn.message];
    }
    NoSuccess(outs);
    r, tried := Throw(AllFailed(errors)), names;
  }

  lemma FailureLinesSnoc(names: seq<string>, outs: seq<Outcome<PortkeyResult>>, i: nat)
    requires i < |names| && i < |outs| && outs[i].Throw?
    ensures FailureLines(names, outs, i + 1) == FailureLines(names, outs, i) + [names[i] + ": " + outs[i].exn.message]
  {
  }

  lemma {:induction false} FirstSuccessAt(outs: seq<Outcome<PortkeyResult>>, i: nat)
    requires i < |outs| && outs[i].Ok? && forall j :: 0 <= j < i ==> outs[j].Throw?
    ensures FirstSuccess(outs) == i
    decreases i
  {
    if i > 0 {
      FirstSuccessAt(outs[1..], i - 1);
    }
  }

  lemma {:induction false} NoSuccess(outs: seq<Outcome<PortkeyResult>>)
    requires forall j :: 0 <= j < |outs| ==> outs[j].Throw?
    ensures FirstSuccess(outs) == |outs|
    decreases |outs|
  {
    if |outs| > 0 {
      NoSuccess(outs[1..]);
    }
  }
}
