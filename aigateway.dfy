/**
 * The AI gateway (services/AIGateway.js): a fixed registry of four adapters; a
 * call picks the names from `options.providers` or takes every registry key,
 * skips names that are unknown or unconfigured, calls every remaining adapter
 * once, collects results and errors as the calls complete, and returns the first
 * result, or throws the collected errors when there is none.
 *
 * The calls run concurrently. Their interleaving is not modelled; the order in
 * which they complete is a parameter `order`, a permutation of the positions in
 * the name list. The TypeError raised when a name reads an `Object.prototype`
 * member happens before the first `await`, so it is collected first, in list order.
 */
module AIGateway {
  import opened JsCore
  import opened Json
  import opened Generation
  import OpenAIService
  import ClaudeService
  import LlamaService
  import HuggingFaceService

  /** `this.providers`. */
  datatype Registry = Registry(openai: OpenAIService.OpenAIService, claude: ClaudeService.ClaudeService,
                               llama: LlamaService.LlamaService, huggingface: HuggingFaceService.HuggingFaceService)

  /** `Object.keys(this.providers)`. */
  const RegistryKeys: seq<string> := ["openai", "claude", "llama", "huggingface"]

  /** The constructor. The HuggingFace adapter is built without an API key. */
  function New(env: Env): (reg: Registry)
    ensures reg.openai == OpenAIService.New(env) && reg.claude == ClaudeService.New(env)
    ensures !LlamaService.IsConfigured(reg.llama) && !HuggingFaceService.IsConfigured(reg.huggingface)
  {
    Registry(OpenAIService.New(env), ClaudeService.New(env), LlamaService.New(), HuggingFaceService.HuggingFaceService(""))
  }

  datatype Provider = OpenAI | Claude | Llama | HuggingFace

  /**
   * What the callback does with a name: returns at once (unknown name, or an
   * adapter that is not configured), throws because the inherited member has no
   * `isConfigured`, or calls the adapter.
   */
  datatype Dispatch = Skipped | NotCallable | Calls(provider: Provider)

  /** `this.providers[providerName]` and the `!provider || !provider.isConfigured()` test; the key is `String(name)`. */
  function DispatchOf(reg: Registry, name: JsVal): Dispatch
  {
    var key := ToStr(name);
    if key == "openai" then (if OpenAIService.IsConfigured(reg.openai) then Calls(OpenAI) else Skipped)
    else if key == "claude" then (if ClaudeService.IsConfigured(reg.claude) then Calls(Claude) else Skipped)
    else if key == "llama" then (if LlamaService.IsConfigured(reg.llama) then Calls(Llama) else Skipped)
    else if key == "huggingface" then
      (if HuggingFaceService.IsConfigured(reg.huggingface) then Calls(HuggingFace) else Skipped)
    else if key in PrototypeKeys then NotCallable
    else Skipped
  }

  /** A name that reaches an adapter is one of the registry keys, and that adapter is configured. */
  lemma CallsOnlyConfigured(reg: Registry, name: JsVal)
    ensures DispatchOf(reg, name).Calls? ==> ToStr(name) in RegistryKeys
    ensures DispatchOf(reg, name) == Calls(OpenAI) <==> ToStr(name) == "openai" && OpenAIService.IsConfigured(reg.openai)
    ensures DispatchOf(reg, name) == Calls(Claude) <==> ToStr(name) == "claude" && ClaudeService.IsConfigured(reg.claude)
    ensures DispatchOf(reg, name) == Calls(Llama) <==> ToStr(name) == "llama" && LlamaService.IsConfigured(reg.llama)
    ensures DispatchOf(reg, name) == Calls(HuggingFace)
        <==> ToStr(name) == "huggingface" && HuggingFaceService.IsConfigured(reg.huggingface)
    ensures DispatchOf(reg, name).NotCallable? <==> ToStr(name) in PrototypeKeys
  {
  }

  /** The names to use: `options.providers || Object.keys(this.providers)`, which must then have a `map`. */
  function ProvidersToUse(options: JsVal): (r: Outcome<seq<JsVal>>)
  {
    var o := if options.Undefined? then Obj([]) else options;
    match Get(o, "providers")
    case Throw(e) => Throw(e)
    case Ok(v) =>
      if !Truthy(v) then Ok([Str("openai"), Str("claude"), Str("llama"), Str("huggingface")])
      else if v.Arr? then Ok(v.items)
      else Throw(NotAFunction("providersToUse.map"))
  }

  /**
   * Without options (the server's call) every registry key is used, in declaration
   * order; a given array is used as it is; a null `options` or a truthy
   * `providers` that is not an array rejects the call.
   */
  lemma ProvidersToUseCases(options: JsVal)
    ensures ProvidersToUse(Undefined).Ok? && |ProvidersToUse(Undefined).value| == |RegistryKeys|
    ensures forall i :: 0 <= i < |RegistryKeys| ==> ProvidersToUse(Undefined).value[i] == Str(RegistryKeys[i])
    ensures options.Null? ==> ProvidersToUse(options) == Throw(ReadError(Null, "providers"))
    ensures options.Obj? && Lookup(options.fields, "providers").Arr? ==>
      ProvidersToUse(options) == Ok(Lookup(options.fields, "providers").items)
    ensures options.Obj? && Truthy(Lookup(options.fields, "providers")) && !Lookup(options.fields, "providers").Arr? ==>
      ProvidersToUse(options) == Throw(NotAFunction("providersToUse.map"))
  {
  }

  /** The per-call oracles: the OpenAI SDK and the HuggingFace network for the call at position `i` of the list. */
  datatype Oracles = Oracles(sdk: nat -> OpenAIService.Sdk, hfNet: nat -> HuggingFaceService.Network)

  /** What `provider.generateImage(prompt)` settles to for the call at position `i`. */
  function CallOutcome(reg: Registry, p: Provider, prompt: JsVal, i: nat, oracles: Oracles): Outcome<ImageResult>
  {
    match p
    case OpenAI => OpenAIService.GenerateImage(reg.openai, prompt, oracles.sdk(i))
    case Claude => ClaudeService.GenerateImage(reg.claude, prompt)
    case Llama => LlamaService.GenerateImage(reg.llama, prompt)
    case HuggingFace => HuggingFaceService.GenerateResult(reg.huggingface, prompt, oracles.hfNet(i))
  }

  /** `{provider: providerName, error: error.message}`. */
  function ErrorEntry(name: JsVal, message: string): JsVal
  {
    Obj([("provider", name), ("error", Str(message))])
  }

  const NotCallableMessage := "provider.isConfigured is not a function"

  /** The errors pushed while `map` runs the callbacks up to their first `await`, in list order. */
  function SyncErrors(reg: Registry, names: seq<JsVal>): seq<JsVal>
  {
    if |names| == 0 then []
    else
      var last := names[|names| - 1];
      SyncErrors(reg, names[..|names| - 1]) + (if DispatchOf(reg, last).NotCallable? then [ErrorEntry(last, NotCallableMessage)] else [])
  }

  /** One call that completed: its position in the list, the name there, and what it settled to. */
  datatype Completion = Completion(pos: nat, name: JsVal, outcome: Outcome<ImageResult>)

  /** The call at position `i`, if the name there reaches an adapter: its completion. */
  function Attempt(reg: Registry, names: seq<JsVal>, i: nat, prompt: JsVal, oracles: Oracles): Option<Completion>
  {
    if i < |names| && DispatchOf(reg, names[i]).Calls?
    then Some(Completion(i, names[i], CallOutcome(reg, DispatchOf(reg, names[i]).provider, prompt, i, oracles)))
    else None
  }

  /** The calls in the order they complete: the positions of `order` whose name reaches an adapter. */
  function Completions(reg: Registry, names: seq<JsVal>, order: seq<nat>, prompt: JsVal, oracles: Oracles): seq<Completion>
  {
    if |order| == 0 then []
    else
      var a := Attempt(reg, names, order[|order| - 1], prompt, oracles);
      Completions(reg, names, order[..|order| - 1], prompt, oracles) + (if a.Some? then [a.value] else [])
  }

  function Positions(cs: seq<Completion>): (ps: seq<nat>)
    ensures |ps| == |cs|
  {
    if |cs| == 0 then [] else Positions(cs[..|cs| - 1]) + [cs[|cs| - 1].pos]
  }

  /** The `results` entries, in completion order. */
  function Successes(cs: seq<Completion>): seq<ImageResult>
  {
    if |cs| == 0 then []
    else Successes(cs[..|cs| - 1]) + (if cs[|cs| - 1].outcome.Ok? then [cs[|cs| - 1].outcome.value] else [])
  }

  /** The `errors` entries pushed by the calls that rejected, in completion order. */
  function Failures(cs: seq<Completion>): seq<JsVal>
  {
    if |cs| == 0 then []
    else
      var c := cs[|cs| - 1];
      Failures(cs[..|cs| - 1]) + (if c.outcome.Throw? then [ErrorEntry(c.name, c.outcome.exn.message)] else [])
  }

  function AllFailed(errors: seq<JsVal>): Exn
  {
    Error("All providers failed: " + JsonText(Arr(errors)))
  }

  /** What `generateImage(prompt, options)` resolves or rejects with, when the calls complete in `order`. */
  function Generate(reg: Registry, prompt: JsVal, options: JsVal, order: seq<nat>, oracles: Oracles): Outcome<ImageResult>
  {
    match ProvidersToUse(options)
    case Throw(e) => Throw(e)
    case Ok(names) =>
      var cs := Completions(reg, names, order, prompt, oracles);
      var results := Successes(cs);
      if |results| == 0 then Throw(AllFailed(SyncErrors(reg, names) + Failures(cs))) else Ok(results[0])
  }

  /** `[0, 1, ..., n - 1]`. */
  function Range(n: nat): (r: seq<nat>)
    ensures |r| == n
  {
    if n == 0 then [] else Range(n - 1) + [n - 1]
  }

  /** A completion order for `n` calls: every position exactly once. */
  predicate IsCompletionOrder(order: seq<nat>, n: nat) {
    multiset(order) == multiset(Range(n))
  }

  /**
   * `generateImage(prompt, options)`: the `map` over the names runs every callback
   * up to its first `await`; the calls then complete in `order`. `invoked` lists the
   * positions of the adapters called, in completion order.
   */
  method GenerateImage(reg: Registry, prompt: JsVal, options: JsVal, order: seq<nat>, oracles: Oracles)
    returns (r: Outcome<ImageResult>, invoked: seq<nat>)
    requires ProvidersToUse(options).Ok? ==> IsCompletionOrder(order, |ProvidersToUse(options).value|)
    ensures r == Generate(reg, prompt, options, order, oracles)
    ensures ProvidersToUse(options).Throw? ==> invoked == []
    ensures ProvidersToUse(options).Ok? ==>
      invoked == Positions(Completions(reg, ProvidersToUse(options).value, order, prompt, oracles))
  {
    var o := if options.Undefined? then Obj([]) else options;
    var fromOptions := Get(o, "providers");
    if fromOptions.Throw? {
      return Throw(fromOptions.exn), [];
    }
    var providersToUse := Or(fromOptions.value, Arr([Str("openai"), Str("claude"), Str("llama"), Str("huggingface")]));
    if !providersToUse.Arr? {
      return Throw(NotAFunction("providersToUse.map")), [];
    }
    var names := providersToUse.items;
    assert names == ProvidersToUse(options).value;
    var syncErrors := StartCalls(reg, names);
    var results, errors;
    results, errors, invoked := AwaitCalls(reg, names, order, prompt, oracles, syncErrors);
    if |results| == 0 {
      r := Throw(AllFailed(errors));
    } else {
      r := Ok(results[0]);
    }
  }

  /** The `map`: each callback up to its first `await`, pushing the TypeErrors of inherited members. */
  method StartCalls(reg: Registry, names: seq<JsVal>) returns (errors: seq<JsVal>)
    ensures errors == SyncErrors(reg, names)
  {
    errors := [];
    for i := 0 to |names|
      invariant errors == SyncErrors(reg, names[..i])
    {
      assert names[..i + 1][..i] == names[..i];
      if DispatchOf(reg, names[i]).NotCallable? {
        errors := errors + [ErrorEntry(names[i], NotCallableMessage)];
      }
    }
    assert names[..|names|] == names;
  }

  /** What the collection loop holds after the calls of `done` completed. */
  predicate Collected(reg: Registry, names: seq<JsVal>, done: seq<nat>, prompt: JsVal, oracles: Oracles,
                      syncErrors: seq<JsVal>, results: seq<ImageResult>, errors: seq<JsVal>, invoked: seq<nat>)
  {
    var cs := Completions(reg, names, done, prompt, oracles);
    results == Successes(cs) && errors == syncErrors + Failures(cs) && invoked == Positions(cs)
  }

  /** `await Promise.all(promises)`: the calls settle in `order`, each pushing a result or an error. */
  method AwaitCalls(reg: Registry, names: seq<JsVal>, order: seq<nat>, prompt: JsVal, oracles: Oracles,
                    syncErrors: seq<JsVal>)
    returns (results: seq<ImageResult>, errors: seq<JsVal>, invoked: seq<nat>)
    ensures var cs := Completions(reg, names, order, prompt, oracles);
      results == Successes(cs) && errors == syncErrors + Failures(cs) && invoked == Positions(cs)
  {
    results, errors, invoked := [], syncErrors, [];
    for j := 0 to |order|
      invariant Collected(reg, names, order[..j], prompt, oracles, syncErrors, results, errors, invoked)
    {
      results, errors, invoked := AwaitOne(reg, names, order, j, prompt, oracles, syncErrors, results, errors, invoked);
    }
    assert order[..|order|] == order;
  }

  /** The call at `order[j]` settles: it pushes its result or its error entry, if that name reached an adapter. */
  method AwaitOne(reg: Registry, names: seq<JsVal>, order: seq<nat>, j: nat, prompt: JsVal, oracles: Oracles,
                  syncErrors: seq<JsVal>, results: seq<ImageResult>, errors: seq<JsVal>, invoked: seq<nat>)
    returns (results': seq<ImageResult>, errors': seq<JsVal>, invoked': seq<nat>)
    requires j < |order|
    requires Collected(reg, names, order[..j], prompt, oracles, syncErrors, results, errors, invoked)
    ensures Collected(reg, names, order[..j + 1], prompt, oracles, syncErrors, results', errors', invoked')
  {
    ghost var cs := Completions(reg, names, order[..j], prompt, oracles);
    assert order[..j + 1][..j] == order[..j];
    results', errors', invoked' := results, errors, invoked;
    var a := CallAt(reg, names, order[j], prompt, oracles);
    if a.Some? {
      var c := a.value;
      assert Completions(reg, names, order[..j + 1], prompt, oracles) == cs + [c];
      CollectOne(cs, c);
      if c.outcome.Ok? {
        results' := results + [c.outcome.value];
      } else {
        errors' := errors + [ErrorEntry(c.name, c.outcome.exn.message)];
      }
      invoked' := invoked + [c.pos];
    } else {
      assert Completions(reg, names, order[..j + 1], prompt, oracles) == cs;
    }
  }

  /** A completion adds its result, or its error entry, and its position. */
  lemma CollectOne(cs: seq<Completion>, c: Completion)
    ensures Successes(cs + [c]) == Successes(cs) + (if c.outcome.Ok? then [c.outcome.value] else [])
    ensures Failures(cs + [c]) == Failures(cs) + (if c.outcome.Throw? then [ErrorEntry(c.name, c.outcome.exn.message)] else [])
    ensures Positions(cs + [c]) == Positions(cs) + [c.pos]
  {
    assert (cs + [c])[..|cs|] == cs;
  }

  /** The callback for position `i` past its checks: `await provider.generateImage(prompt)`, or nothing. */
  method CallAt(reg: Registry, names: seq<JsVal>, i: nat, prompt: JsVal, oracles: Oracles) returns (a: Option<Completion>)
    ensures a == Attempt(reg, names, i, prompt, oracles)
  {
    if i < |names| && DispatchOf(reg, names[i]).Calls? {
      var outcome := Call(reg, DispatchOf(reg, names[i]).provider, prompt, i, oracles);
      a := Some(Completion(i, names[i], outcome));
    } else {
      a := None;
    }
  }

  /** `await provider.generateImage(prompt)` for the call at position `i`. */
  method Call(reg: Registry, p: Provider, prompt: JsVal, i: nat, oracles: Oracles) returns (outcome: Outcome<ImageResult>)
    ensures outcome == CallOutcome(reg, p, prompt, i, oracles)
  {
    match p
    case OpenAI => outcome := OpenAIService.GenerateImage(reg.openai, prompt, oracles.sdk(i));
    case Claude => outcome := ClaudeService.GenerateImage(reg.claude, prompt);
    case Llama => outcome := LlamaService.GenerateImage(reg.llama, prompt);
    case HuggingFace =>
      var requests, sleeps;
      outcome, requests, sleeps := HuggingFaceService.GenerateImage(reg.huggingface, prompt, oracles.hfNet(i));
  }
}
