/**
 * What `generateImage` of the AI gateway (services/AIGateway.js) promises:
 * which adapters it calls and how often, which result it returns, and what the
 * error it throws lists; and what that means for the registry the constructor
 * builds, which is the one the server's fallback uses.
 */
module AIGatewayProperties {
  import opened JsCore
  import opened Json
  import opened Generation
  import OpenAIService
  import ClaudeService
  import LlamaService
  import HuggingFaceService
  import opened AIGateway

  /** Every completion is the call at its position: a position of `order` whose name reaches an adapter. */
  lemma {:induction false} CompletionIsCall(reg: Registry, names: seq<JsVal>, order: seq<nat>, prompt: JsVal,
                                            oracles: Oracles, k: nat)
    requires k < |Completions(reg, names, order, prompt, oracles)|
    ensures var c := Completions(reg, names, order, prompt, oracles)[k];
      c.pos in order && Attempt(reg, names, c.pos, prompt, oracles) == Some(c)
    decreases |order|
  {
    var init := order[..|order| - 1];
    var a := Attempt(reg, names, order[|order| - 1], prompt, oracles);
    var cs0 := Completions(reg, names, init, prompt, oracles);
    var cs := Completions(reg, names, order, prompt, oracles);
    assert cs == cs0 + (if a.Some? then [a.value] else []);
    if k < |cs0| {
      CompletionIsCall(reg, names, init, prompt, oracles, k);
      assert cs[k] == cs0[k];
      var m :| 0 <= m < |init| && init[m] == cs0[k].pos;
      assert order[m] == init[m];
    } else {
      assert cs[k] == a.value && a.value.pos == order[|order| - 1];
    }
  }

  /** A position is invoked once for each time `order` holds it, if its name reaches an adapter, and never otherwise. */
  lemma {:induction false} PositionsCount(reg: Registry, names: seq<JsVal>, order: seq<nat>, prompt: JsVal,
                                          oracles: Oracles, i: nat)
    ensures multiset(Positions(Completions(reg, names, order, prompt, oracles)))[i]
         == if Attempt(reg, names, i, prompt, oracles).Some? then multiset(order)[i] else 0
    decreases |order|
  {
    if |order| > 0 {
      var init := order[..|order| - 1];
      var last := order[|order| - 1];
      assert order == init + [last];
      PositionsCount(reg, names, init, prompt, oracles, i);
      PositionsSnoc(reg, names, order, prompt, oracles);
    }
  }

  /** The last position of `order` is invoked after the others, if its name reaches an adapter. */
  lemma PositionsSnoc(reg: Registry, names: seq<JsVal>, order: seq<nat>, prompt: JsVal, oracles: Oracles)
    requires |order| > 0
    ensures var last := order[|order| - 1];
      Positions(Completions(reg, names, order, prompt, oracles))
        == Positions(Completions(reg, names, order[..|order| - 1], prompt, oracles))
           + (if Attempt(reg, names, last, prompt, oracles).Some? then [last] else [])
  {
    var cs0 := Completions(reg, names, order[..|order| - 1], prompt, oracles);
    var a := Attempt(reg, names, order[|order| - 1], prompt, oracles);
    if a.Some? {
      assert Completions(reg, names, order, prompt, oracles) == cs0 + [a.value];
      CollectOne(cs0, a.value);
      assert a.value.pos == order[|order| - 1];
    } else {
      assert Completions(reg, names, order, prompt, oracles) == cs0;
    }
  }

  /** `Range(n)` holds every position below `n` once and nothing else. */
  lemma {:induction false} RangeCount(n: nat, i: nat)
    ensures multiset(Range(n))[i] == if i < n then 1 else 0
  {
    if n > 0 {
      RangeCount(n - 1, i);
      assert Range(n) == Range(n - 1) + [n - 1];
    }
  }

  /**
   * When the calls complete in some order of all positions, every name that
   * reaches an adapter has that adapter called exactly once, and no other
   * position is called at all.
   */
  lemma InvokedOnce(reg: Registry, prompt: JsVal, options: JsVal, order: seq<nat>, oracles: Oracles, i: nat)
    requires ProvidersToUse(options).Ok? && IsCompletionOrder(order, |ProvidersToUse(options).value|)
    ensures var names := ProvidersToUse(options).value;
      multiset(Positions(Completions(reg, names, order, prompt, oracles)))[i]
        == if i < |names| && DispatchOf(reg, names[i]).Calls? then 1 else 0
  {
    var names := ProvidersToUse(options).value;
    PositionsCount(reg, names, order, prompt, oracles, i);
    RangeCount(|names|, i);
  }

  /**
   * The collected results and errors: one entry per completion; no result
   * exactly when every call rejected, and then one error entry per call in
   * completion order; otherwise the first result is that of the first call
   * that resolved.
   */
  lemma {:induction false} CollectedSpec(cs: seq<Completion>)
    ensures |Successes(cs)| + |Failures(cs)| == |cs|
    ensures Successes(cs) == [] <==> forall k :: 0 <= k < |cs| ==> cs[k].outcome.Throw?
    ensures Successes(cs) == [] ==>
      forall k :: 0 <= k < |cs| ==> Failures(cs)[k] == ErrorEntry(cs[k].name, cs[k].outcome.exn.message)
    ensures Successes(cs) != [] ==>
      exists k :: 0 <= k < |cs| && cs[k].outcome == Ok(Successes(cs)[0])
                  && forall m :: 0 <= m < k ==> cs[m].outcome.Throw?
  {
    if |cs| > 0 {
      var init := cs[..|cs| - 1];
      var c := cs[|cs| - 1];
      assert cs == init + [c];
      CollectedSpec(init);
      CollectOne(init, c);
      assert forall k :: 0 <= k < |init| ==> cs[k] == init[k];
      if Successes(init) != [] {
        var k :| 0 <= k < |init| && init[k].outcome == Ok(Successes(init)[0])
                 && forall m :: 0 <= m < k ==> init[m].outcome.Throw?;
        assert cs[k].outcome == Ok(Successes(cs)[0]);
      } else if c.outcome.Ok? {
        assert cs[|init|].outcome == Ok(Successes(cs)[0]);
      }
    }
  }

  /**
   * The outcome of a call to the gateway: a names list it cannot use rejects the
   * call; otherwise it resolves exactly when some adapter call resolved, with the
   * result of the first that did, and otherwise rejects with every collected
   * error: the inherited-member TypeErrors first, then one entry per call.
   */
  lemma GenerateSpec(reg: Registry, prompt: JsVal, options: JsVal, order: seq<nat>, oracles: Oracles)
    ensures ProvidersToUse(options).Throw? ==>
      Generate(reg, prompt, options, order, oracles) == Throw(ProvidersToUse(options).exn)
    ensures ProvidersToUse(options).Ok? ==>
      var names := ProvidersToUse(options).value;
      var cs := Completions(reg, names, order, prompt, oracles);
      var r := Generate(reg, prompt, options, order, oracles);
      && (r.Ok? <==> exists k :: 0 <= k < |cs| && cs[k].outcome.Ok?)
      && (r.Ok? ==> exists k :: 0 <= k < |cs| && cs[k].outcome == r && forall m :: 0 <= m < k ==> cs[m].outcome.Throw?)
      && (r.Throw? ==>
            && r.exn == AllFailed(SyncErrors(reg, names) + Failures(cs)) && |Failures(cs)| == |cs|
            && forall k :: 0 <= k < |cs| ==> Failures(cs)[k] == ErrorEntry(cs[k].name, cs[k].outcome.exn.message))
  {
    if ProvidersToUse(options).Ok? {
      var names := ProvidersToUse(options).value;
      var cs := Completions(reg, names, order, prompt, oracles);
      CollectedSpec(cs);
      assert Generate(reg, prompt, options, order, oracles)
          == if |Successes(cs)| == 0 then Throw(AllFailed(SyncErrors(reg, names) + Failures(cs))) else Ok(Successes(cs)[0]);
    }
  }

  /**
   * The TypeErrors of inherited members: none exactly when no name reads an
   * `Object.prototype` member, and each entry names such a name.
   */
  lemma {:induction false} SyncErrorsSpec(reg: Registry, names: seq<JsVal>)
    ensures SyncErrors(reg, names) == [] <==> forall i :: 0 <= i < |names| ==> !DispatchOf(reg, names[i]).NotCallable?
    ensures forall k :: 0 <= k < |SyncErrors(reg, names)| ==>
      exists i :: 0 <= i < |names| && DispatchOf(reg, names[i]).NotCallable?
                  && SyncErrors(reg, names)[k] == ErrorEntry(names[i], NotCallableMessage)
  {
    if |names| > 0 {
      var init := names[..|names| - 1];
      SyncErrorsSpec(reg, init);
      assert forall i :: 0 <= i < |init| ==> names[i] == init[i];
      var e := SyncErrors(reg, names);
      var e0 := SyncErrors(reg, init);
      forall k | 0 <= k < |e|
        ensures exists i :: 0 <= i < |names| && DispatchOf(reg, names[i]).NotCallable?
                            && e[k] == ErrorEntry(names[i], NotCallableMessage)
      {
        if k < |e0| {
          var i :| 0 <= i < |init| && DispatchOf(reg, init[i]).NotCallable? && e0[k] == ErrorEntry(init[i], NotCallableMessage);
          assert e[k] == e0[k] && names[i] == init[i];
        } else {
          assert e[k] == ErrorEntry(names[|names| - 1], NotCallableMessage);
        }
      }
    }
  }

  /** The default names are the registry keys, which all reach their own adapter or are skipped. */
  lemma DefaultNames(reg: Registry)
    ensures var names := ProvidersToUse(Undefined).value;
      && |names| == 4
      && DispatchOf(reg, names[0]) == (if OpenAIService.IsConfigured(reg.openai) then Calls(OpenAI) else Skipped)
      && DispatchOf(reg, names[1]) == (if ClaudeService.IsConfigured(reg.claude) then Calls(Claude) else Skipped)
      && DispatchOf(reg, names[2]) == (if LlamaService.IsConfigured(reg.llama) then Calls(Llama) else Skipped)
      && DispatchOf(reg, names[3])
           == (if HuggingFaceService.IsConfigured(reg.huggingface) then Calls(HuggingFace) else Skipped)
      && SyncErrors(reg, names) == []
  {
    var names := ProvidersToUse(Undefined).value;
    assert names == [Str("openai"), Str("claude"), Str("llama"), Str("huggingface")];
    SyncErrorsSpec(reg, names);
  }

  /** No default name reads an inherited member. */
  lemma DefaultSyncErrors(reg: Registry)
    ensures SyncErrors(reg, ProvidersToUse(Undefined).value) == []
  {
    DefaultNames(reg);
  }

  /**
   * The server's fallback call (no options) on a registry where Llama and
   * HuggingFace are not configured, as the constructor builds it: Claude always
   * rejects, so a result is the OpenAI adapter's, from the first call.
   */
  lemma DefaultCallResultIsOpenAI(reg: Registry, prompt: JsVal, order: seq<nat>, oracles: Oracles)
    requires !LlamaService.IsConfigured(reg.llama) && !HuggingFaceService.IsConfigured(reg.huggingface)
    requires Generate(reg, prompt, Undefined, order, oracles).Ok?
    ensures OpenAIService.IsConfigured(reg.openai)
    ensures Generate(reg, prompt, Undefined, order, oracles) == OpenAIService.GenerateImage(reg.openai, prompt, oracles.sdk(0))
  {
    var names := ProvidersToUse(Undefined).value;
    var cs := Completions(reg, names, order, prompt, oracles);
    GenerateSpec(reg, prompt, Undefined, order, oracles);
    var k :| 0 <= k < |cs| && cs[k].outcome == Generate(reg, prompt, Undefined, order, oracles)
             && forall m :: 0 <= m < k ==> cs[m].outcome.Throw?;
    CompletionIsCall(reg, names, order, prompt, oracles, k);
    DefaultNames(reg);
    OnlyFirstResolves(reg, names, cs[k].pos, prompt, oracles);
  }

  /** Among the default names on such a registry, only the first can reach an adapter that resolves. */
  lemma OnlyFirstResolves(reg: Registry, names: seq<JsVal>, i: nat, prompt: JsVal, oracles: Oracles)
    requires !LlamaService.IsConfigured(reg.llama) && !HuggingFaceService.IsConfigured(reg.huggingface)
    requires names == ProvidersToUse(Undefined).value
    requires Attempt(reg, names, i, prompt, oracles).Some? && Attempt(reg, names, i, prompt, oracles).value.outcome.Ok?
    ensures i == 0 && OpenAIService.IsConfigured(reg.openai)
    ensures Attempt(reg, names, i, prompt, oracles).value.outcome == OpenAIService.GenerateImage(reg.openai, prompt, oracles.sdk(0))
  {
    DefaultNames(reg);
  }

  /**
   * With neither OpenAI nor Claude configured either, the server's fallback call
   * calls nothing and rejects with an empty error list.
   */
  lemma DefaultCallUnconfigured(reg: Registry, prompt: JsVal, order: seq<nat>, oracles: Oracles)
    requires !OpenAIService.IsConfigured(reg.openai) && !ClaudeService.IsConfigured(reg.claude)
    requires !LlamaService.IsConfigured(reg.llama) && !HuggingFaceService.IsConfigured(reg.huggingface)
    ensures Completions(reg, ProvidersToUse(Undefined).value, order, prompt, oracles) == []
    ensures Generate(reg, prompt, Undefined, order, oracles) == Throw(Error("All providers failed: []"))
  {
    NothingCalled(reg, prompt, order, oracles);
    DefaultSyncErrors(reg);
    EmptyArrayText();
  }

  /** On such a registry no default name reaches an adapter, so no call completes. */
  lemma NothingCalled(reg: Registry, prompt: JsVal, order: seq<nat>, oracles: Oracles)
    requires !OpenAIService.IsConfigured(reg.openai) && !ClaudeService.IsConfigured(reg.claude)
    requires !LlamaService.IsConfigured(reg.llama) && !HuggingFaceService.IsConfigured(reg.huggingface)
    ensures Completions(reg, ProvidersToUse(Undefined).value, order, prompt, oracles) == []
  {
    var names := ProvidersToUse(Undefined).value;
    if |Completions(reg, names, order, prompt, oracles)| > 0 {
      CompletionIsCall(reg, names, order, prompt, oracles, 0);
      DefaultNames(reg);
      assert false;
    }
  }

  /** The constructor's registry is such a registry. */
  lemma ConstructedRegistry(env: Env)
    ensures !LlamaService.IsConfigured(New(env).llama) && !HuggingFaceService.IsConfigured(New(env).huggingface)
    ensures OpenAIService.IsConfigured(New(env).openai) <==> OpenAIService.IsConfigured(OpenAIService.New(env))
    ensures ClaudeService.IsConfigured(New(env).claude) <==> EnvVar(env, "CLAUDE_API_KEY") != ""
  {
  }
}
