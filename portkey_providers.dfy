/**
 * The provider registry of the Portkey gateway (services/PortkeyGateway.js):
 * six providers in declaration order, each with its model, its Portkey provider
 * name, its API key from the environment and its endpoint; the available
 * providers are those whose key is set.
 */
module PortkeyProviders {
  import opened JsCore

  datatype ProviderConfig = ProviderConfig(name: string, model: string, provider: string, apiKey: string, endpoint: string)

  /** The registry built by the constructor, in declaration order. */
  function ProviderMap(env: Env): (m: seq<ProviderConfig>)
    ensures |m| == 6
    ensures forall i :: 0 <= i < 6 ==> m[i].name == m[i].provider
  {
    [ ProviderConfig("huggingface", "stabilityai/stable-diffusion-xl-base-1.0", "huggingface",
                     EnvVar(env, "HUGGINGFACE_API_KEY"), "/v1/images/generate"),
      ProviderConfig("openai", "dall-e-3", "openai", EnvVar(env, "OPENAI_API_KEY"), "/v1/images/generations"),
      ProviderConfig("stability", "stable-diffusion-xl", "stability", EnvVar(env, "STABILITY_API_KEY"),
                     "/v1/generation/stable-diffusion-xl-1024-v1-0/text-to-image"),
      ProviderConfig("deepai", "text2img", "deepai", EnvVar(env, "DEEPAI_API_KEY"), "/api/text2img"),
      ProviderConfig("firefly", "text2img", "firefly", EnvVar(env, "ADOBE_API_KEY"), "/v2/images/generations"),
      ProviderConfig("midjourney", "midjourney-v5", "midjourney", EnvVar(env, "MIDJOURNEY_API_KEY"), "/v2/imagine") ]
  }

  /** The provider names in declaration order. */
  const ProviderNames: seq<string> := ["huggingface", "openai", "stability", "deepai", "firefly", "midjourney"]

  /** The environment variable each provider's key is read from. */
  function KeyVariable(name: string): string
  {
    if name == "huggingface" then "HUGGINGFACE_API_KEY"
    else if name == "openai" then "OPENAI_API_KEY"
    else if name == "stability" then "STABILITY_API_KEY"
    else if name == "deepai" then "DEEPAI_API_KEY"
    else if name == "firefly" then "ADOBE_API_KEY"
    else if name == "midjourney" then "MIDJOURNEY_API_KEY"
    else ""
  }

  lemma ProviderMapLayout(env: Env)
    ensures forall i :: 0 <= i < 6 ==> ProviderMap(env)[i].name == ProviderNames[i]
    ensures forall i :: 0 <= i < 6 ==> ProviderMap(env)[i].apiKey == EnvVar(env, KeyVariable(ProviderNames[i]))
  {
  }

  /** The configuration stored under `name` (the names in the registry are distinct). */
  function FindConfig(configs: seq<ProviderConfig>, name: string): (c: Option<ProviderConfig>)
  {
    if |configs| == 0 then None
    else if configs[0].name == name then Some(configs[0])
    else FindConfig(configs[1..], name)
  }

  /** The lookup finds an entry exactly when one carries the name, and what it finds is such an entry. */
  lemma {:induction false} FindConfigSpec(configs: seq<ProviderConfig>, name: string)
    ensures FindConfig(configs, name).Some? <==> exists i :: 0 <= i < |configs| && configs[i].name == name
    ensures FindConfig(configs, name).Some? ==>
              FindConfig(configs, name).value in configs && FindConfig(configs, name).value.name == name
  {
    if |configs| > 0 && configs[0].name != name {
      FindConfigSpec(configs[1..], name);
      assert forall i :: 1 <= i < |configs| ==> configs[i] == configs[1..][i - 1];
    }
  }

  /** No provider name is the name of an inherited object member. */
  lemma InheritedIsNotProvider(name: string)
    requires name in PrototypeKeys
    ensures name !in ProviderNames
  {
  }

  /** So looking an inherited member's name up among the registry's own entries finds nothing. */
  lemma NoProviderIsInherited(env: Env, name: string)
    requires name in PrototypeKeys
    ensures FindConfig(ProviderMap(env), name).None?
  {
    InheritedIsNotProvider(name);
    ProviderMapLayout(env);
    FindConfigSpec(ProviderMap(env), name);
  }

  /** The positions from `from` on of the entries with a truthy key. */
  function KeyedIndices(configs: seq<ProviderConfig>, from: nat): (idx: seq<nat>)
    requires from <= |configs|
    decreases |configs| - from
  {
    if from == |configs| then []
    else if configs[from].apiKey != "" then [from] + KeyedIndices(configs, from + 1)
    else KeyedIndices(configs, from + 1)
  }

  /** They are ascending, each holds a key, and none is missed. */
  lemma {:induction false} KeyedIndicesSpec(configs: seq<ProviderConfig>, from: nat)
    requires from <= |configs|
    ensures var idx := KeyedIndices(configs, from);
      && (forall j :: 0 <= j < |idx| ==> from <= idx[j] < |configs| && configs[idx[j]].apiKey != "")
      && (forall j, k :: 0 <= j < k < |idx| ==> idx[j] < idx[k])
      && (forall i :: from <= i < |configs| && configs[i].apiKey != "" ==> i in idx)
    decreases |configs| - from
  {
    if from < |configs| {
      KeyedIndicesSpec(configs, from + 1);
      var rest := KeyedIndices(configs, from + 1);
      if configs[from].apiKey != "" {
        var idx := [from] + rest;
        assert KeyedIndices(configs, from) == idx;
        assert forall j :: 1 <= j < |idx| ==> idx[j] == rest[j - 1];
        forall i | from <= i < |configs| && configs[i].apiKey != ""
          ensures i in idx
        {
          if i != from {
            assert i in rest;
          }
        }
      } else {
        assert KeyedIndices(configs, from) == rest;
      }
    }
  }

  /** `Object.entries(providerMap).filter(([_, c]) => c.apiKey).map(([name]) => name)`. */
  function AvailableProviders(configs: seq<ProviderConfig>): (names: seq<string>)
    ensures |names| <= |configs|
  {
    if |configs| == 0 then []
    else if configs[0].apiKey != "" then [configs[0].name] + AvailableProviders(configs[1..])
    else AvailableProviders(configs[1..])
  }

  /**
   * The available providers are exactly the names of the entries with a set key,
   * taken in declaration order: the names at the ascending positions of those entries.
   */
  lemma {:induction false} AvailableInDeclarationOrder(configs: seq<ProviderConfig>)
    ensures var idx := KeyedIndices(configs, 0);
      var names := AvailableProviders(configs);
      |names| == |idx| && forall j :: 0 <= j < |idx| ==> idx[j] < |configs| && names[j] == configs[idx[j]].name
  {
    FilterMatchesIndices(configs, 0);
    assert configs[0..] == configs;
  }

  lemma {:induction false} FilterMatchesIndices(configs: seq<ProviderConfig>, from: nat)
    requires from <= |configs|
    ensures var idx := KeyedIndices(configs, from);
      var names := AvailableProviders(configs[from..]);
      |names| == |idx| && forall j :: 0 <= j < |idx| ==> idx[j] < |configs| && names[j] == configs[idx[j]].name
    decreases |configs| - from
  {
    if from < |configs| {
      FilterMatchesIndices(configs, from + 1);
      assert configs[from..][1..] == configs[from + 1..];
    }
  }

  /** A name is available exactly when the registry holds it with a truthy key. */
  lemma AvailableIff(configs: seq<ProviderConfig>, name: string)
    ensures name in AvailableProviders(configs)
        <==> exists i :: 0 <= i < |configs| && configs[i].name == name && configs[i].apiKey != ""
  {
    AvailableInDeclarationOrder(configs);
    KeyedIndicesSpec(configs, 0);
    var idx := KeyedIndices(configs, 0);
    var names := AvailableProviders(configs);
    if name in names {
      var j :| 0 <= j < |names| && names[j] == name;
      assert configs[idx[j]].name == name;
    }
    if exists i :: 0 <= i < |configs| && configs[i].name == name && configs[i].apiKey != "" {
      var i :| 0 <= i < |configs| && configs[i].name == name && configs[i].apiKey != "";
      assert i in idx;
      var j :| 0 <= j < |idx| && idx[j] == i;
      assert names[j] == name;
    }
  }

  /** With the registry the constructor builds: a provider is available exactly when its variable is set. */
  lemma AvailableFromEnvironment(env: Env, name: string)
    ensures name in AvailableProviders(ProviderMap(env))
        <==> name in ProviderNames && EnvVar(env, KeyVariable(name)) != ""
  {
    AvailableIff(ProviderMap(env), name);
    ProviderMapLayout(env);
    if name in ProviderNames {
      var i :| 0 <= i < 6 && ProviderNames[i] == name;
      assert ProviderMap(env)[i].name == name;
    }
  }
}
