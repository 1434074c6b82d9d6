# Image-generation gateway: provider orchestration

A model in Dafny of the part of the ItsMyAvatar.ai image server that decides
which image provider to call, in what order, and how to read the reply:

- **The Portkey gateway** (`services/PortkeyGateway.js`). It builds a registry
  of six providers (huggingface, openai, stability, deepai, firefly,
  midjourney). The providers whose API key is set are "available", kept in
  declaration order. A request either names one provider (targeted mode) or
  tries every available provider in turn until one succeeds (fan-out mode);
  in fan-out mode every failure goes into one aggregated error. The model also
  covers request shaping (the `"WxH"` size parse, the quality steps and tiers,
  DALL-E size binning), the per-provider reading of replies, the Midjourney
  status poll (at most 30 polls, 10 s apart), and the rewrapping of request
  errors as `"<name> request failed: ..."`.
- **The AI gateway** (`services/AIGateway.js`). It has four adapters: OpenAI,
  Claude, Llama and HuggingFace. Every configured adapter named in the request
  (by default, all of them) is called once. The calls run concurrently and the
  order in which they complete is an input to the model. The gateway returns
  the first result to arrive, or throws every collected error.
- **The route** `POST /api/generate` (`server.js`). It reads the options with
  their defaults and builds the enhanced prompt by appending suffixes chosen by
  quality, type and style. It picks avatar settings, asks the Portkey gateway
  first, falls back to the AI gateway only when Portkey throws, and shapes the
  JSON reply.
- **The provider adapters**: HuggingFace (three attempts, with 503 meaning
  "model loading, retry"), OpenAI (key trimming, response check, error
  mapping), DeepAI (two versions), Firefly, Midjourney, and the Claude and
  Llama stubs.

JavaScript values are modelled by `JsCore.JsVal`. It gives JavaScript's
truthiness, property reads (a read on `null` or `undefined` raises V8's
TypeError), template-literal conversion, object spread and `JSON.stringify`
(section 25.5.2 of ECMA-262). Every network call is a function supplied by the
caller that returns the server's reply (`Http.Reply`). `Http.Settle` applies
the request's `validateStatus` policy, as axios does. The environment is a map
in which a variable that is not set reads as `""`. Every use in the code treats
a missing variable and an empty one alike.

Imperative code stays imperative. The Portkey fan-out `for` loop
(`PortkeyGateway.FanOutRun`), the Midjourney `while` loop
(`PortkeyResponses.PollMidjourney`), the HuggingFace retry loop
(`HuggingFaceService.GenerateImage`), the AI gateway's collection of results
and errors (`AIGateway.StartCalls`, `AIGateway.AwaitCalls`) and the route's
step-by-step prompt building (`Server.EnhancePrompt`) are all methods with loop
invariants. Each is proved equal to a specification function, and the
properties are proved about that function.

Quirks of the code that the model keeps, each proved:

- Without a provider the route passes `'auto'`, which no Portkey registry
  holds. The Portkey gateway therefore refuses every such request and the
  reply always comes from the AI gateway (`ServerProperties.NoProviderAlwaysFallsBack`).
- The route passes the AI gateway one object `{prompt, provider, options}` as
  its prompt and no options (`Server.FallbackPrompt`).
- The AI gateway builds its HuggingFace adapter without a key, so that adapter
  is never configured. Llama's client is always null, and Claude always
  throws. A fallback success is therefore always OpenAI's
  (`AIGatewayProperties.DefaultCallResultIsOpenAI`).
- When all three HuggingFace attempts return 503, `lastError` is still null
  and the final `lastError.message` raises a TypeError
  (`HuggingFaceService.AllLoadingDereferencesNull`).
- A Midjourney poll reporting progress 100 without an image URL keeps the loop
  going (`PortkeyResponses.CompleteWithoutUrlKeepsPolling`).
- A style or provider name that is a member every object inherits
  (`'constructor'`, `'toString'`, ...) is found by the style tables' and the
  AI registry's lookups. A style then appends that member's text, and a
  provider name then throws "provider.isConfigured is not a function"
  (`ServerProperties.InheritedStyleAppendsText`, `AIGatewayProperties.SyncErrorsSpec`).
  The Portkey registry's lookup finds them too, so `tryProvider` of such a name
  throws "API key missing for provider X" (`PortkeyProperties.InheritedNameHasNoKey`).

The AI gateway calls its providers concurrently; only the Portkey gateway tries
them in sequence. Neither gateway nor the route checks the prompt. The Midjourney poll makes at most 30 polls, 10 s apart, and a
poll reporting completion without a URL keeps polling. Both DeepAI adapters, the
Midjourney adapter and the Firefly adapter return `{success: false}` instead
of throwing.

## Model

| member | source | states |
|---|---|---|
| `PortkeyProviders.ProviderMapLayout` | services/PortkeyGateway.js:27-64 | the registry holds the six providers in declaration order, each keyed from its own environment variable |
| `PortkeyProviders.AvailableInDeclarationOrder` | services/PortkeyGateway.js:66-69 | the available providers are the names of the keyed entries, at ascending registry positions |
| `PortkeyProviders.KeyedIndicesSpec` | services/PortkeyGateway.js:66-69 | the positions kept are ascending and keyed, and no keyed position is missed |
| `PortkeyProviders.AvailableIff` | services/PortkeyGateway.js:66-69 | a name is available iff the registry holds it with a truthy key |
| `PortkeyProviders.AvailableFromEnvironment` | services/PortkeyGateway.js:27-69 | with the constructor's registry, a name is available iff it is one of the six and its key variable is set |
| `PortkeyProviders.FindConfigSpec` | services/PortkeyGateway.js:119-122 | the lookup among the registry's own entries finds one iff one has that name, and the entry found carries that name; inherited members are handled by `PortkeyGateway.TryProvider` |
| `PortkeyProviders.InheritedIsNotProvider` | services/PortkeyGateway.js:27-64 | no provider name is the name of an inherited object member |
| `PortkeyProviders.NoProviderIsInherited` | services/PortkeyGateway.js:27-64 | so no own entry of the constructed registry answers an inherited member's name |
| `PortkeyGateway.New` | services/PortkeyGateway.js:4-12 | the constructor throws "PORTKEY_API_KEY is required" iff that key is unset, and otherwise builds the registry from the environment |
| `PortkeyRequests.JsNumber` | services/PortkeyGateway.js:85 | `Number` on a size piece is a nonnegative integer, or NaN |
| `PortkeyRequests.ReadOptions` | services/PortkeyGateway.js:83-84 | missing options mean size 1024x1024 and no quality; a null options object throws |
| `PortkeyRequests.ParseSize` | services/PortkeyGateway.js:85 | it parses iff the size is a string; width and height are `Number` of the first two `x`-pieces, height undefined when there is no second; a nullish size throws the read error and any other non-string "size.split is not a function" |
| `PortkeyRequests.ParseCanonicalSize` | services/PortkeyGateway.js:85 | `"WxH"` written in decimal parses back to W and H |
| `PortkeyRequests.DefaultSizeIsSquare` | services/PortkeyGateway.js:84-85 | the default size parses to 1024 by 1024 |
| `PortkeyRequests.DalleSize` | services/PortkeyGateway.js:162-168 | DALL-E size is one of three sizes; a non-numeric side gives square; a zero height gives landscape or portrait by the sign of the width |
| `PortkeyRequests.DalleSizeByRatio` | services/PortkeyGateway.js:162-168 | for nonzero height the cross-multiplied binning equals comparing w/h with 1.5 and 0.67 |
| `PortkeyRequests.BodyFor` | services/PortkeyGateway.js:142-233 | each provider's body: 'hd' gives 50 steps for huggingface and stability (else 30); openai gets the binned size and hd/standard; firefly gets high/standard; midjourney gets `"WxH"` dimensions |
| `PortkeyResponses.HuggingFaceImage` | services/PortkeyGateway.js:250-263 | the first array element is taken iff there is no error field and it is a string starting with `http` or `data:image` |
| `PortkeyResponses.OpenAIImage` | services/PortkeyGateway.js:266-274 | `data[0].url` is taken iff there is no error field and it is a truthy string; an error field is reported with its message |
| `PortkeyResponses.DeepAIImage` | services/PortkeyGateway.js:275-283 | `output_url` is taken iff there is no error field and it is a truthy string |
| `PortkeyResponses.StabilityImage` | services/PortkeyGateway.js:284-285 | `artifacts[0].base64` is read unchecked; only a nullish step on the path throws |
| `PortkeyResponses.FireflyImage` | services/PortkeyGateway.js:286-287 | `data[0].url` is read unchecked; only a nullish step on the path throws |
| `PortkeyResponses.MidjourneyMessage` | services/PortkeyGateway.js:288-295 | the first reply must carry a truthy `messageId` and no error field |
| `PortkeyResponses.LoggedUrl` | services/PortkeyGateway.js:274-326 | the log line's `substring` lets only string URLs through |
| `PortkeyResponses.Extract` | services/PortkeyGateway.js:248-327 | midjourney yields a message id to poll, every other provider an image URL; a name outside the six yields no URL |
| `PortkeyResponses.StepSpec` | services/PortkeyGateway.js:306-319 | a poll completes iff it gets a 2xx reply with progress 100 and a truthy first URL; progress -1 fails; pending means a 2xx reply whose progress is not -1 |
| `PortkeyResponses.Steps` | services/PortkeyGateway.js:300-306 | exactly 30 polls are considered, poll k being the reply to request k |
| `PortkeyResponses.FirstSettled` | services/PortkeyGateway.js:300-320 | the index of the first poll that is not pending; every earlier one was pending |
| `PortkeyResponses.PollResult` | services/PortkeyGateway.js:298-324 | the first settled poll decides: completed with its URL, or failed with its error; with none settled the poll times out |
| `PortkeyResponses.PollMidjourney` | services/PortkeyGateway.js:298-320 | the loop's outcome is `PollResult`; it makes at most 30 status requests, one more than the waits when a poll settles |
| `PortkeyResponses.PollBounds` | services/PortkeyGateway.js:298-324 | a completed poll carries a truthy URL; the poll times out iff all 30 polls were pending |
| `PortkeyResponses.CompleteWithoutUrlKeepsPolling` | services/PortkeyGateway.js:308-319 | progress 100 without a first URL is pending, not completed and not failed |
| `PortkeyResponses.AfterPoll` | services/PortkeyGateway.js:322-326 | a timeout throws "Timeout waiting for Midjourney image"; a poll failure passes on its error |
| `PortkeyResponses.Rewrap` | services/PortkeyGateway.js:338-341 | every in-flight error becomes `"<name> request failed: "` plus the server's error message if truthy, else the error's own message |
| `PortkeyGateway.Present` | services/PortkeyGateway.js:329-331 | a missing URL becomes "No image URL in <name> response" |
| `PortkeyGateway.InFlight` | services/PortkeyGateway.js:244-337 | whatever succeeds in flight is a truthy URL; a transport or status error passes through unchanged |
| `PortkeyGateway.InFlightRun` | services/PortkeyGateway.js:244-337 | the in-flight steps, polling included, compute `InFlight`; only midjourney polls, at most 30 times |
| `PortkeyGateway.TryProvider` | services/PortkeyGateway.js:118-341 | a name with no entry throws "Provider X not found"; a name with a keyless entry, or the name of an inherited object member (truthy, with no `apiKey`), throws "API key missing for provider X"; a result has a truthy URL, the attempted name and that provider's model |
| `PortkeyGateway.TryProviderRun` | services/PortkeyGateway.js:118-341 | `tryProvider` as steps computes `TryProvider` and makes at most 30 status polls |
| `PortkeyGateway.RequestErrorsAreRewrapped` | services/PortkeyGateway.js:119-341 | past the two early checks, every in-flight error is rethrown as `"<name> request failed: ..."` and a URL becomes the result |
| `PortkeyGateway.Attempts` | services/PortkeyGateway.js:102-104 | one attempt outcome per name |
| `PortkeyGateway.AttemptAt` | services/PortkeyGateway.js:102-104 | attempt i is `tryProvider` of name i |
| `PortkeyGateway.FirstSuccess` | services/PortkeyGateway.js:102-107 | the index of the first successful attempt; every earlier one threw |
| `PortkeyGateway.FailureLines` | services/PortkeyGateway.js:108-111 | one `"name: message"` line per failed attempt, in attempt order |
| `PortkeyGateway.FanOutByFirstSuccess` | services/PortkeyGateway.js:101-115 | the recursive fallback records every failure before the first success, and tries names exactly up to that success |
| `PortkeyGateway.FanOutStep` | services/PortkeyGateway.js:102-111 | a failed head prepends its line and its name to what the rest of the fallback does |
| `PortkeyGateway.FallbackIsFanOut` | services/PortkeyGateway.js:101-115 | the loop's outcome agrees with the recursive fallback |
| `PortkeyGateway.FanOutRun` | services/PortkeyGateway.js:101-115 | the `for` loop returns the first success after trying exactly the names up to it; if all fail it tries all of them and throws the aggregated lines |
| `PortkeyGateway.FallbackRun` | services/PortkeyGateway.js:101-115 | the fan-out branch computes `Fallback` of the attempts |
| `PortkeyGateway.GenerateImage` | services/PortkeyGateway.js:82-116 | `generateImage` as steps computes `Generate`, outcome and names tried alike |
| `PortkeyProperties.NoProvidersNoCall` | services/PortkeyGateway.js:78-91 | with no available provider the call throws before any `tryProvider` |
| `PortkeyProperties.UnavailableTargetNoCall` | services/PortkeyGateway.js:94-97 | an unavailable named provider throws "not configured" with the list of available ones, and nothing is tried |
| `PortkeyProperties.RefusedWithoutCall` | services/PortkeyGateway.js:89-97 | a named provider that is not available throws and tries nothing |
| `PortkeyProperties.AutoNotAvailable` | services/PortkeyGateway.js:27-69 | `'auto'` is never an available provider |
| `PortkeyProperties.AutoIsRejected` | services/PortkeyGateway.js:94-97 | a request for `'auto'` throws and tries nothing, whatever the environment |
| `PortkeyProperties.InheritedNameHasNoKey` | services/PortkeyGateway.js:118-127 | on the constructed registry, `tryProvider` of an inherited member's name (`constructor`, `__proto__`, ...) throws "API key missing for provider X", not "not found" |
| `PortkeyProperties.TargetedSingleCall` | services/PortkeyGateway.js:94-99 | an available named provider is tried once, alone, and its outcome (error included) is passed on unaggregated |
| `PortkeyProperties.FanOutIsFallback` | services/PortkeyGateway.js:101-115 | without a named target the call is the fallback over the available providers |
| `PortkeyProperties.FallbackOrder` | services/PortkeyGateway.js:101-112 | the names tried are a prefix of the available ones; all but the last failed; a success is the last one's outcome; a failure means all were tried |
| `PortkeyProperties.FallbackLines` | services/PortkeyGateway.js:108-115 | when all fail, the error lists one `"name: message"` per provider, in order |
| `PortkeyProperties.FanOutOrder` | services/PortkeyGateway.js:101-115 | fan-out tries providers in availability order, stops after the first success, and on total failure lists every provider's error in attempt order |
| `PortkeyProperties.FallbackSuccess` | services/PortkeyGateway.js:102-107 | a fan-out success comes from a provider that was tried, with that provider's model |
| `PortkeyProperties.SuccessCarriesConfig` | services/PortkeyGateway.js:329-337 | every result has a truthy URL and an available, tried provider, and carries that provider's configured model |
| `Server.AddQuality` | server.js:70-75 | 'hd' and '4k' append their suffixes; any other quality appends nothing |
| `Server.AddGeneral` | server.js:78-95 | general images get the style's suffix, then the masterpiece details for hd or 4k |
| `Server.AddEnhancement` | server.js:87-89 | a found table entry is appended; an empty one leaves the prompt unchanged |
| `Server.EnhancePrompt` | server.js:69-113 | the `+=` sequence builds `Enhanced`, and `providerSettings` is the avatar settings for avatars and empty otherwise |
| `Server.ReadRequest` | server.js:56-113 | reading the body with defaults 'none', 'standard' and 'general', then enhancing, gives `PlanOf` |
| `Server.HandleGenerate` | server.js:54-187 | the route's steps compute `Handle`: the reply and the gateways asked, in order |
| `ServerProperties.EnhancedPrefix` | server.js:69-113 | the enhanced prompt starts with the prompt followed by the quality suffix; later steps only append |
| `ServerProperties.QualitySuffixEmptyIff` | server.js:71-75 | only 'hd' and '4k' add a quality suffix |
| `ServerProperties.OtherKindQualityOnly` | server.js:69-113 | a type other than general and avatar gets only the quality suffix |
| `ServerProperties.GeneralAppendsStyleEntry` | server.js:78-95 | a general image gets, after the quality suffix, the style table's entry for its style and then the masterpiece details for hd or 4k, and nothing from the avatar table |
| `ServerProperties.UnknownStyleAddsNothing` | server.js:87-89 | a style that is not a key of the table in use, and not an inherited member, adds nothing |
| `ServerProperties.InheritedStyleAppendsText` | server.js:87-89 | a style naming an inherited object member appends that member's text |
| `ServerProperties.GeneralHighQualityEndsWithMasterpiece` | server.js:91-94 | a high-quality general prompt ends with ", masterpiece, best quality, highly detailed" |
| `ServerProperties.AvatarUsesAvatarTable` | server.js:98-113 | avatars get only the avatar table's suffix, and the settings are `avatarSettings[provider]` or none |
| `ServerProperties.RequestOptionsSpec` | server.js:118-128 | both gateways get size 1024x1024 and the type; an OpenAI avatar's settings override quality with 'hd' and style with 'vivid' and add model dall-e-3; a HuggingFace avatar's add the SDXL model; otherwise quality and style are the client's |
| `ServerProperties.RequestOptionsPrepared` | server.js:118-128 | Portkey reads those options as 1024 by 1024 with the spread's quality |
| `ServerProperties.PlanSendsFixedSizeAndTarget` | server.js:118-128 | every request targets `provider \|\| 'auto'`, asks for 1024x1024, and starts with the client's prompt |
| `ServerProperties.DefaultOptions` | server.js:56-57 | without options the prompt is kept as sent and the defaults apply |
| `ServerProperties.PlanFailsOnlyOnNull` | server.js:56-57 | reading the request fails iff `options` is null |
| `ServerProperties.CascadeOrder` | server.js:115-186 | Portkey is asked first, and the AI gateway after it iff Portkey throws |
| `ServerProperties.PortkeySuccessReply` | server.js:130-145 | a Portkey success is reported as gateway 'PortkeyGateway', with an available provider, its configured model and the enhanced prompt |
| `ServerProperties.FallbackReplySpec` | server.js:146-186 | after a Portkey failure the reply is the AI gateway's URL under 'AIGateway' with no provider or model, or its error as a 500 reply |
| `ServerProperties.NoProviderPortkeyThrows` | server.js:118-128 | the `'auto'` request is refused by Portkey without trying a provider |
| `ServerProperties.NoProviderAlwaysFallsBack` | server.js:116-161 | without a named provider the reply always comes from the AI gateway |
| `ServerProperties.FallbackSuccessIsOpenAI` | server.js:151-178 | on the constructed registry a fallback success is OpenAI's result for the object passed as the prompt |
| `AIGateway.New` | services/AIGateway.js:7-14 | OpenAI and Claude are configured from the environment; Llama and the keyless HuggingFace adapter never are |
| `AIGateway.CallsOnlyConfigured` | services/AIGateway.js:26-29 | a name reaches an adapter iff it is that registry key and the adapter is configured; inherited member names are not callable |
| `AIGateway.ProvidersToUseCases` | services/AIGateway.js:21 | without options all four registry keys are used in order; a `providers` array is used as is; null options throw the read error and a truthy non-array throws "providersToUse.map is not a function" |
| `AIGateway.StartCalls` | services/AIGateway.js:24-29 | before the first `await`, only inherited-member names push an error, in list order |
| `AIGateway.CallAt` | services/AIGateway.js:26-31 | a position reaches its adapter iff its name is callable |
| `AIGateway.Call` | services/AIGateway.js:31 | the call returns the adapter's own outcome |
| `AIGateway.AwaitOne` | services/AIGateway.js:31-42 | one completion pushes its result or one error entry, and is recorded |
| `AIGateway.AwaitCalls` | services/AIGateway.js:24-45 | results and errors are pushed in completion order: one result or one error per completed call |
| `AIGateway.CollectOne` | services/AIGateway.js:32-41 | a completion adds exactly one result or one error entry |
| `AIGateway.GenerateImage` | services/AIGateway.js:16-55 | `generateImage` computes `Generate`; the adapters invoked are the callable positions, in completion order |
| `AIGatewayProperties.CompletionIsCall` | services/AIGateway.js:24-31 | every completion is the call of a callable position that occurs in the completion order |
| `AIGatewayProperties.PositionsCount` | services/AIGateway.js:24-45 | a position is invoked as often as the order holds it if its name is callable, and never otherwise |
| `AIGatewayProperties.InvokedOnce` | services/AIGateway.js:24-45 | every selected configured provider is called exactly once, and nothing else is called |
| `AIGatewayProperties.CollectedSpec` | services/AIGateway.js:31-54 | no result iff every call threw, with then one error per call; otherwise the first result is that of the first call to resolve |
| `AIGatewayProperties.GenerateSpec` | services/AIGateway.js:45-54 | the call resolves iff some adapter call resolved, with the first to complete; otherwise it throws "All providers failed" listing every error |
| `AIGatewayProperties.SyncErrorsSpec` | services/AIGateway.js:24-42 | the early TypeErrors are empty iff no name is an inherited member, and each names such a name |
| `AIGatewayProperties.DefaultNames` | services/AIGateway.js:8-21 | the default names reach each adapter iff it is configured, and raise no early error |
| `AIGatewayProperties.OnlyFirstResolves` | services/AIGateway.js:8-31 | on the constructed registry only the first default name can resolve, through OpenAI |
| `AIGatewayProperties.DefaultCallResultIsOpenAI` | services/AIGateway.js:45-54 | on the constructed registry, a success is OpenAI's result |
| `AIGatewayProperties.NothingCalled` | services/AIGateway.js:24-29 | with nothing configured no call is made |
| `AIGatewayProperties.DefaultCallUnconfigured` | services/AIGateway.js:48-50 | with nothing configured the call throws "All providers failed: []" |
| `AIGatewayProperties.ConstructedRegistry` | services/AIGateway.js:8-13 | in the constructed registry Llama and HuggingFace are unconfigured and Claude is configured iff CLAUDE_API_KEY is set |
| `HuggingFaceService.RequestFor` | services/providers/HuggingFaceService.js:37-45 | every attempt posts the prompt with 30 steps, guidance 7.5 and 512 by 512 |
| `HuggingFaceService.AttemptStep` | services/providers/HuggingFaceService.js:30-55 | an attempt loads an image iff the status is 200, signals loading iff the status is 503, and throws otherwise |
| `HuggingFaceService.FirstLoaded` | services/providers/HuggingFaceService.js:26-61 | the index of the first attempt that loaded; no earlier attempt did |
| `HuggingFaceService.LastFailureSpec` | services/providers/HuggingFaceService.js:69-71 | `lastError` is null iff no attempt threw, and is otherwise the error of the last attempt that threw |
| `HuggingFaceService.LoadedResult` | services/providers/HuggingFaceService.js:57-68 | the URL is "data:image/jpeg;base64," plus the body's base64, and the metadata is fixed |
| `HuggingFaceService.GenerateImage` | services/providers/HuggingFaceService.js:20-81 | the loop computes `GenerateResult`; an unconfigured call makes no request and no wait; otherwise it makes requests up to the first loaded attempt, at most 3, and waits as many times as `SleepsBefore` counts for them |
| `HuggingFaceService.GenerateResultSpec` | services/providers/HuggingFaceService.js:25-80 | a configured call resolves iff some attempt loaded; after a thrown attempt it fails with "HuggingFace failed after 3 attempts: " and the last thrown message |
| `HuggingFaceService.AllLoadingDereferencesNull` | services/providers/HuggingFaceService.js:80 | three 503s end in the TypeError of reading `message` of null |
| `Base64.Encode` | services/providers/HuggingFaceService.js:58 | the encoding has 4 characters per started group of 3 octets (section 4 of RFC 4648) |
| `Base64.DecodeEncode` | services/providers/HuggingFaceService.js:58 | decoding the base64 text gives back the image octets |
| `OpenAIService.New` | services/providers/OpenAIService.js:4-10 | a client exists iff the trimmed key is nonempty, and it holds that trimmed key |
| `JsText.TrimIsMiddle` | services/providers/OpenAIService.js:6 | the trimmed key is a contiguous middle part of the variable with only white space cut from its two ends |
| `OpenAIService.ConfiguredIffKeyNotBlank` | services/providers/OpenAIService.js:6-14 | the adapter is configured iff the key holds a character that is not white space |
| `OpenAIService.RequestFor` | services/providers/OpenAIService.js:22-29 | the request is dall-e-2, one image, 1024x1024, standard quality, URL format |
| `OpenAIService.ImageUrl` | services/providers/OpenAIService.js:31-33 | a response is valid iff `data`, `data[0]` and `data[0].url` are all truthy; a nullish response is the TypeError of reading `data`, any other invalid one is "Invalid response from OpenAI API" |
| `OpenAIService.MapError` | services/providers/OpenAIService.js:43-49 | `insufficient_quota` maps to the quota message; anything else becomes "OpenAI image generation failed: <msg>" |
| `OpenAIService.GenerateImage` | services/providers/OpenAIService.js:16-50 | unconfigured throws "OpenAI is not configured"; it succeeds iff the SDK answers with a valid URL, with the fixed dall-e-2 metadata; an SDK error and an invalid or nullish response both go through the `catch` mapping |
| `OpenAIService.InvalidResponseIsPrefixedFailure` | services/providers/OpenAIService.js:31-48 | a non-nullish response whose `data`, `data[0]` or `data[0].url` is falsy ends in "OpenAI image generation failed: Invalid response from OpenAI API" |
| `OpenAIService.NullishResponseIsPrefixedTypeError` | services/providers/OpenAIService.js:22-48 | a null or undefined response ends in "OpenAI image generation failed: " followed by the TypeError of reading `data` |
| `DeepAIProviderService.RequestBody` | services/providers/DeepAIService.js:20 | the body is "text=" followed by `encodeURIComponent(prompt)` |
| `DeepAIProviderService.BodyIsOneField` | services/providers/DeepAIService.js:20 | whatever the prompt, the body is a single form field: no `&` or `=` after "text=" |
| `UriEncoding.EncodedIsFormSafe` | services/providers/DeepAIService.js:20 | encoded text holds only unreserved characters and `%` |
| `UriEncoding.Utf8RoundTrip` | services/providers/DeepAIService.js:20 | every character is escaped as its UTF-8 form (RFC 3629, section 3) |
| `DeepAIProviderService.CatchMessage` | services/providers/DeepAIService.js:43-57 | an error with a response is described by its status and body; any other error by its message |
| `DeepAIProviderService.NoApiErrorDescription` | services/providers/DeepAIService.js:21 | with every status accepted, no caught error carries a response |
| `DeepAIProviderService.GenerateImage` | services/providers/DeepAIService.js:9-58 | it succeeds iff status is 200 with a truthy `output_url`; other statuses report the status; a 200 without URL reports the invalid structure; the provider is always 'deepai' and it never throws |
| `FireflyService.RequestFor` | services/providers/FireflyService.js:17-30 | it throws iff options is null; every field falls back to its default through `\|\|`; contentClass is always "photo" |
| `FireflyService.DefaultRequest` | services/providers/FireflyService.js:17-30 | without options the defaults are n 1, 1024x1024, no styles, empty negative prompt, standard, jpg |
| `FireflyService.MapOutputsSpec` | services/providers/FireflyService.js:41-45 | the mapping keeps length and order and copies url, seed and id; it throws iff an output is nullish |
| `FireflyService.Classify` | services/providers/FireflyService.js:38-50 | missing `outputs` gives "Invalid response format from Firefly API"; array outputs are mapped |
| `FireflyService.CatchValue` | services/providers/FireflyService.js:52-59 | the error is the server's `error.message` when truthy, else the error's own message |
| `FireflyService.GenerateImage` | services/providers/FireflyService.js:15-60 | the provider is always 'firefly'; when images come back is stated by `FireflyService.GeneratedIff` |
| `FireflyService.GeneratedIff` | services/providers/FireflyService.js:15-60 | images come back iff the body was built, the reply was 2xx and the outputs mapped; otherwise the returned error is the caught value of the request error, or of the reply's classification error |
| `FireflyService.MissingOutputsFails` | services/providers/FireflyService.js:38-57 | a 2xx reply without truthy `outputs` returns `{success: false, error: 'Invalid response format from Firefly API'}` |
| `FireflyService.ImagesFollowOutputs` | services/providers/FireflyService.js:38-47 | a success has one image per output, in order, each with that output's url, seed and id |
| `FireflyService.NullOptionsCaught` | services/providers/FireflyService.js:15-59 | a null options object yields a returned TypeError, not a throw |
| `MidjourneyService.RequestFor` | services/MidjourneyService.js:11-14 | the body is `{prompt, version: 'v4'}` |
| `MidjourneyService.GenerateImage` | services/MidjourneyService.js:9-38 | it succeeds iff the 2xx body has a truthy `imageUrl`; otherwise "Invalid response from Midjourney API" or the request error; the provider is always 'midjourney' and it never throws |
| `DeepAIService.GenerateImage` | services/DeepAIService.js:9-37 | it succeeds iff the 2xx body has a truthy `output_url`; otherwise "Invalid response from DeepAI API" or the request error; the provider is always 'deepai' and it never throws |
| `DeepAIService.MissingOutputUrlFails` | services/DeepAIService.js:20-28 | a 2xx reply without `output_url` is a failure value |
| `ClaudeService.New` | services/providers/ClaudeService.js:4-12 | the client exists iff CLAUDE_API_KEY is set |
| `ClaudeService.GenerateImage` | services/providers/ClaudeService.js:18-26 | it always throws: "Claude is not configured", or else "Image generation not yet supported by Claude" |
| `LlamaService.New` | services/providers/LlamaService.js:2-6 | the client is always null |
| `LlamaService.GenerateImage` | services/providers/LlamaService.js:12-19 | it always throws, by configuration state |
| `LlamaService.NeverConfigured` | services/providers/LlamaService.js:5-15 | as constructed it is never configured and always throws "Llama is not configured"; the other throw is unreachable |

## Left out

- HTTP transport: axios and OpenAI SDK calls, base URLs, header construction (the Portkey header spread, API-key headers), `URLSearchParams` in the Portkey DeepAI branch (its body is modelled as the raw `text` field). Each network call is a function supplied by the caller that returns the reply.
- Process start-up and Express wiring: dotenv loading, `app.listen`, static files, JSON body parsing, the standalone `app.js` server and the two test scripts.
- Logging, including the `substring(0, 30)` truncations. Of the logging calls that can throw, `imageUrl.substring` on a non-string URL is modelled (`PortkeyResponses.LoggedUrl`). `prompt.substring` (services/PortkeyGateway.js:157, 183, 197, 230) cannot throw in the model, because the prompt is always a string there (next lines).
- Time: the 10 s sleeps of the Midjourney poll and of the HuggingFace retries are counted, not timed. The `timestamp` fields (`new Date()`) of the AI gateway's results and of the route's metadata are omitted.
- Concurrency in the AI gateway: the interleavings of the concurrent calls are not modelled. The order in which they complete is an input (a permutation of the positions), and calls made in parallel with each other see independent network functions.
- `PortkeyRequests.JsNumber`: `Number` is modelled only for trimmed decimal digits and the empty string. Fractions, exponents, hexadecimal and `Infinity` read as NaN here.
- `JsCore.NumberToString`: a non-integer number prints at most 20 fractional digits, not the shortest round-trip form of section 6.1.6.1.20 of ECMA-262. The gateways only print integers and NaN.
- Numbers are exact rationals, not IEEE doubles. The DALL-E ratio is compared by cross-multiplication, proved equal to exact division (`PortkeyRequests.DalleSizeByRatio`).
- Error objects keep only `message`, `code` and `response`, not stacks or other fields.
- FireflyService.GenerateImage: its own contract fixes only the provider name. What it returns is stated by the lemmas about it: `FireflyService.GeneratedIff` (when images come back, and the error value for a request failure and for an unusable reply), `FireflyService.ImagesFollowOutputs`, `FireflyService.MissingOutputsFails` and `FireflyService.NullOptionsCaught`.
- The Portkey gateway's registry is never changed after construction, so it is a value (`PortkeyGateway.Gateway`), not a class.
- The request validation in `app.js` (prompt must be a nonempty string) belongs to the standalone server, which is not modelled.
- Server.ReadRequest: the request's `prompt` is modelled only as a string (`Server.Body.prompt`). The route itself checks nothing (server.js:56): a missing or non-string prompt is concatenated as JavaScript would (`undefined, highly detailed, ...`) or passed on unchanged. Such prompts are outside the model. The request's `provider` is likewise modelled only as a string (`Server.Body.provider`). A missing, null, false or 0 provider behaves as `""` does. Other non-string providers are outside the model. For example, an array `["openai"]` is coerced to `"openai"` when it indexes `avatarSettings` (server.js:111), but fails the strict `includes` of the Portkey gateway (services/PortkeyGateway.js:94-96).
- Server.HandleGenerate: its equality with `Server.Handle` covers string prompts only. For a non-string prompt that reaches `tryProvider`, the TypeError of `prompt.substring` (services/PortkeyGateway.js:157, 183, 197, 230), raised before the request and outside the rewrapping `try`, is not modelled. The same holds for a non-string `provider` (see `Server.ReadRequest` above): the route's steps equal `Server.Handle` only for string providers.
- PortkeyGateway.TryProvider: the prompt is a string, so the `prompt.substring` TypeError above is outside its contract. Dafny strings hold Unicode scalar values, so a prompt with a lone UTF-16 surrogate cannot be written either. For such a prompt `encodeURIComponent` throws a URIError, which the DeepAI adapter (services/providers/DeepAIService.js:43-57) catches and returns. That path is not modelled.
