/**
 * The Adobe Firefly adapter (services/providers/FireflyService.js): a request
 * body whose fields fall back to defaults, and the mapping of the returned
 * `outputs` to images; every outcome is returned as a value.
 */
module FireflyService {
  import opened JsCore
  import opened Http

  /** The adapter; key and client id only go into request headers. */
  datatype FireflyService = FireflyService(apiKey: string, clientId: string)

  /** The request body `{prompt: {...}, output: {quality, format}}`. */
  datatype Request = Request(prompt: JsVal, n: JsVal, size: JsVal, contentClass: string,
                             styles: JsVal, negativePrompt: JsVal, quality: JsVal, format: JsVal)

  const DefaultSize := Obj([("width", Num(1024.0)), ("height", Num(1024.0))])

  /** The body for `prompt` and `options`; a null `options` makes its first property read throw. */
  function RequestFor(prompt: JsVal, options: JsVal): (r: Outcome<Request>)
    ensures r.Throw? <==> options.Null?
    ensures r.Throw? ==> r.exn == ReadError(Null, "n")
    ensures r.Ok? ==> var o := if options.Undefined? then Obj([]) else options;
      && r.value.prompt == prompt && r.value.contentClass == "photo"
      && r.value.n == Or(OptGet(o, "n"), Num(1.0))
      && r.value.size == Or(OptGet(o, "size"), DefaultSize)
      && r.value.styles == Or(OptGet(o, "styles"), Arr([]))
      && r.value.negativePrompt == Or(OptGet(o, "negativePrompt"), Str(""))
      && r.value.quality == Or(OptGet(o, "quality"), Str("standard"))
      && r.value.format == Or(OptGet(o, "format"), Str("jpg"))
  {
    var o := if options.Undefined? then Obj([]) else options;
    match Get(o, "n")
    case Throw(e) => Throw(e)
    case Ok(n) =>
      Ok(Request(prompt, Or(n, Num(1.0)), Or(OwnProperty(o, "size"), DefaultSize), "photo",
                 Or(OwnProperty(o, "styles"), Arr([])), Or(OwnProperty(o, "negativePrompt"), Str("")),
                 Or(OwnProperty(o, "quality"), Str("standard")), Or(OwnProperty(o, "format"), Str("jpg"))))
  }

  /** When no options are passed every field takes its default. */
  lemma DefaultRequest(prompt: JsVal)
    ensures RequestFor(prompt, Undefined)
         == Ok(Request(prompt, Num(1.0), DefaultSize, "photo", Arr([]), Str(""), Str("standard"), Str("jpg")))
  {
  }

  /** One entry of `images`. */
  datatype Image = Image(url: JsVal, seed: JsVal, id: JsVal)

  /** What the adapter returns. */
  datatype Result =
    | Generated(images: seq<Image>, provider: string)
    | NotGenerated(error: JsVal, provider: string)

  predicate AllObjects(outputs: seq<JsVal>) {
    forall i :: 0 <= i < |outputs| ==> !IsNullish(outputs[i])
  }

  /** `outputs.map(output => ({url, seed, id}))` over an array. */
  function MapOutputs(outputs: seq<JsVal>): (r: Outcome<seq<Image>>)
    ensures r.Ok? ==> |r.value| == |outputs|
  {
    if |outputs| == 0 then Ok([])
    else
      match Get(outputs[0], "url")
      case Throw(e) => Throw(e)
      case Ok(url) =>
        var head := Image(url, OwnProperty(outputs[0], "seed"), OwnProperty(outputs[0], "id"));
        match MapOutputs(outputs[1..])
        case Throw(e) => Throw(e)
        case Ok(rest) => Ok([head] + rest)
  }

  /**
   * The mapping succeeds exactly when no output is null or undefined; it then copies
   * each output's fields in order, and otherwise throws the TypeError of a nullish one.
   */
  lemma {:induction false} MapOutputsSpec(outputs: seq<JsVal>)
    ensures MapOutputs(outputs).Ok? <==> AllObjects(outputs)
    ensures MapOutputs(outputs).Ok? ==> forall i :: 0 <= i < |outputs| ==>
      MapOutputs(outputs).value[i] == Image(OptGet(outputs[i], "url"), OptGet(outputs[i], "seed"), OptGet(outputs[i], "id"))
    ensures MapOutputs(outputs).Throw? ==>
      exists i :: 0 <= i < |outputs| && IsNullish(outputs[i]) && MapOutputs(outputs).exn == ReadError(outputs[i], "url")
    decreases |outputs|
  {
    if |outputs| > 0 && !IsNullish(outputs[0]) {
      var tail := outputs[1..];
      MapOutputsSpec(tail);
      assert forall i :: 1 <= i < |outputs| ==> outputs[i] == tail[i - 1];
      match MapOutputs(tail)
      case Throw(e) =>
        var i :| 0 <= i < |tail| && IsNullish(tail[i]) && e == ReadError(tail[i], "url");
        assert outputs[i + 1] == tail[i];
      case Ok(rest) =>
    }
  }

  /** The classification of a settled response: truthy `outputs` are mapped, anything else is invalid. */
  function Classify(data: JsVal): (r: Outcome<seq<Image>>)
    ensures !Truthy(data) || !Truthy(OptGet(data, "outputs")) ==> r == Throw(Error("Invalid response format from Firefly API"))
    ensures Truthy(data) && OptGet(data, "outputs").Arr? ==> r == MapOutputs(OptGet(data, "outputs").items)
    ensures Truthy(data) && Truthy(OptGet(data, "outputs")) && !OptGet(data, "outputs").Arr? ==>
      r == Throw(NotAFunction("response.data.outputs.map"))
  {
    if Truthy(data) && Truthy(OwnProperty(data, "outputs")) then
      match OwnProperty(data, "outputs")
      case Arr(items) => MapOutputs(items)
      case _ => Throw(NotAFunction("response.data.outputs.map"))
    else Throw(Error("Invalid response format from Firefly API"))
  }

  /** The `catch` block: the server's `error.message` when there is a truthy one, else the error's own message. */
  function CatchValue(e: Exn): (v: JsVal)
    ensures e.response.None? ==> v == Str(e.message)
    ensures e.response.Some? ==> v == Or(OptGet(OptGet(e.response.value.data, "error"), "message"), Str(e.message))
  {
    var data := if e.response.Some? then e.response.value.data else Undefined;
    Or(OptGet(OptGet(data, "error"), "message"), Str(e.message))
  }

  type Network = Request -> Reply

  /** `generateImage(prompt, options)`. */
  function GenerateImage(svc: FireflyService, prompt: JsVal, options: JsVal, net: Network): (r: Result)
    ensures r.provider == "firefly"
  {
    match RequestFor(prompt, options)
    case Throw(e) => NotGenerated(CatchValue(e), "firefly")
    case Ok(body) =>
      match Settle(net(body), Only2xx)
      case Throw(e) => NotGenerated(CatchValue(e), "firefly")
      case Ok(response) =>
        match Classify(response.data)
        case Throw(e) => NotGenerated(CatchValue(e), "firefly")
        case Ok(images) => Generated(images, "firefly")
  }

  /** A null `options` fails on its first property read, and the TypeError is returned rather than thrown. */
  lemma NullOptionsCaught(svc: FireflyService, prompt: JsVal, net: Network)
    ensures GenerateImage(svc, prompt, Null, net) == NotGenerated(Str("Cannot read properties of null (reading 'n')"), "firefly")
  {
    var e := ReadError(Null, "n");
    assert e.message == "Cannot read properties of null (reading 'n')";
    assert RequestFor(prompt, Null) == Throw(e);
  }

  /**
   * Images come back exactly when the body could be built, the server answered 2xx and
   * its `outputs` could be mapped; every failure is caught and returned.
   */
  lemma GeneratedIff(svc: FireflyService, prompt: JsVal, options: JsVal, net: Network)
    ensures var r := GenerateImage(svc, prompt, options, net);
      && (r.Generated? <==>
            && RequestFor(prompt, options).Ok?
            && Settle(net(RequestFor(prompt, options).value), Only2xx).Ok?
            && Classify(Settle(net(RequestFor(prompt, options).value), Only2xx).value.data).Ok?)
      && (r.Generated? ==> r.images == Classify(Settle(net(RequestFor(prompt, options).value), Only2xx).value.data).value)
      && (r.NotGenerated? && RequestFor(prompt, options).Ok? && Settle(net(RequestFor(prompt, options).value), Only2xx).Throw? ==>
            r.error == CatchValue(Settle(net(RequestFor(prompt, options).value), Only2xx).exn))
      && (r.NotGenerated? && RequestFor(prompt, options).Ok? && Settle(net(RequestFor(prompt, options).value), Only2xx).Ok? ==>
            r.error == CatchValue(Classify(Settle(net(RequestFor(prompt, options).value), Only2xx).value.data).exn))
  {
  }

  /** A 2xx reply without truthy `outputs` is returned as the invalid-format failure. */
  lemma MissingOutputsFails(svc: FireflyService, prompt: JsVal, options: JsVal, net: Network)
    requires RequestFor(prompt, options).Ok?
    requires var reply := net(RequestFor(prompt, options).value); reply.Response? && 200 <= reply.status < 300
    requires !Truthy(OptGet(net(RequestFor(prompt, options).value).data, "outputs"))
    ensures GenerateImage(svc, prompt, options, net) == NotGenerated(Str("Invalid response format from Firefly API"), "firefly")
  {
  }

  /** A successful call returns one image per output, in the same order, each copying its output's fields. */
  lemma ImagesFollowOutputs(svc: FireflyService, prompt: JsVal, options: JsVal, net: Network)
    requires GenerateImage(svc, prompt, options, net).Generated?
    ensures var data := net(RequestFor(prompt, options).value).data;
      var outputs := OptGet(data, "outputs");
      var images := GenerateImage(svc, prompt, options, net).images;
      outputs.Arr? && |images| == |outputs.items|
      && forall i :: 0 <= i < |images| ==>
           images[i] == Image(OptGet(outputs.items[i], "url"), OptGet(outputs.items[i], "seed"), OptGet(outputs.items[i], "id"))
  {
    var body := RequestFor(prompt, options).value;
    var data := Settle(net(body), Only2xx).value.data;
    assert data == net(body).data;
    MapOutputsSpec(OptGet(data, "outputs").items);
  }
}
