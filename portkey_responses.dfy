/**
 * Response handling in the Portkey gateway (services/PortkeyGateway.js): how each
 * provider's reply becomes an image URL or an error, the Midjourney status poll
 * (at most 30 polls, 10 s apart) and the rewrapping of every error raised while
 * a request is in flight.
 */
module PortkeyResponses {
  import opened JsText
  import opened JsCore
  import opened Http

  /** What the first reply yields: an image URL, or (Midjourney) a message id to poll. */
  datatype Extracted = ImageUrl(url: JsVal) | MessageId(id: JsVal)

  /** `imageUrl.substring(...)` in the log line after a URL is read: only a string has it. */
  function LoggedUrl(url: JsVal): (r: Outcome<JsVal>)
    ensures r.Ok? <==> url.Str?
    ensures r.Ok? ==> r.value == url
    ensures r.Throw? ==> r.exn == NotAFunction("imageUrl.substring")
  {
    if url.Str? then Ok(url) else Throw(NotAFunction("imageUrl.substring"))
  }

  function HuggingFaceImage(data: JsVal): (r: Outcome<JsVal>)
    ensures Truthy(OptGet(data, "error")) ==> r == Throw(Error("HuggingFace error: " + ToStr(OptGet(data, "error"))))
    ensures r.Ok? <==> !Truthy(OptGet(data, "error")) && data.Arr? && |data.items| > 0 && data.items[0].Str?
                       && (StartsWith(data.items[0].s, "http") || StartsWith(data.items[0].s, "data:image"))
    ensures r.Ok? ==> r.value == data.items[0] && Truthy(r.value)
  {
    var err := OptGet(data, "error");
    if Truthy(err) then Throw(Error("HuggingFace error: " + ToStr(err)))
    else if !Truthy(data) || !data.Arr? || |data.items| == 0 then Throw(Error("HuggingFace response missing image data"))
    else
      var imageData := data.items[0];
      if imageData.Str? && (StartsWith(imageData.s, "http") || StartsWith(imageData.s, "data:image")) then Ok(imageData)
      else Throw(Error("Invalid image format in HuggingFace response"))
  }

  /** `response.data.error.message || response.data.error`, for a truthy `error`. */
  function ErrorText(err: JsVal): string
    requires Truthy(err)
  {
    ToStr(Or(OwnProperty(err, "message"), err))
  }

  function OpenAIImage(data: JsVal): (r: Outcome<JsVal>)
    ensures Truthy(OptGet(data, "error")) ==> r == Throw(Error("OpenAI error: " + ErrorText(OptGet(data, "error"))))
    ensures var url := OptGet(OptAt(OptGet(data, "data"), 0), "url");
      r.Ok? <==> !Truthy(OptGet(data, "error")) && Truthy(url) && url.Str?
    ensures r.Ok? ==> r.value == OptGet(OptAt(OptGet(data, "data"), 0), "url")
  {
    var err := OptGet(data, "error");
    if Truthy(err) then Throw(Error("OpenAI error: " + ErrorText(err)))
    else
      var url := OptGet(OptAt(OptGet(data, "data"), 0), "url");
      if !Truthy(url) then Throw(Error("OpenAI response missing image URL")) else LoggedUrl(url)
  }

  function DeepAIImage(data: JsVal): (r: Outcome<JsVal>)
    ensures Truthy(OptGet(data, "error")) ==> r == Throw(Error("DeepAI error: " + ToStr(OptGet(data, "error"))))
    ensures r.Ok? <==> !Truthy(OptGet(data, "error")) && Truthy(OptGet(data, "output_url")) && OptGet(data, "output_url").Str?
    ensures r.Ok? ==> r.value == OptGet(data, "output_url")
  {
    var err := OptGet(data, "error");
    if Truthy(err) then Throw(Error("DeepAI error: " + ToStr(err)))
    else
      var url := OptGet(data, "output_url");
      if !Truthy(url) then Throw(Error("DeepAI response missing output URL")) else LoggedUrl(url)
  }

  /** `response.data.artifacts[0].base64`: any value, or the TypeError of a read on null or undefined. */
  function StabilityImage(data: JsVal): (r: Outcome<JsVal>)
    ensures r.Ok? <==> !IsNullish(data) && !IsNullish(OptGet(data, "artifacts")) && !IsNullish(OptAt(OptGet(data, "artifacts"), 0))
    ensures r.Ok? ==> r.value == OptGet(OptAt(OptGet(data, "artifacts"), 0), "base64")
  {
    match Get(data, "artifacts")
    case Throw(e) => Throw(e)
    case Ok(artifacts) =>
      match At(artifacts, 0)
      case Throw(e) => Throw(e)
      case Ok(first) => Get(first, "base64")
  }

  /** `response.data.data[0].url`. */
  function FireflyImage(data: JsVal): (r: Outcome<JsVal>)
    ensures r.Ok? <==> !IsNullish(data) && !IsNullish(OptGet(data, "data")) && !IsNullish(OptAt(OptGet(data, "data"), 0))
    ensures r.Ok? ==> r.value == OptGet(OptAt(OptGet(data, "data"), 0), "url")
  {
    match Get(data, "data")
    case Throw(e) => Throw(e)
    case Ok(inner) =>
      match At(inner, 0)
      case Throw(e) => Throw(e)
      case Ok(first) => Get(first, "url")
  }

  function MidjourneyMessage(data: JsVal): (r: Outcome<JsVal>)
    ensures Truthy(OptGet(data, "error")) ==> r == Throw(Error("Midjourney error: " + ErrorText(OptGet(data, "error"))))
    ensures r.Ok? <==> !Truthy(OptGet(data, "error")) && Truthy(OptGet(data, "messageId"))
    ensures r.Ok? ==> r.value == OptGet(data, "messageId")
  {
    var err := OptGet(data, "error");
    if Truthy(err) then Throw(Error("Midjourney error: " + ErrorText(err)))
    else if !Truthy(OptGet(data, "messageId")) then Throw(Error("Midjourney response missing messageId"))
    else Ok(OptGet(data, "messageId"))
  }

  /** The provider-specific reading of a successful reply. */
  function Extract(name: string, data: JsVal): (r: Outcome<Extracted>)
    ensures name == "midjourney" ==> r.Ok? ==> r.value.MessageId?
    ensures name != "midjourney" ==> r.Ok? ==> r.value.ImageUrl?
    ensures name !in ["huggingface", "openai", "deepai", "stability", "firefly", "midjourney"] ==> r == Ok(ImageUrl(Undefined))
  {
    if name == "huggingface" then Lift(HuggingFaceImage(data))
    else if name == "openai" then Lift(OpenAIImage(data))
    else if name == "deepai" then Lift(DeepAIImage(data))
    else if name == "stability" then Lift(StabilityImage(data))
    else if name == "firefly" then Lift(FireflyImage(data))
    else if name == "midjourney" then
      match MidjourneyMessage(data)
      case Throw(e) => Throw(e)
      case Ok(id) => Ok(MessageId(id))
    else Ok(ImageUrl(Undefined))
  }

  function Lift(r: Outcome<JsVal>): (x: Outcome<Extracted>)
    ensures r.Ok? <==> x.Ok?
    ensures r.Ok? ==> x.value == ImageUrl(r.value)
    ensures r.Throw? ==> x.exn == r.exn
  {
    match r
    case Throw(e) => Throw(e)
    case Ok(v) => Ok(ImageUrl(v))
  }

  // ---------------------------------------------------------------- Midjourney poll

  const MaxPolls: nat := 30
  const PollIntervalMs: nat := 10000

  /** The status URL polled for a message id. */
  function StatusUrl(messageId: JsVal): string
  {
    "/api/v1/midjourney/message/" + ToStr(messageId)
  }

  /** The network's reply to poll number `k` (0-based) of a status URL. */
  type Poller = (string, nat) -> Reply

  /** What one poll comes to. */
  datatype PollStep = Done(imageUrl: JsVal) | Pending | Failed(exn: Exn)

  /** The message V8 gives for destructuring `pollResponse.data` when it is null or undefined. */
  function DestructureError(data: JsVal): Exn
    requires IsNullish(data)
  {
    Error("Cannot destructure property 'progress' of 'pollResponse.data' as it is " + NullishName(data) + ".")
  }

  /** One poll: completed with a URL, failed, or (progress below 100, or 100 without a URL) pending. */
  function Step(reply: Reply): PollStep
  {
    match Settle(reply, Only2xx)
    case Throw(e) => Failed(e)
    case Ok(response) =>
      if IsNullish(response.data) then Failed(DestructureError(response.data))
      else
        var progress := OwnProperty(response.data, "progress");
        var imageUrls := OwnProperty(response.data, "imageUrls");
        if progress == Num(100.0) && Truthy(OptAt(imageUrls, 0)) then Done(OptAt(imageUrls, 0))
        else if progress == Num(-1.0) then Failed(Error("Midjourney image generation failed"))
        else Pending
  }

  /**
   * A poll completes exactly on a 2xx reply with progress 100 and a truthy first URL,
   * which it carries; progress -1 fails it; it stays pending only on a 2xx reply
   * whose progress is not -1.
   */
  lemma StepSpec(reply: Reply)
    ensures var s := Step(reply);
      && (s.Done? <==> reply.Response? && 200 <= reply.status < 300 && !IsNullish(reply.data)
                       && OptGet(reply.data, "progress") == Num(100.0)
                       && Truthy(OptAt(OptGet(reply.data, "imageUrls"), 0)))
      && (s.Done? ==> s.imageUrl == OptAt(OptGet(reply.data, "imageUrls"), 0) && Truthy(s.imageUrl))
      && ((reply.Response? && 200 <= reply.status < 300 && !IsNullish(reply.data)
           && OptGet(reply.data, "progress") == Num(-1.0)) ==> s == Failed(Error("Midjourney image generation failed")))
      && (s.Pending? ==> reply.Response? && 200 <= reply.status < 300 && !IsNullish(reply.data)
                         && OptGet(reply.data, "progress") != Num(-1.0))
  {
    match Settle(reply, Only2xx)
    case Throw(e) =>
      assert Step(reply) == Failed(e);
    case Ok(response) =>
      assert response.data == reply.data && 200 <= reply.status < 300;
      if !IsNullish(reply.data) {
        assert OptGet(reply.data, "progress") == OwnProperty(response.data, "progress");
        assert OptGet(reply.data, "imageUrls") == OwnProperty(response.data, "imageUrls");
      }
  }

  /** What polls 0 to 29 would come to, whether or not they are made. */
  function Steps(url: string, poll: Poller): (s: seq<PollStep>)
    ensures |s| == MaxPolls
    ensures forall k :: 0 <= k < MaxPolls ==> s[k] == Step(poll(url, k))
  {
    seq(MaxPolls, k requires 0 <= k < MaxPolls => Step(poll(url, k)))
  }

  /** The first poll that did not come back pending, or the length when all did. */
  function FirstSettled(steps: seq<PollStep>): (k: nat)
    ensures k <= |steps|
    ensures k < |steps| ==> !steps[k].Pending?
    ensures forall i :: 0 <= i < k ==> steps[i].Pending?
  {
    if |steps| == 0 then 0 else if !steps[0].Pending? then 0 else 1 + FirstSettled(steps[1..])
  }

  /** How the loop ends. */
  datatype PollOutcome = Completed(imageUrl: JsVal) | TimedOut | PollFailed(exn: Exn)

  /** The outcome the poll loop is specified by: the first poll that settles decides it. */
  function PollResult(steps: seq<PollStep>): (o: PollOutcome)
    ensures var k := FirstSettled(steps);
      && (k < |steps| && steps[k].Done? ==> o == Completed(steps[k].imageUrl))
      && (k < |steps| && steps[k].Failed? ==> o == PollFailed(steps[k].exn))
      && (k == |steps| ==> o == TimedOut)
  {
    var k := FirstSettled(steps);
    if k == |steps| then TimedOut
    else if steps[k].Done? then Completed(steps[k].imageUrl)
    else PollFailed(steps[k].exn)
  }

  /**
   * The `while (attempts < maxAttempts)` loop. `polls` counts the status
   * requests made and `waits` the 10 s waits between them.
   */
  method PollMidjourney(url: string, poll: Poller) returns (outcome: PollOutcome, polls: nat, waits: nat)
    ensures var steps := Steps(url, poll);
      var k := FirstSettled(steps);
      && outcome == PollResult(steps)
      && polls == (if k < MaxPolls then k + 1 else MaxPolls)
      && waits == k
    ensures polls <= MaxPolls
  {
    ghost var steps := Steps(url, poll);
    var attempts: nat := 0;
    polls := 0;
    while attempts < MaxPolls
      invariant attempts <= MaxPolls
      invariant polls == attempts
      invariant forall i :: 0 <= i < attempts ==> steps[i].Pending?
      decreases MaxPolls - attempts
    {
      var pollResponse := Settle(poll(url, attempts), Only2xx);
      polls := polls + 1;
      if pollResponse.Throw? {
        return PollFailed(pollResponse.exn), polls, attempts;
      }
      var data := pollResponse.value.data;
      if IsNullish(data) {
        return PollFailed(DestructureError(data)), polls, attempts;
      }
      var progress := OwnProperty(data, "progress");
      var imageUrls := OwnProperty(data, "imageUrls");
      if progress == Num(100.0) && Truthy(OptAt(imageUrls, 0)) {
        outcome := Completed(OptAt(imageUrls, 0));
        waits := attempts;
        return;
      }
      if progress == Num(-1.0) {
        return PollFailed(Error("Midjourney image generation failed")), polls, attempts;
      }
      attempts := attempts + 1;
    }
    outcome, waits := TimedOut, attempts;
  }

  /** The poll never issues more than 30 requests, and it completes only with a truthy URL. */
  lemma PollBounds(steps: seq<PollStep>)
    requires |steps| == MaxPolls
    requires forall k :: 0 <= k < |steps| ==> steps[k].Done? ==> Truthy(steps[k].imageUrl)
    ensures PollResult(steps).Completed? ==> Truthy(PollResult(steps).imageUrl)
    ensures PollResult(steps).TimedOut? <==> forall k :: 0 <= k < MaxPolls ==> steps[k].Pending?
  {
  }

  /** A reply reporting progress 100 without a first URL counts as pending: the loop goes on. */
  lemma CompleteWithoutUrlKeepsPolling(fields: seq<(string, JsVal)>)
    requires Lookup(fields, "progress") == Num(100.0) && !Truthy(OptAt(Lookup(fields, "imageUrls"), 0))
    ensures Step(Response(200, Obj(fields))) == Pending
  {
    var reply := Response(200, Obj(fields));
    assert Settle(reply, Only2xx) == Ok(HttpResponse(200, Obj(fields)));
    assert OwnProperty(Obj(fields), "progress") == Num(100.0);
  }

  /** The outcome once the loop is left: the timeout error when no URL was found. */
  function AfterPoll(outcome: PollOutcome): (r: Outcome<JsVal>)
    ensures outcome.TimedOut? || (outcome.Completed? && !Truthy(outcome.imageUrl)) ==>
      r == Throw(Error("Timeout waiting for Midjourney image"))
    ensures outcome.PollFailed? ==> r == Throw(outcome.exn)
    ensures outcome.Completed? && Truthy(outcome.imageUrl) ==> r == LoggedUrl(outcome.imageUrl)
  {
    match outcome
    case TimedOut => Throw(Error("Timeout waiting for Midjourney image"))
    case PollFailed(e) => Throw(e)
    case Completed(u) => if !Truthy(u) then Throw(Error("Timeout waiting for Midjourney image")) else LoggedUrl(u)
  }

  // ---------------------------------------------------------------- error rewrapping

  /** `error.response?.data?.error?.message`. */
  function ServerMessage(e: Exn): JsVal
  {
    if e.response.Some? then OptGet(OptGet(e.response.value.data, "error"), "message") else Undefined
  }

  /** The `catch` around the request: `"<name> request failed: "` and the server's message, or the error's own. */
  function Rewrap(name: string, e: Exn): (r: Exn)
    ensures StartsWith(r.message, name + " request failed: ")
    ensures r.message[|name + " request failed: "|..]
         == if Truthy(ServerMessage(e)) then ToStr(ServerMessage(e)) else e.message
    ensures r.code.None? && r.response.None?
  {
    var detail := if Truthy(ServerMessage(e)) then ToStr(ServerMessage(e)) else e.message;
    var m := name + " request failed: " + detail;
    assert m[..|name + " request failed: "|] == name + " request failed: ";
    Error(m)
  }
}
