/**
 * The HuggingFace adapter of the AI gateway (services/providers/HuggingFaceService.js):
 * up to three attempts; a 503 ("model is loading") waits and retries, a thrown
 * attempt is remembered as the last error, a 200 becomes a base64 data URL.
 */
module HuggingFaceService {
  import opened JsText
  import opened JsCore
  import opened Http
  import opened Generation
  import Base64

  const MaxRetries: nat := 3
  const RetryDelayMs: nat := 10000

  /** The adapter; `apiKey` is `""` when none was passed to the constructor. */
  datatype HuggingFaceService = HuggingFaceService(apiKey: string)

  predicate IsConfigured(svc: HuggingFaceService) {
    svc.apiKey != ""
  }

  /** The JSON body posted on every attempt. */
  datatype Request = Request(inputs: JsVal, numInferenceSteps: nat, guidanceScale: real, width: nat, height: nat)

  function RequestFor(prompt: JsVal): (q: Request)
    ensures q.inputs == prompt && q.numInferenceSteps == 30 && q.guidanceScale == 7.5
    ensures q.width == 512 && q.height == 512
  {
    Request(prompt, 30, 7.5, 512, 512)
  }

  /** A reply to a request made with `responseType: 'arraybuffer'`: the body is raw octets. */
  datatype BinaryReply = BinaryResponse(status: int, body: seq<byte>) | BinaryNetworkError(message: string)

  /** The network's reply to attempt number `k` (1-based) of a request. */
  type Network = (nat, Request) -> BinaryReply

  function AsReply(b: BinaryReply): (r: Reply)
    ensures b.BinaryResponse? ==> r == Response(b.status, Binary(b.body))
    ensures b.BinaryNetworkError? ==> r == NetworkError(b.message, None)
  {
    match b
    case BinaryResponse(s, body) => Response(s, Binary(body))
    case BinaryNetworkError(m) => NetworkError(m, None)
  }

  /** What one attempt came to. */
  datatype Step = Loaded(body: seq<byte>) | Loading | Threw(exn: Exn)

  function AttemptStep(reply: BinaryReply): (s: Step)
    ensures s.Loaded? <==> reply.BinaryResponse? && reply.status == 200
    ensures s.Loaded? ==> s.body == reply.body
    ensures s.Loading? <==> reply.BinaryResponse? && reply.status == 503
    ensures s.Threw? ==> s.exn == Settle(AsReply(reply), Only200Or503).exn
  {
    match Settle(AsReply(reply), Only200Or503)
    case Throw(e) => Threw(e)
    case Ok(resp) => if resp.status == 503 then Loading else Loaded(reply.body)
  }

  /** What attempts 1, 2 and 3 would come to, whether or not they are made. */
  function Steps(prompt: JsVal, net: Network): (s: seq<Step>)
    ensures |s| == MaxRetries
    ensures forall i :: 0 <= i < MaxRetries ==> s[i] == AttemptStep(net(i + 1, RequestFor(prompt)))
  {
    var q := RequestFor(prompt);
    [AttemptStep(net(1, q)), AttemptStep(net(2, q)), AttemptStep(net(3, q))]
  }

  /** Index of the first attempt that loaded an image, or the length when none did. */
  function FirstLoaded(steps: seq<Step>): (k: nat)
    ensures k <= |steps|
    ensures k < |steps| ==> steps[k].Loaded?
    ensures forall i :: 0 <= i < k ==> !steps[i].Loaded?
  {
    if |steps| == 0 then 0 else if steps[0].Loaded? then 0 else 1 + FirstLoaded(steps[1..])
  }

  /** The error of the last attempt that threw, if any did. */
  function LastFailure(steps: seq<Step>): (e: Option<Exn>)
  {
    if |steps| == 0 then None
    else if steps[|steps| - 1].Threw? then Some(steps[|steps| - 1].exn)
    else LastFailure(steps[..|steps| - 1])
  }

  /** There is a last error exactly when some attempt threw, and it is the error of the last one that did. */
  lemma {:induction false} LastFailureSpec(steps: seq<Step>)
    ensures LastFailure(steps).None? <==> forall i :: 0 <= i < |steps| ==> !steps[i].Threw?
    ensures LastFailure(steps).Some? ==>
      exists i :: 0 <= i < |steps| && steps[i] == Threw(LastFailure(steps).value)
                  && forall j :: i < j < |steps| ==> !steps[j].Threw?
  {
    if |steps| > 0 && !steps[|steps| - 1].Threw? {
      var init := steps[..|steps| - 1];
      LastFailureSpec(init);
      assert forall i :: 0 <= i < |init| ==> init[i] == steps[i];
      if LastFailure(init).Some? {
        var i :| 0 <= i < |init| && init[i] == Threw(LastFailure(init).value)
                 && forall j :: i < j < |init| ==> !init[j].Threw?;
        assert steps[i] == Threw(LastFailure(steps).value);
      }
    }
  }

  /** Waits taken in the first `n` attempts: after each 503, and after a thrown attempt that is not the last. */
  function SleepsBefore(steps: seq<Step>, n: nat): nat
    requires n <= |steps|
  {
    if n == 0 then 0
    else SleepsBefore(steps, n - 1)
         + (if steps[n - 1].Loading? || (steps[n - 1].Threw? && n < MaxRetries) then 1 else 0)
  }

  /** What the loop throws once every attempt failed; `lastError.message` with no error is a TypeError. */
  function Exhausted(lastError: Option<Exn>): Exn
  {
    if lastError.None? then ReadError(Null, "message")
    else Error("HuggingFace failed after " + NatToString(MaxRetries) + " attempts: " + lastError.value.message)
  }

  function LoadedResult(body: seq<byte>): (r: ImageResult)
    ensures r.url == Str("data:image/jpeg;base64," + Base64.Encode(body))
    ensures r.model == "stable-diffusion-v1-4" && r.provider == "huggingface" && r.size == "512x512"
  {
    ImageResult(Str("data:image/jpeg;base64," + Base64.Encode(body)), "stable-diffusion-v1-4", "huggingface", "512x512")
  }

  /** What `generateImage(prompt)` resolves or rejects with: the first loaded image, else the error of exhaustion. */
  function GenerateResult(svc: HuggingFaceService, prompt: JsVal, net: Network): (r: Outcome<ImageResult>)
  {
    if !IsConfigured(svc) then Throw(Error("HuggingFace is not configured"))
    else
      var steps := Steps(prompt, net);
      var k := FirstLoaded(steps);
      if k < MaxRetries then Ok(LoadedResult(steps[k].body)) else Throw(Exhausted(LastFailure(steps)))
  }

  /**
   * `generateImage(prompt)`. `requests` counts the requests made and `sleeps`
   * the waits of `RetryDelayMs` between them.
   */
  method GenerateImage(svc: HuggingFaceService, prompt: JsVal, net: Network)
    returns (r: Outcome<ImageResult>, requests: nat, sleeps: nat)
    ensures r == GenerateResult(svc, prompt, net)
    ensures !IsConfigured(svc) ==> requests == 0 && sleeps == 0
    ensures IsConfigured(svc) ==>
      var steps := Steps(prompt, net);
      var k := FirstLoaded(steps);
      && requests == (if k < MaxRetries then k + 1 else MaxRetries)
      && sleeps == SleepsBefore(steps, requests)
  {
    if !IsConfigured(svc) {
      return Throw(Error("HuggingFace is not configured")), 0, 0;
    }
    ghost var steps := Steps(prompt, net);
    var lastError: Option<Exn> := None;
    requests, sleeps := 0, 0;
    var attempt: nat := 1;
    while attempt <= MaxRetries
      invariant 1 <= attempt <= MaxRetries + 1
      invariant requests == attempt - 1
      invariant forall i :: 0 <= i < attempt - 1 ==> !steps[i].Loaded?
      invariant lastError == LastFailure(steps[..attempt - 1])
      invariant sleeps == SleepsBefore(steps, attempt - 1)
      decreases MaxRetries + 1 - attempt
    {
      var response := Settle(AsReply(net(attempt, RequestFor(prompt))), Only200Or503);
      requests := requests + 1;
      assert steps[..attempt] == steps[..attempt - 1] + [steps[attempt - 1]];
      if response.Throw? {
        lastError := Some(response.exn);
        if attempt < MaxRetries {
          sleeps := sleeps + 1;
        }
      } else if response.value.status == 503 {
        sleeps := sleeps + 1;
      } else {
        var base64Image := Base64.Encode(response.value.data.bytes);
        r := Ok(ImageResult(Str("data:image/jpeg;base64," + base64Image), "stable-diffusion-v1-4", "huggingface", "512x512"));
        return;
      }
      attempt := attempt + 1;
    }
    assert steps[..MaxRetries] == steps;
    if lastError.None? {
      r := Throw(ReadError(Null, "message"));
    } else {
      r := Throw(Error("HuggingFace failed after " + NatToString(MaxRetries) + " attempts: " + lastError.value.message));
    }
  }

  /** A round of 503s only ends in the TypeError of reading `message` of null, not in the intended message. */
  lemma AllLoadingDereferencesNull(steps: seq<Step>)
    requires |steps| == MaxRetries && forall i :: 0 <= i < |steps| ==> steps[i].Loading?
    ensures FirstLoaded(steps) == MaxRetries
    ensures LastFailure(steps).None? && Exhausted(LastFailure(steps)) == ReadError(Null, "message")
  {
    LastFailureSpec(steps);
  }

  /**
   * A configured adapter resolves exactly when some attempt loaded an image;
   * when it rejects after an attempt threw, the message names the three
   * attempts and the error of the last attempt that threw.
   */
  lemma GenerateResultSpec(svc: HuggingFaceService, prompt: JsVal, net: Network)
    requires IsConfigured(svc)
    ensures var steps := Steps(prompt, net);
      var r := GenerateResult(svc, prompt, net);
      && (r.Ok? <==> exists i :: 0 <= i < MaxRetries && steps[i].Loaded?)
      && (r.Throw? && (exists i :: 0 <= i < MaxRetries && steps[i].Threw?) ==>
            exists i :: 0 <= i < MaxRetries && steps[i].Threw?
                        && r.exn == Error("HuggingFace failed after 3 attempts: " + steps[i].exn.message)
                        && forall j :: i < j < MaxRetries ==> !steps[j].Threw?)
  {
    var steps := Steps(prompt, net);
    var r := GenerateResult(svc, prompt, net);
    LastFailureSpec(steps);
    if r.Throw? && exists i :: 0 <= i < MaxRetries && steps[i].Threw? {
      var i :| 0 <= i < |steps| && steps[i] == Threw(LastFailure(steps).value)
               && forall j :: i < j < |steps| ==> !steps[j].Threw?;
      assert NatToString(MaxRetries) == "3";
      assert r.exn == Exhausted(LastFailure(steps));
      assert r.exn == Error("HuggingFace failed after 3 attempts: " + steps[i].exn.message);
    }
  }
}
