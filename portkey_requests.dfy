/**
 * Request shaping in the Portkey gateway (services/PortkeyGateway.js): reading
 * `size` and `quality` from the image options, parsing `"WxH"`, and building
 * each provider's request body, including the DALL-E size binning.
 */
module PortkeyRequests {
  import opened JsText
  import opened JsCore

  /**
   * `Number(s)` on the pieces of a size string: white space around the text is
   * ignored, nothing reads as 0 and decimal digits read as their value. Any other
   * text (fractions, exponents, hexadecimal, `Infinity`) reads as NaN here.
   */
  function JsNumber(s: string): (v: JsVal)
    ensures v.Num? || v.NaN?
    ensures v.Num? ==> v.n >= 0.0 && v.n == v.n.Floor as real
  {
    var t := Trim(s);
    if t == "" then Num(0.0)
    else if AllDigits(t) then Num(DigitsValue(t) as real)
    else NaN
  }

  /** `const { size = '1024x1024', quality } = imageOptions`, with `imageOptions` defaulting to `{}`. */
  function ReadOptions(imageOptions: JsVal): (r: Outcome<(JsVal, JsVal)>)
    ensures r.Throw? <==> imageOptions.Null?
    ensures imageOptions.Undefined? ==> r == Ok((Str("1024x1024"), Undefined))
    ensures r.Ok? && !imageOptions.Undefined? ==>
      && r.value.0 == (if OptGet(imageOptions, "size").Undefined? then Str("1024x1024") else OptGet(imageOptions, "size"))
      && r.value.1 == OptGet(imageOptions, "quality")
  {
    if imageOptions.Null? then
      Throw(Error("Cannot destructure property 'size' of 'imageOptions' as it is null."))
    else
      var o := if imageOptions.Undefined? then Obj([]) else imageOptions;
      var size := OwnProperty(o, "size");
      Ok((if size.Undefined? then Str("1024x1024") else size, OwnProperty(o, "quality")))
  }

  /** `const [width, height] = size.split('x').map(Number)`. */
  function ParseSize(size: JsVal): (r: Outcome<(JsVal, JsVal)>)
    ensures r.Ok? <==> size.Str?
    ensures size.Str? ==> r.value.0 == JsNumber(Split(size.s, 'x')[0])
    ensures size.Str? ==> r.value.1 == (if |Split(size.s, 'x')| >= 2 then JsNumber(Split(size.s, 'x')[1]) else Undefined)
    ensures IsNullish(size) ==> r == Throw(ReadError(size, "split"))
    ensures !size.Str? && !IsNullish(size) ==> r == Throw(NotAFunction("size.split"))
  {
    match size
    case Str(s) =>
      var parts := Split(s, 'x');
      Ok((JsNumber(parts[0]), if |parts| >= 2 then JsNumber(parts[1]) else Undefined))
    case Undefined => Throw(ReadError(Undefined, "split"))
    case Null => Throw(ReadError(Null, "split"))
    case _ => Throw(NotAFunction("size.split"))
  }

  lemma DigitsTrimToThemselves(s: string)
    requires |s| > 0 && AllDigits(s)
    ensures Trim(s) == s
  {
    assert !IsJsWhiteSpace(s[0]);
    assert TrimStart(s) == s;
    assert !IsJsWhiteSpace(s[|s| - 1]);
  }

  /** A size written as two decimal numbers parses back to those numbers. */
  lemma ParseCanonicalSize(w: nat, h: nat)
    ensures ParseSize(Str(NatToString(w) + "x" + NatToString(h))) == Ok((Num(w as real), Num(h as real)))
  {
    var ws, hs := NatToString(w), NatToString(h);
    SplitSize(ws, hs);
    DigitsTrimToThemselves(ws);
    DigitsTrimToThemselves(hs);
    DigitsValueOfNatToString(w);
    DigitsValueOfNatToString(h);
  }

  /** The size the request defaults to is 1024 by 1024. */
  lemma DefaultSizeIsSquare()
    ensures ParseSize(Str("1024x1024")) == Ok((Num(1024.0), Num(1024.0)))
  {
    assert NatToString(1) == "1";
    assert NatToString(10) == NatToString(1) + "0";
    assert NatToString(102) == NatToString(10) + "2";
    assert NatToString(1024) == NatToString(102) + "4";
    assert NatToString(1024) == "1024";
    assert "1024x1024" == NatToString(1024) + "x" + NatToString(1024);
    ParseCanonicalSize(1024, 1024);
  }

  const Landscape := "1792x1024"
  const Portrait := "1024x1792"
  const Square := "1024x1024"

  /**
   * The DALL-E 3 size for `width / height`: above 1.5 landscape, below 0.67
   * portrait, otherwise (NaN included) square. The quotient is compared by
   * cross-multiplication; a zero height gives an infinite quotient below.
   */
  function DalleSize(width: JsVal, height: JsVal): (size: string)
    ensures size == Landscape || size == Portrait || size == Square
    ensures !width.Num? || !height.Num? ==> size == Square
    ensures width.Num? && height.Num? && height.n == 0.0 ==>
      size == (if width.n > 0.0 then Landscape else if width.n < 0.0 then Portrait else Square)
  {
    if width.Num? && height.Num? then
      var w, h := width.n, height.n;
      if h > 0.0 then
        if 2.0 * w > 3.0 * h then Landscape else if 100.0 * w < 67.0 * h then Portrait else Square
      else if h < 0.0 then
        if 2.0 * w < 3.0 * h then Landscape else if 100.0 * w > 67.0 * h then Portrait else Square
      else
        if w > 0.0 then Landscape else if w < 0.0 then Portrait else Square
    else Square
  }

  lemma ProductSign(x: real, h: real)
    requires h != 0.0
    ensures x * h > 0.0 <==> (x > 0.0 && h > 0.0) || (x < 0.0 && h < 0.0)
    ensures x * h < 0.0 <==> (x > 0.0 && h < 0.0) || (x < 0.0 && h > 0.0)
  {
    if x > 0.0 && h > 0.0 { assert x * h > 0.0; }
    if x < 0.0 && h < 0.0 { assert (-x) * (-h) > 0.0; }
    if x > 0.0 && h < 0.0 { assert x * (-h) > 0.0; }
    if x < 0.0 && h > 0.0 { assert (-x) * h > 0.0; }
  }

  /** For a nonzero height the binning agrees with comparing the exact quotient with 1.5 and 0.67. */
  lemma DalleSizeByRatio(w: real, h: real)
    requires h != 0.0
    ensures DalleSize(Num(w), Num(h)) == if w / h > 1.5 then Landscape else if w / h < 0.67 then Portrait else Square
  {
    var q := w / h;
    assert w == q * h;
    var a, b := 2.0 * q - 3.0, 100.0 * q - 67.0;
    assert 2.0 * w - 3.0 * h == a * h;
    assert 100.0 * w - 67.0 * h == b * h;
    ProductSign(a, h);
    ProductSign(b, h);
    assert q > 1.5 <==> a > 0.0;
    assert q < 0.67 <==> b < 0.0;
    if h > 0.0 {
      assert 2.0 * w > 3.0 * h <==> a > 0.0;
      assert 100.0 * w < 67.0 * h <==> b < 0.0;
    } else {
      assert 2.0 * w < 3.0 * h <==> a > 0.0;
      assert 100.0 * w > 67.0 * h <==> b < 0.0;
    }
  }

  /** `num_inference_steps` / `steps`: 50 for `'hd'`, 30 otherwise. */
  function InferenceSteps(quality: JsVal): nat
  {
    if quality == Str("hd") then 50 else 30
  }

  /** Each provider's request body. */
  datatype Body =
    | HuggingFaceBody(inputs: string, width: JsVal, height: JsVal, numInferenceSteps: nat, guidanceScale: real)
    | OpenAIBody(model: string, prompt: string, n: nat, size: string, quality: string, responseFormat: string)
    | DeepAIForm(text: string)
    | StabilityBody(textPrompts: seq<string>, width: JsVal, height: JsVal, steps: nat, cfgScale: real)
    | FireflyBody(prompt: string, n: nat, width: JsVal, height: JsVal, quality: string)
    | MidjourneyBody(msg: string, ref: string, webhookOverride: string, ignorePrefilter: bool, dimensions: string)
    | NoBody

  /** The body `tryProvider` builds for `name`. */
  function BodyFor(name: string, model: string, prompt: string, width: JsVal, height: JsVal, quality: JsVal): (b: Body)
    ensures name == "huggingface" ==> b.HuggingFaceBody? && b.inputs == prompt && b.width == width && b.height == height
                                      && b.guidanceScale == 7.5
    ensures name == "stability" ==> b.StabilityBody? && b.textPrompts == [prompt] && b.width == width && b.height == height
                                    && b.cfgScale == 7.5
    ensures name == "huggingface" ==> b.numInferenceSteps == (if quality == Str("hd") then 50 else 30)
    ensures name == "stability" ==> b.steps == (if quality == Str("hd") then 50 else 30)
    ensures name == "openai" ==> b == OpenAIBody(model, prompt, 1, DalleSize(width, height),
                                                 if quality == Str("hd") then "hd" else "standard", "url")
    ensures name == "deepai" ==> b == DeepAIForm(prompt)
    ensures name == "firefly" ==> b == FireflyBody(prompt, 1, width, height, if quality == Str("hd") then "high" else "standard")
    ensures name == "midjourney" ==> b == MidjourneyBody(prompt, "", "", false, ToStr(width) + "x" + ToStr(height))
  {
    if name == "huggingface" then HuggingFaceBody(prompt, width, height, InferenceSteps(quality), 7.5)
    else if name == "openai" then
      OpenAIBody(model, prompt, 1, DalleSize(width, height), if quality == Str("hd") then "hd" else "standard", "url")
    else if name == "deepai" then DeepAIForm(prompt)
    else if name == "stability" then StabilityBody([prompt], width, height, InferenceSteps(quality), 7.5)
    else if name == "firefly" then FireflyBody(prompt, 1, width, height, if quality == Str("hd") then "high" else "standard")
    else if name == "midjourney" then MidjourneyBody(prompt, "", "", false, ToStr(width) + "x" + ToStr(height))
    else NoBody
  }

  /** The request sent through the Portkey client: endpoint, Portkey provider header, key header and body. */
  datatype Request = Request(url: string, provider: string, apiKey: string, body: Body)
}
