/** The result shapes the provider adapters return. */
module Generation {
  import opened JsCore

  /**
   * `{url, metadata: {model, provider, size}}`, returned by the OpenAI and
   * HuggingFace adapters behind the AI gateway.
   */
  datatype ImageResult = ImageResult(url: JsVal, model: string, provider: string, size: string)

  /** The result as the JavaScript object its callers read properties of. */
  function AsObject(r: ImageResult): (v: JsVal)
    ensures v.Obj? && Lookup(v.fields, "url") == r.url
    ensures Lookup(v.fields, "gateway") == Undefined
    ensures Lookup(v.fields, "provider") == Undefined && Lookup(v.fields, "model") == Undefined
  {
    var fields := [("url", r.url),
         ("metadata", Obj([("model", Str(r.model)), ("provider", Str(r.provider)), ("size", Str(r.size))]))];
    assert fields[1..][1..] == [];
    assert forall k :: k != "url" && k != "metadata" ==> Lookup(fields, k) == Lookup(fields[1..][1..], k);
    Obj(fields)
  }

  /**
   * `{success: true, url, provider}` or `{success: false, error, provider}`,
   * returned by the adapters that report failure as a value.
   */
  datatype FlagResult = Succeeded(url: JsVal, provider: string) | Failed(error: string, provider: string)
}
