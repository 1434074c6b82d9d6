/**
 * `JSON.stringify` (section 25.5.2 of ECMA-262) over the value model, as the
 * gateways use it to put collected error lists and response bodies into
 * error messages.
 */
module Json {
  import opened JsText
  import opened JsCore

  function HexDigitLower(d: nat): (c: char)
    requires d < 16
  {
    if d < 10 then DigitChar(d) else ('a' as int + d - 10) as char
  }

  /** How QuoteJSONString writes one character. */
  function EscapeChar(c: char): (r: string)
    ensures |r| >= 1
    ensures |r| == 1 <==> r == [c]
  {
    if c == '"' then "\\\""
    else if c == '\\' then "\\\\"
    else if c == '\U{0008}' then "\\b"
    else if c == '\t' then "\\t"
    else if c == '\n' then "\\n"
    else if c == '\U{000C}' then "\\f"
    else if c == '\r' then "\\r"
    else if (c as int) < 0x20 then "\\u00" + [HexDigitLower(c as int / 16), HexDigitLower(c as int % 16)]
    else [c]
  }

  function EscapeAll(s: string): string
  {
    if |s| == 0 then "" else EscapeChar(s[0]) + EscapeAll(s[1..])
  }

  /** A JSON string literal for `s`. */
  function Quote(s: string): (r: string)
    ensures |r| >= 2 && r[0] == '"' && r[|r| - 1] == '"'
  {
    "\"" + EscapeAll(s) + "\""
  }

  /** The `"key":value` members of an object whose values serialise (undefined ones are skipped). */
  function MemberTexts(keys: seq<string>, values: seq<Option<string>>): seq<string>
    requires |keys| == |values|
  {
    if |keys| == 0 then []
    else if values[0].None? then MemberTexts(keys[1..], values[1..])
    else [Quote(keys[0]) + ":" + values[0].value] + MemberTexts(keys[1..], values[1..])
  }

  /** An array element: undefined is written as null. */
  function ElementText(v: JsVal): string
    decreases v, 2
  {
    var t := Stringify(v);
    if t.Some? then t.value else "null"
  }

  /** `JSON.stringify(v)`; `None` stands for the undefined it returns for undefined. */
  function Stringify(v: JsVal): (r: Option<string>)
    ensures r.None? <==> v.Undefined?
    decreases v, 1
  {
    match v
    case Undefined => None
    case Null => Some("null")
    case Bool(b) => Some(if b then "true" else "false")
    case Num(n) => Some(NumberToString(n))
    case NaN => Some("null")
    case Str(s) => Some(Quote(s))
    case Binary(_) => Some("{}")
    case Arr(items) =>
      Some("[" + Join(seq(|items|, i requires 0 <= i < |items| => ElementText(items[i])), ",") + "]")
    case Obj(fields) =>
      var keys := seq(|fields|, i requires 0 <= i < |fields| => fields[i].0);
      var values := seq(|fields|, i requires 0 <= i < |fields| => Stringify(fields[i].1));
      Some("{" + Join(MemberTexts(keys, values), ",") + "}")
  }

  /** `${JSON.stringify(v)}`: the JSON text, or "undefined" when there is none. */
  function JsonText(v: JsVal): (t: string)
    ensures v.Undefined? ==> t == "undefined"
    ensures !v.Undefined? ==> Some(t) == Stringify(v)
  {
    match Stringify(v)
    case None => "undefined"
    case Some(t) => t
  }

  /** A list of strings as a JavaScript array value. */
  function StringArray(items: seq<string>): (v: JsVal)
    ensures v.Arr? && |v.items| == |items|
    ensures forall i :: 0 <= i < |items| ==> v.items[i] == Str(items[i])
  {
    Arr(seq(|items|, i requires 0 <= i < |items| => Str(items[i])))
  }

  /** `JSON.stringify` of an array of strings: each string quoted, comma separated, in order. */
  lemma StringifyStringArray(items: seq<string>)
    ensures Stringify(StringArray(items))
         == Some("[" + Join(seq(|items|, i requires 0 <= i < |items| => Quote(items[i])), ",") + "]")
  {
    var v := StringArray(items);
    forall i | 0 <= i < |items| ensures ElementText(v.items[i]) == Quote(items[i]) {
      assert Stringify(Str(items[i])) == Some(Quote(items[i]));
    }
    assert seq(|v.items|, i requires 0 <= i < |v.items| => ElementText(v.items[i]))
        == seq(|items|, i requires 0 <= i < |items| => Quote(items[i]));
  }

  /** `JSON.stringify([])`. */
  lemma EmptyArrayText()
    ensures JsonText(Arr([])) == "[]"
  {
    var items: seq<JsVal> := [];
    assert seq(|items|, i requires 0 <= i < |items| => ElementText(items[i])) == [];
  }
}
