/**
 * The dynamic values the gateway code handles, with the JavaScript semantics it
 * depends on: truthiness, property access (plain and optional chaining, with the
 * TypeError a property read on null or undefined raises), template-literal
 * conversion to text, object spread, and thrown errors.
 */
module JsCore {
  import opened JsText

  datatype Option<T> = None | Some(value: T)

  /**
   * A JavaScript value. Numbers are exact rationals (`NaN` apart); `Binary` is an
   * ArrayBuffer; an object is its own enumerable properties in insertion order.
   */
  datatype JsVal =
    | Undefined
    | Null
    | Bool(b: bool)
    | Num(n: real)
    | NaN
    | Str(s: string)
    | Binary(bytes: seq<byte>)
    | Arr(items: seq<JsVal>)
    | Obj(fields: seq<(string, JsVal)>)

  /** ToBoolean: the values `if (v)` and `!v` treat as true. */
  predicate Truthy(v: JsVal) {
    match v
    case Undefined => false
    case Null => false
    case Bool(b) => b
    case Num(n) => n != 0.0
    case NaN => false
    case Str(s) => s != ""
    case _ => true
  }

  predicate IsNullish(v: JsVal) {
    v.Undefined? || v.Null?
  }

  /** What an HTTP client hands back: the status and the decoded body. */
  datatype HttpResponse = HttpResponse(status: int, data: JsVal)

  /**
   * A thrown error: its `message`, the `code` some clients attach, and the
   * `response` an HTTP client attaches when the server answered.
   */
  datatype Exn = Exn(message: string, code: Option<string>, response: Option<HttpResponse>)

  /** `new Error(message)`. */
  function Error(message: string): (e: Exn)
    ensures e.message == message && e.code.None? && e.response.None?
  {
    Exn(message, None, None)
  }

  /** `process.env`; a variable that is not set reads as `""`, every use treats both as false. */
  type Env = map<string, string>

  function EnvVar(env: Env, name: string): string
  {
    if name in env then env[name] else ""
  }

  /** A call that either returns a value or throws. */
  datatype Outcome<T> = Ok(value: T) | Throw(exn: Exn)

  function NullishName(v: JsVal): string
    requires IsNullish(v)
  {
    if v.Undefined? then "undefined" else "null"
  }

  /** The TypeError V8 raises for `v.key` when `v` is null or undefined. */
  function ReadError(v: JsVal, key: string): (e: Exn)
    requires IsNullish(v)
    ensures e.response.None?
  {
    Error("Cannot read properties of " + NullishName(v) + " (reading '" + key + "')")
  }

  /** The TypeError V8 raises for calling `expr(...)` when `expr` is no function. */
  function NotAFunction(expr: string): (e: Exn)
    ensures e.response.None?
  {
    Error(expr + " is not a function")
  }

  /** The first value stored under `key`, or undefined. */
  function Lookup(fields: seq<(string, JsVal)>, key: string): JsVal
  {
    if |fields| == 0 then Undefined
    else if fields[0].0 == key then fields[0].1
    else Lookup(fields[1..], key)
  }

  predicate HasKey(fields: seq<(string, JsVal)>, key: string) {
    exists i :: 0 <= i < |fields| && fields[i].0 == key
  }

  /** Own properties of the primitive wrappers and arrays that the code may read. */
  function OwnProperty(v: JsVal, key: string): JsVal
    requires !IsNullish(v)
  {
    match v
    case Obj(fields) => Lookup(fields, key)
    case Str(s) => if key == "length" then Num(|s| as real) else Undefined
    case Arr(items) => if key == "length" then Num(|items| as real) else Undefined
    case _ => Undefined
  }

  /** `v.key`. */
  function Get(v: JsVal, key: string): (r: Outcome<JsVal>)
    ensures r.Throw? <==> IsNullish(v)
    ensures r.Throw? ==> r.exn == ReadError(v, key)
    ensures v.Obj? ==> r == Ok(Lookup(v.fields, key))
  {
    if IsNullish(v) then Throw(ReadError(v, key)) else Ok(OwnProperty(v, key))
  }

  /** `v?.key`: undefined instead of a TypeError. */
  function OptGet(v: JsVal, key: string): (r: JsVal)
    ensures IsNullish(v) ==> r == Undefined
    ensures !IsNullish(v) ==> Get(v, key) == Ok(r)
  {
    if IsNullish(v) then Undefined else OwnProperty(v, key)
  }

  function Element(v: JsVal, i: nat): JsVal
    requires !IsNullish(v)
  {
    match v
    case Arr(items) => if i < |items| then items[i] else Undefined
    case Str(s) => if i < |s| then Str([s[i]]) else Undefined
    case Obj(fields) => Lookup(fields, NatToString(i))
    case _ => Undefined
  }

  /** `v[i]`. */
  function At(v: JsVal, i: nat): (r: Outcome<JsVal>)
    ensures r.Throw? <==> IsNullish(v)
    ensures v.Arr? && i < |v.items| ==> r == Ok(v.items[i])
  {
    if IsNullish(v) then Throw(ReadError(v, NatToString(i))) else Ok(Element(v, i))
  }

  /** `v?.[i]`. */
  function OptAt(v: JsVal, i: nat): (r: JsVal)
    ensures IsNullish(v) ==> r == Undefined
    ensures !IsNullish(v) ==> At(v, i) == Ok(r)
  {
    if IsNullish(v) then Undefined else Element(v, i)
  }

  /** `a || b`. */
  function Or(a: JsVal, b: JsVal): (r: JsVal)
    ensures Truthy(a) ==> r == a
    ensures !Truthy(a) ==> r == b
  {
    if Truthy(a) then a else b
  }

  /**
   * The properties every object inherits from `Object.prototype` (sections 20.1.3
   * and B.2.2 of ECMA-262): a property read on a plain object finds them too.
   */
  const PrototypeKeys: seq<string> := ["constructor", "hasOwnProperty", "isPrototypeOf", "propertyIsEnumerable",
    "toLocaleString", "toString", "valueOf", "__defineGetter__", "__defineSetter__", "__lookupGetter__",
    "__lookupSetter__", "__proto__"]

  /**
   * The text string concatenation makes of an inherited member: `Object` for
   * `constructor`, the prototype itself for `__proto__`, and the built-in method
   * otherwise, as V8 renders native functions (section 20.2.3.5 of ECMA-262).
   */
  function InheritedText(key: string): (t: string)
    requires key in PrototypeKeys
    ensures |t| > 0
  {
    if key == "constructor" then "function Object() { [native code] }"
    else if key == "__proto__" then "[object Object]"
    else "function " + key + "() { [native code] }"
  }

  /** Up to `fuel` further digits of a fraction `0 <= f < 1`. */
  function FractionDigits(f: real, fuel: nat): string
    requires 0.0 <= f < 1.0
    decreases fuel
  {
    if fuel == 0 || f == 0.0 then ""
    else
      var d := (f * 10.0).Floor;
      assert 0 <= d < 10;
      [DigitChar(d)] + FractionDigits(f * 10.0 - d as real, fuel - 1)
  }

  /**
   * Number::toString for the numbers the code meets: integers exactly, other
   * values with their decimal expansion cut after 20 fractional digits.
   */
  function NumberToString(r: real): (s: string)
    ensures r == r.Floor as real ==> s == IntToString(r.Floor)
  {
    if r == r.Floor as real then IntToString(r.Floor)
    else if r < 0.0 then
      var p := -r;
      "-" + NatToString(p.Floor) + "." + FractionDigits(p - p.Floor as real, 20)
    else NatToString(r.Floor) + "." + FractionDigits(r - r.Floor as real, 20)
  }

  /** How `Array.prototype.join` shows one element: nullish ones as nothing. */
  function JoinElement(v: JsVal): string
    decreases v, 2
  {
    if IsNullish(v) then "" else ToStr(v)
  }

  /** The string a template literal `${v}` produces. */
  function ToStr(v: JsVal): string
    decreases v, 1
  {
    match v
    case Undefined => "undefined"
    case Null => "null"
    case Bool(b) => if b then "true" else "false"
    case Num(n) => NumberToString(n)
    case NaN => "NaN"
    case Str(s) => s
    case Binary(_) => "[object ArrayBuffer]"
    case Arr(items) => Join(seq(|items|, i requires 0 <= i < |items| => JoinElement(items[i])), ",")
    case Obj(_) => "[object Object]"
  }

  /** Assigns `key` in an object: overwrites its first occurrence or appends it. */
  function SetField(fields: seq<(string, JsVal)>, key: string, value: JsVal): (r: seq<(string, JsVal)>)
    ensures Lookup(r, key) == value
    ensures forall k :: k != key ==> Lookup(r, k) == Lookup(fields, k)
    ensures HasKey(fields, key) ==> |r| == |fields|
  {
    if |fields| == 0 then [(key, value)]
    else if fields[0].0 == key then [(key, value)] + fields[1..]
    else [fields[0]] + SetField(fields[1..], key, value)
  }

  /** `{...a, ...b}`. */
  function Spread(a: seq<(string, JsVal)>, b: seq<(string, JsVal)>): seq<(string, JsVal)>
    decreases |b|
  {
    if |b| == 0 then a else Spread(SetField(a, b[0].0, b[0].1), b[1..])
  }

  predicate UniqueKeys(fields: seq<(string, JsVal)>) {
    forall i, j :: 0 <= i < j < |fields| ==> fields[i].0 != fields[j].0
  }

  /** After a spread, a key of the right operand reads its value there; any other key reads the left operand. */
  lemma {:induction false} LookupSpread(a: seq<(string, JsVal)>, b: seq<(string, JsVal)>, key: string)
    requires UniqueKeys(b)
    ensures Lookup(Spread(a, b), key) == if HasKey(b, key) then Lookup(b, key) else Lookup(a, key)
    decreases |b|
  {
    if |b| > 0 {
      var a' := SetField(a, b[0].0, b[0].1);
      assert UniqueKeys(b[1..]);
      LookupSpread(a', b[1..], key);
      if b[0].0 == key {
        assert !HasKey(b[1..], key) by {
          forall i | 0 <= i < |b[1..]| ensures b[1..][i].0 != key {
            assert b[1..][i] == b[i + 1];
          }
        }
      } else {
        assert HasKey(b, key) == HasKey(b[1..], key) by {
          if HasKey(b, key) {
            var i :| 0 <= i < |b| && b[i].0 == key;
            assert b[1..][i - 1] == b[i];
          }
          if HasKey(b[1..], key) {
            var i :| 0 <= i < |b[1..]| && b[1..][i].0 == key;
            assert b[i + 1] == b[1..][i];
          }
        }
      }
    }
  }

  /** With distinct keys, each key reads its own value. */
  lemma {:induction false} LookupUnique(fields: seq<(string, JsVal)>, i: nat)
    requires UniqueKeys(fields) && i < |fields|
    ensures Lookup(fields, fields[i].0) == fields[i].1
    decreases i
  {
    if i > 0 {
      assert fields[0].0 != fields[i].0;
      assert UniqueKeys(fields[1..]);
      assert fields[1..][i - 1] == fields[i];
      LookupUnique(fields[1..], i - 1);
    }
  }

  /** A key no field has reads `undefined`. */
  lemma {:induction false} LookupAbsent(fields: seq<(string, JsVal)>, key: string)
    requires !HasKey(fields, key)
    ensures Lookup(fields, key) == Undefined
    decreases |fields|
  {
    if |fields| > 0 {
      assert fields[0].0 != key;
      assert !HasKey(fields[1..], key) by {
        forall j | 0 <= j < |fields| - 1 ensures fields[1..][j].0 != key {
          assert fields[1..][j] == fields[j + 1];
        }
      }
      LookupAbsent(fields[1..], key);
    }
  }
}
