/** The host (V8) values the binding layer reads and produces, and the host
    conversions it applies to them: property lookup, conversion to UTF-8 text
    and conversion to an unsigned 32-bit integer. */
module JsValues {
  import opened Wrappers

  const UINT32_LIMIT: int := 0x1_0000_0000

  newtype uint32 = x: int | 0 <= x < 0x1_0000_0000

  /** A host value. Numbers are integral here; objects keep their own
      properties in creation order. */
  datatype JsValue =
    | Undefined
    | Null
    | Boolean(b: bool)
    | Number(n: int)
    | Str(s: string)
    | Arr(elems: seq<JsValue>)
    | Obj(props: seq<(string, Property)>)
    | Fn(source: string)

  /** An own property: a plain data value, or an accessor whose getter throws. */
  datatype Property = Data(value: JsValue) | ThrowingGetter

  predicate IsString(v: JsValue) { v.Str? }

  /** Arrays and functions are objects too. */
  predicate IsObject(v: JsValue) { v.Arr? || v.Obj? || v.Fn? }

  predicate IsFunction(v: JsValue) { v.Fn? }

  /** `args[i]` of a call: undefined past the last argument passed. */
  function ArgAt(args: seq<JsValue>, i: nat): JsValue
  {
    if i < |args| then args[i] else Undefined
  }

  /** `obj->Get(context, key)`: empty only when the lookup throws; a key the
      object does not have reads as undefined. */
  function GetProperty(obj: JsValue, key: string): Option<JsValue>
  {
    match obj
    case Obj(props) => LookupOwn(props, key)
    case _ => Some(Undefined)
  }

  function LookupOwn(props: seq<(string, Property)>, key: string): Option<JsValue>
  {
    if props == [] then Some(Undefined)
    else if props[0].0 == key then
      (match props[0].1
       case Data(v) => Some(v)
       case ThrowingGetter => None)
    else LookupOwn(props[1..], key)
  }

  /** The lookup finds the first own property with the key. */
  lemma {:induction false} LookupOwnAt(props: seq<(string, Property)>, k: nat, key: string)
    requires k < |props| && props[k].0 == key
    requires forall j :: 0 <= j < k ==> props[j].0 != key
    ensures LookupOwn(props, key) == if props[k].1.Data? then Some(props[k].1.value) else None
  {
    if k > 0 {
      LookupOwnAt(props[1..], k - 1, key);
    }
  }

  /** A key no own property has reads as undefined. */
  lemma {:induction false} LookupOwnAbsent(props: seq<(string, Property)>, key: string)
    requires forall j :: 0 <= j < |props| ==> props[j].0 != key
    ensures LookupOwn(props, key) == Some(Undefined)
  {
    if props != [] {
      LookupOwnAbsent(props[1..], key);
    }
  }

  // Decimal text of naturals, as the host prints and reads numbers. The
  // lemmas below are sanity checks of this model of the host conversions,
  // not facts about the binding itself.

  predicate IsDigit(c: char) { '0' <= c <= '9' }

  predicate IsDecimal(s: string) { forall i :: 0 <= i < |s| ==> IsDigit(s[i]) }

  function DigitChar(d: nat): (c: char)
    requires d < 10
    ensures IsDigit(c) && c as int - '0' as int == d
  {
    (d + '0' as int) as char
  }

  function NatToDecimal(n: nat): (s: string)
    ensures |s| > 0 && IsDecimal(s)
  {
    if n < 10 then [DigitChar(n)] else NatToDecimal(n / 10) + [DigitChar(n % 10)]
  }

  function DecimalValue(s: string): nat
    requires IsDecimal(s)
  {
    if s == [] then 0
    else 10 * DecimalValue(s[..|s| - 1]) + (s[|s| - 1] as int - '0' as int)
  }

  /** Host model sanity check: reading back the decimal text of a natural
      gives the natural. */
  lemma {:induction false} DecimalRoundTrip(n: nat)
    ensures DecimalValue(NatToDecimal(n)) == n
  {
    if n >= 10 {
      var s := NatToDecimal(n);
      assert s[..|s| - 1] == NatToDecimal(n / 10);
      DecimalRoundTrip(n / 10);
    }
  }

  /** The host's ToString, used by `Utf8String` and `String::Utf8Value`. */
  function ToUtf8(v: JsValue): string
  {
    match v
    case Undefined => "undefined"
    case Null => "null"
    case Boolean(b) => if b then "true" else "false"
    case Number(n) => if n < 0 then "-" + NatToDecimal(-n) else NatToDecimal(n)
    case Str(s) => s
    case Arr(elems) =>
      JoinWithCommas(seq(|elems|, i requires 0 <= i < |elems| =>
        if elems[i].Undefined? || elems[i].Null? then "" else ToUtf8(elems[i])))
    case Obj(_) => "[object Object]"
    case Fn(source) => source
  }

  function JoinWithCommas(parts: seq<string>): string
  {
    if parts == [] then ""
    else if |parts| == 1 then parts[0]
    else parts[0] + "," + JoinWithCommas(parts[1..])
  }

  /** The host's ToUint32 (`Uint32Value`): numbers wrap modulo 2^32, text is
      read as a decimal number, and anything that is not a number reads as 0. */
  function ToUint32(v: JsValue): uint32
  {
    match v
    case Number(n) => (n % UINT32_LIMIT) as uint32
    case Boolean(b) => if b then 1 else 0
    case Undefined => 0
    case Null => 0
    case Str(s) => TextToUint32(s)
    case _ => TextToUint32(ToUtf8(v))
  }

  function TextToUint32(s: string): uint32
  {
    if IsDecimal(s) then (DecimalValue(s) % UINT32_LIMIT) as uint32 else 0
  }

  /** An unsigned 32-bit number survives the trip into the host and back. */
  lemma Uint32RoundTrip(x: uint32)
    ensures ToUint32(Number(x as int)) == x
  {
  }

  /** Host model sanity check: a number given as its decimal text converts
      to the same unsigned 32-bit value as the number itself. */
  lemma NumericTextAgreesWithNumber(n: nat)
    ensures ToUint32(Str(ToUtf8(Number(n)))) == ToUint32(Number(n))
  {
    DecimalRoundTrip(n);
  }
}
