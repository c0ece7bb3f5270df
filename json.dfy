/**
 * The JavaScript values the teardown script handles: parsed JSON response
 * bodies, plus `undefined`, which a failed request, a missing property or an
 * out-of-range index yields.  The operations the script applies to them
 * (property access, `[0]`, `for...of`, string concatenation) are modelled
 * here; `None` stands for the TypeError that JavaScript throws.
 */
module Json {
  import opened Wrappers

  datatype Value =
    | Undefined
    | Null
    | Bool(b: bool)
    | Num(n: int)
    | Str(s: string)
    | Arr(elems: seq<Value>)
    | Obj(fields: map<string, Value>)

  /** `undefined` and `null`: the two values on which property access throws. */
  predicate IsNullish(v: Value) {
    v.Undefined? || v.Null?
  }

  /**
   * `v.name` for a property name that no built-in prototype defines
   * (`environment`, `revision`, `name`, `qualifier`, `contents`, `data`,
   * `self`, `id`).  Throws on `undefined` and `null`.
   */
  function Prop(v: Value, name: string): (r: Option<Value>)
    ensures r.None? <==> IsNullish(v)
    ensures v.Obj? && name in v.fields ==> r == Some(v.fields[name])
    ensures !v.Obj? && !IsNullish(v) ==> r == Some(Undefined)
  {
    match v
    case Undefined => None
    case Null => None
    case Obj(fields) => Some(if name in fields then fields[name] else Undefined)
    case _ => Some(Undefined)
  }

  /** `v[0]`: the first element of an array or string, the property "0" of an object. */
  function Index0(v: Value): (r: Option<Value>)
    ensures r.None? <==> IsNullish(v)
    ensures v.Arr? ==> r == Some(if |v.elems| > 0 then v.elems[0] else Undefined)
  {
    match v
    case Undefined => None
    case Null => None
    case Arr(elems) => Some(if |elems| > 0 then elems[0] else Undefined)
    case Str(s) => Some(if |s| > 0 then Str([s[0]]) else Undefined)
    case Obj(fields) => Some(if "0" in fields then fields["0"] else Undefined)
    case _ => Some(Undefined)
  }

  /**
   * The elements a `for...of` loop visits: those of an array, or the
   * characters of a string.  Every other value is not iterable and throws.
   */
  function Iterate(v: Value): (r: Option<seq<Value>>)
    ensures r.Some? <==> v.Arr? || v.Str?
    ensures v.Arr? ==> r == Some(v.elems)
    ensures v.Str? ==> |r.value| == |v.s| && forall i :: 0 <= i < |v.s| ==> r.value[i] == Str([v.s[i]])
  {
    match v
    case Arr(elems) => Some(elems)
    case Str(s) => Some(seq(|s|, i requires 0 <= i < |s| => Str([s[i]])))
    case _ => None
  }

  /** Decimal digits of a natural number, most significant first. */
  function NatToDecimal(n: nat): (r: string)
    ensures |r| > 0
    ensures forall i :: 0 <= i < |r| ==> '0' <= r[i] <= '9'
    decreases n
  {
    var d := ['0' + (n % 10) as char];
    if n < 10 then d else NatToDecimal(n / 10) + d
  }

  /** The number a string of decimal digits denotes, most significant first. */
  function DecimalValue(s: string): nat
    requires forall i :: 0 <= i < |s| ==> '0' <= s[i] <= '9'
  {
    if |s| == 0 then 0 else 10 * DecimalValue(s[..|s| - 1]) + (s[|s| - 1] - '0') as nat
  }

  /** The digits NatToDecimal writes denote the number they were written for. */
  lemma {:induction false} DecimalRoundTrip(n: nat)
    ensures DecimalValue(NatToDecimal(n)) == n
    decreases n
  {
    var d := ['0' + (n % 10) as char];
    if n >= 10 {
      var s := NatToDecimal(n / 10) + d;
      assert s[..|s| - 1] == NatToDecimal(n / 10);
      DecimalRoundTrip(n / 10);
    }
  }

  /** `String(n)` for an integral number. */
  function IntToDecimal(n: int): string {
    if n < 0 then "-" + NatToDecimal(-n) else NatToDecimal(n)
  }

  /** The conversion `"..." + v` applies to a value (ToString). */
  function ToStr(v: Value): string
    decreases v
  {
    match v
    case Undefined => "undefined"
    case Null => "null"
    case Bool(b) => if b then "true" else "false"
    case Num(n) => IntToDecimal(n)
    case Str(s) => s
    case Arr(elems) =>
      // Array.prototype.toString joins with "," and prints null and undefined as ""
      JoinWithComma(seq(|elems|, i requires 0 <= i < |elems| =>
        if IsNullish(elems[i]) then "" else ToStr(elems[i])))
    case Obj(_) => "[object Object]"
  }

  /** The strings of `parts` separated by single commas. */
  function JoinWithComma(parts: seq<string>): string {
    if |parts| == 0 then ""
    else if |parts| == 1 then parts[0]
    else JoinWithComma(parts[..|parts| - 1]) + "," + parts[|parts| - 1]
  }
}
