/** The slice of JavaScript's value semantics that the two widgets rely on:
    parsed JSON values (plus `undefined`), property access that throws on
    `undefined` and `null`, truthiness, and conversion to a string. */
module JsValue {
  import Text

  datatype Option<+T> = None | Some(value: T) {
    predicate IsFailure() { None? }
    function PropagateFailure<U>(): Option<U>
      requires None?
    {
      None
    }
    function Extract(): T
      requires Some?
    {
      value
    }
  }

  /** A JavaScript value as the widgets see it. An integral number is a
      `Number`. A number with a fractional part (a latitude, say) is carried
      as the text JavaScript renders for it; no arithmetic is done on it.
      `Fractional` is meant only for non-integral numbers, which are all
      truthy: zero is `Number(0)`, never `Fractional("0")`. */
  datatype Value =
    | Undefined
    | Null
    | Bool(b: bool)
    | Number(n: int)
    | Fractional(text: string)
    | Str(s: string)
    | Arr(elems: seq<Value>)
    | Obj(fields: map<string, Value>)

  /** `undefined` and `null`: the values whose property access throws a TypeError. */
  predicate Nullish(v: Value)
  {
    v.Undefined? || v.Null?
  }

  /** `v.key` on a value that does not throw; `undefined` for a missing property.
      On `undefined` and `null` this is `v?.key`. */
  function Prop(v: Value, key: string): (r: Value)
    ensures v.Obj? && key in v.fields ==> r == v.fields[key]
    ensures Nullish(v) || v.Bool? || v.Number? || v.Fractional? ==> r == Undefined
  {
    match v
    case Obj(f) => if key in f then f[key] else Undefined
    case Arr(es) => if key == "length" then Number(|es|) else Undefined
    case Str(s) => if key == "length" then Number(|s|) else Undefined
    case _ => Undefined
  }

  /** `v[i]` on a value that does not throw; `undefined` past the end. */
  function Elem(v: Value, i: nat): (r: Value)
    ensures v.Arr? && i < |v.elems| ==> r == v.elems[i]
    ensures v.Arr? && i >= |v.elems| ==> r == Undefined
  {
    match v
    case Arr(es) => if i < |es| then es[i] else Undefined
    case Str(s) => if i < |s| then Str([s[i]]) else Undefined
    case Obj(f) => var key := NatToString(i); if key in f then f[key] else Undefined
    case _ => Undefined
  }

  /** `v.key`: None stands for the TypeError thrown on `undefined` and `null`. */
  function Get(v: Value, key: string): (r: Option<Value>)
    ensures r.None? <==> Nullish(v)
    ensures r.Some? ==> r.value == Prop(v, key)
  {
    if Nullish(v) then None else Some(Prop(v, key))
  }

  /** `v[i]`: None stands for the TypeError thrown on `undefined` and `null`. */
  function At(v: Value, i: nat): (r: Option<Value>)
    ensures r.None? <==> Nullish(v)
    ensures r.Some? ==> r.value == Elem(v, i)
  {
    if Nullish(v) then None else Some(Elem(v, i))
  }

  /** JavaScript truthiness (NaN is not modelled). */
  predicate Truthy(v: Value)
  {
    match v
    case Undefined => false
    case Null => false
    case Bool(b) => b
    case Number(n) => n != 0
    case Fractional(_) => true
    case Str(s) => s != ""
    case Arr(_) => true
    case Obj(_) => true
  }

  function Digit(d: nat): (c: char)
    requires d < 10
    ensures '0' <= c <= '9'
  {
    "0123456789"[d]
  }

  /** Decimal digits of `n`, most significant first, without leading zeros. */
  function NatToString(n: nat): (s: string)
    ensures 1 <= |s|
    ensures forall k :: 0 <= k < |s| ==> '0' <= s[k] <= '9'
    ensures n >= 10 <==> |s| > 1
    decreases n
  {
    if n < 10 then [Digit(n)] else NatToString(n / 10) + [Digit(n % 10)]
  }

  /** `String(n)` for an integer within JavaScript's plain decimal range. */
  function IntToString(n: int): (s: string)
    ensures 1 <= |s|
    ensures forall k :: 0 <= k < |s| ==> s[k] == '-' || '0' <= s[k] <= '9'
    ensures s[0] == '-' <==> n < 0
  {
    if n < 0 then "-" + NatToString(-n) else NatToString(n)
  }

  /** `String(v)`: what a template literal `${v}` or `"" + v` produces. An array
      joins its elements with commas, writing `undefined` and `null` elements
      as nothing. */
  function ToString(v: Value): (s: string)
    decreases v
  {
    match v
    case Undefined => "undefined"
    case Null => "null"
    case Bool(b) => if b then "true" else "false"
    case Number(n) => IntToString(n)
    case Fractional(t) => t
    case Str(s) => s
    case Arr(es) =>
      Text.Join(seq(|es|, k requires 0 <= k < |es| => if Nullish(es[k]) then "" else ToString(es[k])), ',')
    case Obj(_) => "[object Object]"
  }

  /** What a Lit attribute binding writes for `v`: `undefined` and `null`
      become the empty string, everything else `String(v)`. */
  function AttrString(v: Value): (s: string)
    ensures Nullish(v) ==> s == ""
    ensures !Nullish(v) ==> s == ToString(v)
  {
    if Nullish(v) then "" else ToString(v)
  }

  /** A number never renders with a URL separator in it. */
  lemma NumberText(n: int, c: char)
    requires c == '&' || c == ',' || c == '='
    ensures c !in ToString(Number(n))
  {
    var s := IntToString(n);
    assert forall k :: 0 <= k < |s| ==> s[k] != c;
  }
}
