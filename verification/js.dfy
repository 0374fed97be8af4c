/**
  The JavaScript values a request body or query string can carry, and the
  coercions the handlers apply to them: truthiness (`if (x)`, `!x`, `x || d`),
  `Number(x)` and `isNaN(x)`, and `String.prototype.includes`.
*/
module Js {
  import opened JsNumber

  /** A JavaScript value. `Composite` stands for an array or plain object and
      carries the string it converts to (`String(v)`), which is all that
      `Number(v)` looks at. */
  datatype JsValue =
    | Undefined
    | Null
    | Bool(b: bool)
    | Num(n: Numeric)
    | Str(s: string)
    | Composite(text: string)

  /** A plain object such as `req.body`, `req.query` or a row sent to the store. */
  type JsObject = map<string, JsValue>

  /** Property read `o.key` / destructuring `const { key } = o`: absent keys read as `undefined`. */
  function Get(o: JsObject, key: string): JsValue {
    if key in o then o[key] else Undefined
  }

  /** ToBoolean: what `if (v)` tests. */
  predicate Truthy(v: JsValue) {
    match v
    case Undefined => false
    case Null => false
    case Bool(b) => b
    case Num(n) => n.Infinite? || (n.Finite? && n.value != 0.0)
    case Str(s) => s != ""
    case Composite(_) => true
  }

  /** ToNumber: what `Number(v)` returns. */
  function ToNumber(v: JsValue): Numeric {
    match v
    case Undefined => NaN
    case Null => Finite(0.0)
    case Bool(b) => Finite(if b then 1.0 else 0.0)
    case Num(n) => n
    case Str(s) => StringToNumber(s)
    case Composite(t) => StringToNumber(t)
  }

  /** The global `isNaN(v)`, which coerces its argument with ToNumber first. */
  predicate IsNaN(v: JsValue) {
    ToNumber(v).NaN?
  }

  /** The value passes the handlers' numeric guard `isNaN(v) || Number(v) < 0`
      (that is, the guard does NOT fire). */
  predicate IsNonNegativeNumber(v: JsValue) {
    !IsNaN(v) && !IsNegative(ToNumber(v))
  }

  /** Coerces with `Number(v)`; the result is always a JavaScript number. */
  function AsNumber(v: JsValue): (r: JsValue)
    ensures r.Num?
    ensures ToNumber(r) == ToNumber(v)
    ensures IsNonNegativeNumber(r) <==> IsNonNegativeNumber(v)
  {
    Num(ToNumber(v))
  }

  /** `sub` occurs in `s` starting at index `i`. */
  ghost predicate OccursAt(s: string, sub: string, i: int) {
    0 <= i && i + |sub| <= |s| && s[i..i + |sub|] == sub
  }

  /** `s.includes(sub)`. */
  function Includes(s: string, sub: string): (r: bool)
    ensures r <==> exists i :: OccursAt(s, sub, i)
    decreases |s|
  {
    if |sub| > |s| then false
    else if s[..|sub|] == sub then
      assert OccursAt(s, sub, 0);
      true
    else
      OccurrenceShift(s, sub);
      Includes(s[1..], sub)
  }

  /** When `sub` does not start `s`, its occurrences in `s` are those in `s[1..]`, shifted by one. */
  lemma OccurrenceShift(s: string, sub: string)
    requires |sub| <= |s| && s[..|sub|] != sub
    ensures (exists i :: OccursAt(s, sub, i)) <==> (exists i :: OccursAt(s[1..], sub, i))
  {
    forall i | OccursAt(s[1..], sub, i)
      ensures OccursAt(s, sub, i + 1)
    {
      assert s[1..][i..i + |sub|] == s[i + 1..i + 1 + |sub|];
    }
    forall i | OccursAt(s, sub, i)
      ensures i >= 1 && OccursAt(s[1..], sub, i - 1)
    {
      assert s[1..][i - 1..i - 1 + |sub|] == s[i..i + |sub|];
    }
  }

  /** The coercions behind the handlers' numeric guards: `null`, `false`,
      `""`, blank strings and arrays or objects that convert to blank text all
      become 0, so none of them is NaN and none is negative. */
  lemma ZeroLike(v: JsValue, blank: string)
    requires AllWhiteSpace(blank)
    requires v == Null || v == Bool(false) || v == Str(blank) || v == Composite(blank)
    ensures ToNumber(v) == Finite(0.0) && IsNonNegativeNumber(v)
  {
    if v == Str(blank) || v == Composite(blank) {
      BlankIsZero(blank);
    }
  }
}
