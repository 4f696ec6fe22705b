/**
 * The untyped data that rule-element sources carry, with the two JavaScript
 * conversions the rule elements rely on: truthiness (`x || y`, `if (x)`) and
 * string conversion (`String(x)`, `x.toString()`).
 *
 * Numbers are modelled as integers; JavaScript's floating point is not part
 * of this model.
 */
module JsValues {

  datatype Value =
    | Undefined
    | Null
    | Bool(b: bool)
    | Number(n: int)
    | Str(s: string)
    | Arr(elems: seq<Value>)
    | Obj(fields: map<string, Value>)

  /** JavaScript truthiness: `false`, `0`, `""`, `null` and `undefined` are falsy. */
  predicate Truthy(v: Value): (r: bool)
    ensures v.Arr? || v.Obj? ==> r
    ensures v.Undefined? || v.Null? ==> !r
  {
    match v
    case Undefined => false
    case Null => false
    case Bool(b) => b
    case Number(n) => n != 0
    case Str(s) => s != ""
    case Arr(_) => true
    case Obj(_) => true
  }

  /** The decimal digits of a natural number, most significant first. */
  function NatToString(n: nat): (r: string)
    ensures |r| >= 1
    ensures forall i :: 0 <= i < |r| ==> '0' <= r[i] <= '9'
  {
    var d := ['0', '1', '2', '3', '4', '5', '6', '7', '8', '9'][n % 10];
    if n < 10 then [d] else NatToString(n / 10) + [d]
  }

  /** `String(v)`; for values other than `null` and `undefined` this is also `v.toString()`. */
  function ToString(v: Value): (r: string)
    ensures v.Str? ==> r == v.s
    ensures v.Number? ==> |r| >= 1 && (r[0] == '-' <==> v.n < 0)
    ensures v.Arr? && v.elems == [] ==> r == ""
    ensures !v.Str? && !v.Arr? ==> r != ""
    decreases v, 1, 0
  {
    match v
    case Undefined => "undefined"
    case Null => "null"
    case Bool(b) => if b then "true" else "false"
    case Number(n) => if n < 0 then "-" + NatToString(-n) else NatToString(n)
    case Str(s) => s
    case Arr(es) => JoinElements(es, 0)
    case Obj(_) => "[object Object]"
  }

  /**
   * `Array.prototype.toString` from index `i` on: the elements joined by
   * commas, with `null` and `undefined` elements written as nothing.
   */
  function JoinElements(es: seq<Value>, i: nat): string
    requires i <= |es|
    decreases Arr(es), 0, |es| - i
  {
    if i == |es| then ""
    else
      var e := es[i];
      assert e in es;
      var head := if e.Undefined? || e.Null? then "" else ToString(e);
      if i + 1 == |es| then head else head + "," + JoinElements(es, i + 1)
  }

  /** Exactly `false`, `0`, `""`, `null` and `undefined` are falsy; every array and object is truthy. */
  lemma FalsyValues(v: Value)
    ensures !Truthy(v) <==> v in {Undefined, Null, Bool(false), Number(0), Str("")}
  {
  }

  /** `(v || "").toString()`: the text of a resolved value, or "" when it is falsy. */
  function TextOrEmpty(v: Value): (r: string)
    ensures !Truthy(v) ==> r == ""
    ensures v.Str? ==> r == v.s
  {
    if Truthy(v) then ToString(v) else ""
  }
}
