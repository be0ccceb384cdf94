/**
 * The numbers the form handler of `script.js` works with, and its two
 * validation helpers `isNumber` and `isPositive`.
 *
 * A form value is converted with the unary `+`, which yields an IEEE-754
 * double. The model keeps the distinctions that the validation looks at:
 * a finite value (abstracted to a `real`), NaN, and the two infinities.
 */
module JsNumbers {

  datatype JsNumber = Finite(value: real) | NaN | PositiveInfinity | NegativeInfinity {

    /** `Number.isFinite(x)`: false for NaN and both infinities. */
    predicate IsFinite()
      ensures IsFinite() <==> !NaN? && !PositiveInfinity? && !NegativeInfinity?
    {
      Finite?
    }

    /** The comparison `x > 0`: false for NaN, true for +Infinity. */
    predicate GreaterThanZero()
      ensures Finite? ==> (GreaterThanZero() <==> value > 0.0)
      ensures NaN? || NegativeInfinity? ==> !GreaterThanZero()
      ensures PositiveInfinity? ==> GreaterThanZero()
    {
      match this
      case Finite(v) => v > 0.0
      case PositiveInfinity => true
      case _ => false
    }
  }

  /** `Array.prototype.every`: the predicate holds of every element, checked from the front. */
  function Every<T>(xs: seq<T>, p: T -> bool): (r: bool)
    ensures r <==> forall i :: 0 <= i < |xs| ==> p(xs[i])
  {
    if |xs| == 0 then true else p(xs[0]) && Every(xs[1..], p)
  }

  /** `isNumber(...inputs)`: every input is a finite number. */
  function IsNumber(inputs: seq<JsNumber>): (r: bool)
    ensures r <==> forall i :: 0 <= i < |inputs| ==> inputs[i].Finite?
  {
    Every(inputs, (x: JsNumber) => x.IsFinite())
  }

  /** `isPositive(...inputs)`: every input compares greater than zero. */
  function IsPositive(inputs: seq<JsNumber>): (r: bool)
    ensures r <==> forall i :: 0 <= i < |inputs| ==> inputs[i].GreaterThanZero()
  {
    Every(inputs, (x: JsNumber) => x.GreaterThanZero())
  }

  /**
   * The two checks together accept exactly the finite, strictly positive
   * inputs: +Infinity passes `isPositive` but is stopped by `isNumber`.
   */
  lemma NumberAndPositive(inputs: seq<JsNumber>)
    ensures IsNumber(inputs) && IsPositive(inputs)
        <==> forall i :: 0 <= i < |inputs| ==> inputs[i].Finite? && inputs[i].value > 0.0
  {
  }
}
