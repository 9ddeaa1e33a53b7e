/**
 * The part of JavaScript's number semantics the page reads: `Number(s)` on a
 * query value, `Math.ceil(a / b)`, and `String(n)`. Only strings made of an
 * optional sign and decimal digits convert to a finite value here; every
 * other string is NaN.
 */
module JsNumber {

  /**
   * A JavaScript number restricted to integers, negative zero, the two
   * infinities and NaN. `Finite(0)` is positive zero.
   */
  datatype Number = Finite(v: int) | NegZero | PosInfinity | NegInfinity | NaN

  predicate IsDigit(c: char)
  {
    '0' <= c <= '9'
  }

  predicate AllDigits(s: string)
  {
    forall i :: 0 <= i < |s| ==> IsDigit(s[i])
  }

  /** The value of a string of decimal digits, most significant first. */
  function DigitsValue(s: string): nat
    requires AllDigits(s)
  {
    if s == [] then 0 else DigitsValue(s[..|s| - 1]) * 10 + (s[|s| - 1] as int - '0' as int)
  }

  /** The numbers `Number` gives for a string: never an infinity in this model. */
  predicate IsRead(x: Number)
  {
    x.Finite? || x == NegZero || x == NaN
  }

  /**
   * `Number(s)`: "" is 0, an optional sign followed by digits is that
   * integer, a minus sign followed by zeros only is -0, anything else NaN.
   */
  function ToNumber(s: string): (r: Number)
    ensures IsRead(r)
    ensures r == NegZero <==> |s| > 1 && s[0] == '-' && AllDigits(s[1..]) && DigitsValue(s[1..]) == 0
  {
    if s == "" then Finite(0)
    else if AllDigits(s) then Finite(DigitsValue(s))
    else if |s| > 1 && s[0] == '-' && AllDigits(s[1..]) then
      (if DigitsValue(s[1..]) == 0 then NegZero else Finite(0 - DigitsValue(s[1..]) as int))
    else if |s| > 1 && s[0] == '+' && AllDigits(s[1..]) then Finite(DigitsValue(s[1..]))
    else NaN
  }

  /** The decimal digits of `n`, without leading zeros. */
  function Decimal(n: nat): (r: string)
    ensures |r| > 0 && AllDigits(r)
    ensures n > 0 ==> r[0] != '0'
  {
    if n < 10 then [('0' as int + n) as char]
    else Decimal(n / 10) + [('0' as int + n % 10) as char]
  }

  /** `String(n)` for the numbers of this module. */
  function ToString(x: Number): string
  {
    match x
    case Finite(v) => if v < 0 then "-" + Decimal(-v) else Decimal(v)
    case NegZero => "0"
    case PosInfinity => "Infinity"
    case NegInfinity => "-Infinity"
    case NaN => "NaN"
  }

  /** Reading back the digits of `n` gives `n`. */
  lemma {:induction false} DecimalValue(n: nat)
    ensures DigitsValue(Decimal(n)) == n
  {
    var s := Decimal(n);
    if n >= 10 {
      DecimalValue(n / 10);
      assert s[..|s| - 1] == Decimal(n / 10);
    }
  }

  /** `Number(String(x))` is `x` for every finite `x`. */
  lemma StringThenNumber(v: int)
    ensures ToNumber(ToString(Finite(v))) == Finite(v)
  {
    if v < 0 {
      DecimalValue(-v);
      var s := ToString(Finite(v));
      assert s[1..] == Decimal(-v);
      assert !AllDigits(s) by { assert !IsDigit(s[0]); }
      assert DigitsValue(s[1..]) != 0;
    } else {
      DecimalValue(v);
    }
  }

  /**
   * `Math.ceil(o / l)` for a non-zero divisor: the least integer not below
   * the exact quotient.
   */
  function CeilDiv(o: int, l: int): (r: int)
    requires l != 0
    ensures l > 0 ==> (r - 1) * l < o <= r * l
    ensures l < 0 ==> r * l <= o < (r - 1) * l
  {
    if l > 0 then
      var q := (-o) / l;
      var m := (-o) % l;
      assert -o == q * l + m && 0 <= m < l;
      assert (-q - 1) * l == -q * l - l;
      -q
    else
      var q := o / (-l);
      var m := o % (-l);
      assert o == q * (-l) + m && 0 <= m < -l;
      assert (-q) * l == q * (-l);
      assert (-q - 1) * l == q * (-l) - l;
      -q
  }

  /** `Math.ceil(o / l)` on integers, with JavaScript's division by zero. */
  function DivideThenCeil(o: int, l: int): (r: Number)
    ensures r.Finite? <==> l != 0
    ensures l != 0 ==> r == Finite(CeilDiv(o, l))
    ensures l == 0 ==> (r == PosInfinity <==> o > 0) && (r == NegInfinity <==> o < 0) && (r == NaN <==> o == 0)
  {
    if l != 0 then Finite(CeilDiv(o, l))
    else if o > 0 then PosInfinity
    else if o < 0 then NegInfinity
    else NaN
  }

  /** The integer a finite number or negative zero stands for. */
  function IntValue(x: Number): (r: int)
    requires x.Finite? || x == NegZero
    ensures x == NegZero ==> r == 0
    ensures x.Finite? ==> r == x.v
  {
    if x == NegZero then 0 else x.v
  }

  /**
   * `Math.ceil(o / l)` where both operands came from `Number`: NaN spreads,
   * and dividing by -0 gives the infinity of the opposite sign to the one a
   * division by +0 gives. A dividend -0 divides as 0.
   */
  function CeilQuotient(o: Number, l: Number): (r: Number)
    requires IsRead(o) && IsRead(l)
    ensures o == NaN || l == NaN ==> r == NaN
    ensures o != NaN && l.Finite? ==> r == DivideThenCeil(IntValue(o), l.v)
    ensures o != NaN && l == NegZero ==> (
      && (r == NegInfinity <==> IntValue(o) > 0)
      && (r == PosInfinity <==> IntValue(o) < 0)
      && (r == NaN <==> IntValue(o) == 0))
  {
    if o == NaN || l == NaN then NaN
    else if l == NegZero then
      (if IntValue(o) > 0 then NegInfinity else if IntValue(o) < 0 then PosInfinity else NaN)
    else DivideThenCeil(IntValue(o), l.v)
  }

  /** At -0 the two zeros divide differently: 5 / -0 is -Infinity and 5 / 0 is Infinity. */
  lemma SignedZeroDivisor()
    ensures ToNumber("-0") == NegZero && ToNumber("0") == Finite(0)
    ensures CeilQuotient(Finite(5), ToNumber("-0")) == NegInfinity
    ensures CeilQuotient(Finite(5), ToNumber("0")) == PosInfinity
  {
    assert "-0"[1..] == "0";
    assert DigitsValue("0") == 0 by {
      assert "0"[..0] == "";
    }
  }

  /** JavaScript truthiness of a number: false for either zero and NaN. */
  predicate Truthy(x: Number)
  {
    x != NaN && x != Finite(0) && x != NegZero
  }
}
