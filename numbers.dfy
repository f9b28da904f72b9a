// IEEE doubles as the instrument code uses them, and the parts of the C++
// standard library (number <-> text conversion, exp/log) that this model
// takes as parameters rather than defining.

module Numbers {

  datatype Option<T> = None | Some(value: T)

  /** A double without rounding: NaN (the DEFAULT_PARAM "unspecified" sentinel),
    * an infinity, or a real number. Signed zero is not modelled. */
  datatype Double = NaN | Inf(negative: bool) | Num(v: real)

  /** x < y, false whenever either side is NaN. */
  predicate Lt(x: Double, y: Double)
  {
    match (x, y)
    case (Num(a), Num(b)) => a < b
    case (Inf(n), Num(_)) => n
    case (Num(_), Inf(m)) => !m
    case (Inf(n), Inf(m)) => n && !m
    case _ => false
  }

  predicate Gt(x: Double, y: Double) { Lt(y, x) }

  /** x <= y, false whenever either side is NaN. */
  predicate Le(x: Double, y: Double)
  {
    Lt(x, y) || (!x.NaN? && x == y)
  }

  predicate Ge(x: Double, y: Double) { Le(y, x) }

  function Neg(x: Double): Double
  {
    match x
    case NaN => NaN
    case Inf(n) => Inf(!n)
    case Num(a) => Num(-a)
  }

  function Abs(x: Double): (r: Double)
    ensures x.NaN? <==> r.NaN?
    ensures !r.NaN? ==> Le(Num(0.0), r)
  {
    match x
    case NaN => NaN
    case Inf(_) => Inf(false)
    case Num(a) => Num(if a < 0.0 then -a else a)
  }

  function Add(x: Double, y: Double): Double
  {
    match (x, y)
    case (Num(a), Num(b)) => Num(a + b)
    case (Inf(n), Num(_)) => Inf(n)
    case (Num(_), Inf(m)) => Inf(m)
    case (Inf(n), Inf(m)) => if n == m then Inf(n) else NaN
    case _ => NaN
  }

  function Sub(x: Double, y: Double): Double { Add(x, Neg(y)) }

  function Mul(x: Double, y: Double): Double
  {
    match (x, y)
    case (Num(a), Num(b)) => Num(a * b)
    case (Inf(n), Num(b)) => if b == 0.0 then NaN else Inf(n != (b < 0.0))
    case (Num(a), Inf(m)) => if a == 0.0 then NaN else Inf(m != (a < 0.0))
    case (Inf(n), Inf(m)) => Inf(n != m)
    case _ => NaN
  }

  /** IEEE division: a non-zero number over zero is an infinity, 0/0 is NaN. */
  function Div(x: Double, y: Double): (r: Double)
    ensures x.Num? && y.Num? && y.v != 0.0 ==> r == Num(x.v / y.v)
    ensures x.Num? && y.Num? && y.v == 0.0 ==> (r.NaN? <==> x.v == 0.0)
  {
    match (x, y)
    case (Num(a), Num(b)) =>
      if b != 0.0 then Num(a / b)
      else if a == 0.0 then NaN
      else Inf(a < 0.0)
    case (Inf(n), Num(b)) => Inf(n != (b < 0.0))
    case (Num(_), Inf(_)) => Num(0.0)
    case _ => NaN
  }

  function Scale(x: Double, k: real): Double { Mul(x, Num(k)) }

  /** std::to_string(double) and std::stod, which this model leaves undefined. */
  datatype Conversions = Conversions(toString: Double -> string, stod: string -> Double)

  /** exp, natural log and log10 from <cmath>, left undefined except for the
    * facts the sweep needs. */
  datatype MathLib = MathLib(exp: real -> real, ln: real -> real, log10: real -> real)

  ghost predicate Plausible(m: MathLib)
  {
    m.ln(10.0) > 0.0 && forall x: real :: x > 0.0 ==> m.exp(x) > 1.0
  }

  /** log10 extended to the doubles it can meet: log10(0) = -inf, log10(inf) = inf. */
  function Log10(m: MathLib, x: Double): (r: Double)
    ensures x.Num? && x.v > 0.0 ==> r == Num(m.log10(x.v))
    ensures x == Num(0.0) ==> r == Inf(true)
  {
    match x
    case NaN => NaN
    case Inf(n) => if n then NaN else Inf(false)
    case Num(a) => if a > 0.0 then Num(m.log10(a)) else if a == 0.0 then Inf(true) else NaN
  }
}
