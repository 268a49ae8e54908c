/** IEEE-754 binary64 values as the library's arithmetic uses them: NaN, the
    two infinities and finite values. Finite values are exact reals: rounding
    and the sign of zero are not modelled. The operations follow the IEEE
    rules for NaN and the infinities, and `Min`/`Max` follow Rust's `f64::min`
    and `f64::max`, which ignore a NaN operand. */
module Float {

  datatype F64 = NaN | NegInf | PosInf | Fin(v: real)

  predicate IsNaN(a: F64) { a.NaN? }

  /** Position in the order NegInf < finite < PosInf (meaningless for NaN). */
  function Rank(a: F64): int
  {
    match a
    case NegInf => -1
    case PosInf => 1
    case _ => 0
  }

  /** IEEE `<`: false whenever either operand is NaN. */
  predicate Lt(a: F64, b: F64)
  {
    !a.NaN? && !b.NaN? &&
    (Rank(a) < Rank(b) || (a.Fin? && b.Fin? && a.v < b.v))
  }

  /** IEEE `<=`: false whenever either operand is NaN. */
  predicate Le(a: F64, b: F64)
  {
    Lt(a, b) || (!a.NaN? && a == b)
  }

  /** IEEE `==`: NaN equals nothing, not even itself. */
  predicate Eq(a: F64, b: F64)
  {
    !a.NaN? && a == b
  }

  function Neg(a: F64): (r: F64)
    ensures IsNaN(r) <==> IsNaN(a)
  {
    match a
    case NaN => NaN
    case NegInf => PosInf
    case PosInf => NegInf
    case Fin(x) => Fin(-x)
  }

  function Add(a: F64, b: F64): (r: F64)
    ensures a.Fin? && b.Fin? ==> r == Fin(a.v + b.v)
    ensures (a.NaN? || b.NaN?) ==> r.NaN?
  {
    match (a, b)
    case (NaN, _) => NaN
    case (_, NaN) => NaN
    case (PosInf, NegInf) => NaN
    case (NegInf, PosInf) => NaN
    case (PosInf, _) => PosInf
    case (NegInf, _) => NegInf
    case (_, PosInf) => PosInf
    case (_, NegInf) => NegInf
    case (Fin(x), Fin(y)) => Fin(x + y)
  }

  function Sub(a: F64, b: F64): F64
  {
    Add(a, Neg(b))
  }

  /** -1, 0 or 1 (0 for NaN). */
  function Sign(a: F64): int
  {
    match a
    case NaN => 0
    case NegInf => -1
    case PosInf => 1
    case Fin(x) => if x < 0.0 then -1 else if x > 0.0 then 1 else 0
  }

  function SignedInf(s: int): F64
  {
    if s < 0 then NegInf else PosInf
  }

  function Mul(a: F64, b: F64): (r: F64)
    ensures a.Fin? && b.Fin? ==> r == Fin(a.v * b.v)
    ensures (a.NaN? || b.NaN?) ==> r.NaN?
  {
    if a.NaN? || b.NaN? then NaN
    else if a.Fin? && b.Fin? then Fin(a.v * b.v)
    else if Sign(a) == 0 || Sign(b) == 0 then NaN
    else SignedInf(Sign(a) * Sign(b))
  }

  function Div(a: F64, b: F64): (r: F64)
    ensures a.Fin? && b.Fin? && b.v != 0.0 ==> r == Fin(a.v / b.v)
    ensures a == Fin(0.0) && b == Fin(0.0) ==> r.NaN?
  {
    if a.NaN? || b.NaN? then NaN
    else if a.Fin? && b.Fin? then
      if b.v != 0.0 then Fin(a.v / b.v)
      else if a.v == 0.0 then NaN
      else SignedInf(Sign(a))
    else if !a.Fin? && !b.Fin? then NaN
    else if a.Fin? then Fin(0.0)
    else SignedInf(if Sign(b) == 0 then Sign(a) else Sign(a) * Sign(b))
  }

  /** Rust's `f64::min`: the smaller operand; a NaN operand is ignored. */
  function Min(a: F64, b: F64): (r: F64)
    ensures r == a || r == b
    ensures r.NaN? <==> a.NaN? && b.NaN?
    ensures !a.NaN? ==> Le(r, a)
    ensures !b.NaN? ==> Le(r, b)
  {
    if a.NaN? then b
    else if b.NaN? then a
    else if Lt(b, a) then b
    else a
  }

  /** Rust's `f64::max`: the larger operand; a NaN operand is ignored. */
  function Max(a: F64, b: F64): (r: F64)
    ensures r == a || r == b
    ensures r.NaN? <==> a.NaN? && b.NaN?
    ensures !a.NaN? ==> Le(a, r)
    ensures !b.NaN? ==> Le(b, r)
  {
    if a.NaN? then b
    else if b.NaN? then a
    else if Lt(a, b) then b
    else a
  }

  predicate HasNaN(s: seq<F64>)
  {
    exists i :: 0 <= i < |s| && s[i].NaN?
  }

  predicate AllFinite(s: seq<F64>)
  {
    forall i :: 0 <= i < |s| ==> s[i].Fin?
  }

  lemma LeTransitive(a: F64, b: F64, c: F64)
    requires Le(a, b) && Le(b, c)
    ensures Le(a, c)
  {
  }

  lemma LeTotal(a: F64, b: F64)
    requires !a.NaN? && !b.NaN?
    ensures Le(a, b) || Le(b, a)
  {
  }
}
