/** A Python number as the building network uses it: a `float` for DC
    quantities and a `complex` (P + jQ) for AC quantities. Arithmetic follows
    Python's promotion rule: an operation with a complex operand is complex.
    Floating-point rounding is not modelled (reals are exact). */
module Numbers {

  datatype Num = R(x: real) | C(re: real, im: real)

  function Re(n: Num): real {
    match n
    case R(x) => x
    case C(re, _) => re
  }

  function Im(n: Num): real {
    match n
    case R(_) => 0.0
    case C(_, im) => im
  }

  /** Python `n == 0` (also true for `0j`). */
  predicate IsZero(n: Num) { Re(n) == 0.0 && Im(n) == 0.0 }

  /** `0.0` for DC, `complex(0, 0)` otherwise, as every `get_power` writes it. */
  function ZeroFor(technology: string): (z: Num)
    ensures IsZero(z)
    ensures z.R? <==> technology == "dc"
  {
    if technology == "dc" then R(0.0) else C(0.0, 0.0)
  }

  function Add(a: Num, b: Num): (s: Num)
    ensures Re(s) == Re(a) + Re(b) && Im(s) == Im(a) + Im(b)
    ensures s.R? <==> a.R? && b.R?
  {
    if a.R? && b.R? then R(a.x + b.x) else C(Re(a) + Re(b), Im(a) + Im(b))
  }

  function Neg(a: Num): (n: Num)
    ensures Re(n) == -Re(a) && Im(n) == -Im(a)
    ensures n.R? <==> a.R?
  {
    match a
    case R(x) => R(-x)
    case C(re, im) => C(-re, -im)
  }

  /** Python's `.conjugate()`; a float is its own conjugate. */
  function Conj(a: Num): (c: Num)
    ensures Re(c) == Re(a) && Im(c) == -Im(a)
    ensures c.R? <==> a.R?
  {
    match a
    case R(x) => R(x)
    case C(re, im) => C(re, -im)
  }

  function Mul(a: Num, b: Num): (p: Num)
    ensures Re(p) == Re(a) * Re(b) - Im(a) * Im(b)
    ensures Im(p) == Re(a) * Im(b) + Im(a) * Re(b)
    ensures p.R? <==> a.R? && b.R?
  {
    if a.R? && b.R? then R(a.x * b.x)
    else C(Re(a) * Re(b) - Im(a) * Im(b), Re(a) * Im(b) + Im(a) * Re(b))
  }

  /** Squared magnitude `abs(n) ** 2`, the real part of `n * n.conjugate()`. */
  function Abs2(n: Num): (m: real)
    ensures m >= 0.0
    ensures !IsZero(n) ==> m > 0.0
  {
    ConjProductPositive(n);
    Re(Mul(n, Conj(n)))
  }

  lemma ConjProductPositive(n: Num)
    ensures Re(Mul(n, Conj(n))) >= 0.0
    ensures !IsZero(n) ==> Re(Mul(n, Conj(n))) > 0.0
  {
    if Re(n) < 0.0 { assert Re(n) * Re(Conj(n)) == (-Re(n)) * (-Re(Conj(n))); }
    if Im(n) > 0.0 { assert Im(n) * Im(Conj(n)) == -(Im(n) * Im(n)); }
  }

  /** `P**2 + Q**2`: the squared magnitude written on the parts. */
  function Norm2(n: Num): real
  {
    Re(n) * Re(n) + Im(n) * Im(n)
  }

  /** The two ways of writing `abs(n) ** 2` agree. */
  lemma Abs2IsNorm2(n: Num)
    ensures Abs2(n) == Norm2(n)
  {
    var a, b := Re(n), Im(n);
    var c := Conj(n);
    assert Re(c) == a && Im(c) == -b;
    assert Re(Mul(n, c)) == a * Re(c) - b * Im(c);
    assert b * Im(c) == -(b * b);
  }

  /** Python's `a / b`, defined when `b != 0`: for a complex operand,
      `a * b.conjugate()` scaled by `1 / abs(b) ** 2`. */
  function Div(a: Num, b: Num): (q: Num)
    requires !IsZero(b)
    ensures q.R? <==> a.R? && b.R?
  {
    if a.R? && b.R? then R(a.x / b.x)
    else
      var p := Mul(a, Conj(b));
      C(Re(p) / Abs2(b), Im(p) / Abs2(b))
  }

  /** Dividing and multiplying back by the same non-zero number gives the
      dividend again (in value; a float dividend may come back complex). */
  lemma {:induction false} DivMulInverse(a: Num, b: Num)
    requires !IsZero(b)
    ensures Re(Mul(Div(a, b), b)) == Re(a) && Im(Mul(Div(a, b), b)) == Im(a)
  {
    if a.R? && b.R? {
      assert (a.x / b.x) * b.x == a.x;
    } else {
      var c := Conj(b);
      var p := Mul(a, c);
      DivParts(a, b);
      Cancel(Re(a), Im(a), Re(b), Im(b), Re(c), Im(c), Re(p), Im(p), Abs2(b));
    }
  }

  /** The parts of a complex quotient. */
  lemma DivParts(a: Num, b: Num)
    requires !IsZero(b) && !(a.R? && b.R?)
    ensures Re(Div(a, b)) == Re(Mul(a, Conj(b))) / Abs2(b)
    ensures Im(Div(a, b)) == Im(Mul(a, Conj(b))) / Abs2(b)
  {
  }

  /** The algebra behind `DivMulInverse`: `c` is the conjugate of `b`, `p`
      the product `a * c` and `d` the real part of `b * c`. */
  lemma {:induction false} Cancel(ar: real, ai: real, br: real, bi: real, cr: real, ci: real,
                                  pr: real, pi: real, d: real)
    requires cr == br && ci == -bi && d == br * cr - bi * ci && d != 0.0
    requires pr == ar * cr - ai * ci && pi == ar * ci + ai * cr
    ensures (pr / d) * br - (pi / d) * bi == ar
    ensures (pr / d) * bi + (pi / d) * br == ai
  {
    var qr, qi := pr / d, pi / d;
    assert qr * d == pr && qi * d == pi;
    assert (qr * br - qi * bi) * d == pr * br - pi * bi;
    assert pr * br - pi * bi == ar * d;
    assert (qr * bi + qi * br) * d == pr * bi + pi * br;
    assert pr * bi + pi * br == ai * d;
    MulCancel(qr * br - qi * bi, ar, d);
    MulCancel(qr * bi + qi * br, ai, d);
  }

  lemma MulCancel(x: real, y: real, d: real)
    requires d != 0.0 && x * d == y * d
    ensures x == y
  {
    assert (x - y) * d == 0.0;
  }
}
