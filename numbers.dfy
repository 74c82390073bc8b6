/** Natural-number powers of reals, the `x**n` of the analysis script, with the
    algebraic facts the potential and the cost estimate rely on. */
module Powers {

  /** x raised to the natural power n. */
  function Pow(x: real, n: nat): (p: real)
  {
    if n == 0 then 1.0 else x * Pow(x, n - 1)
  }

  lemma {:induction false} PowAdd(x: real, a: nat, b: nat)
    ensures Pow(x, a + b) == Pow(x, a) * Pow(x, b)
  {
    if a > 0 {
      PowAdd(x, a - 1, b);
      assert Pow(x, a + b) == x * Pow(x, (a - 1) + b);
    }
  }

  lemma {:induction false} PowMulBase(x: real, y: real, n: nat)
    ensures Pow(x * y, n) == Pow(x, n) * Pow(y, n)
  {
    if n > 0 {
      PowMulBase(x, y, n - 1);
      var a, b := Pow(x, n - 1), Pow(y, n - 1);
      assert Pow(x * y, n) == (x * y) * (a * b);
      assert (x * y) * (a * b) == (x * a) * (y * b);
    }
  }

  lemma {:induction false} PowOfOne(n: nat)
    ensures Pow(1.0, n) == 1.0
  {
    if n > 0 {
      PowOfOne(n - 1);
    }
  }

  lemma {:induction false} PowPositive(x: real, n: nat)
    requires x > 0.0
    ensures Pow(x, n) > 0.0
  {
    if n > 0 {
      PowPositive(x, n - 1);
      assert x * Pow(x, n - 1) > 0.0;
    }
  }

  /** Powers are strictly increasing on the non-negative reals. */
  lemma {:induction false} PowStrictlyIncreasing(x: real, y: real, n: nat)
    requires 0.0 <= x < y
    requires n >= 1
    ensures Pow(x, n) < Pow(y, n)
  {
    if n == 1 {
      assert Pow(x, 1) == x && Pow(y, 1) == y;
    } else {
      PowStrictlyIncreasing(x, y, n - 1);
      var px, py := Pow(x, n - 1), Pow(y, n - 1);
      PowPositive(y, n - 1);
      assert x * px <= x * py by {
        assert x * (py - px) >= 0.0;
      }
      assert x * py < y * py by {
        assert (y - x) * py > 0.0;
      }
    }
  }

  /** A positive base below one stays strictly between zero and one. */
  lemma PowBelowOne(x: real, n: nat)
    requires 0.0 < x < 1.0
    requires n >= 1
    ensures 0.0 < Pow(x, n) < 1.0
  {
  }

  /** A base above one gives a power strictly above one. */
  lemma PowAboveOne(x: real, n: nat)
    requires x > 1.0
    requires n >= 1
    ensures Pow(x, n) > 1.0
  {
  }
}

/** Reals extended with the positive-infinity sentinel that the potential
    returns for separations below its threshold (`float('inf')`). */
module ExtReals {

  datatype Extended = Inf | Val(v: real)

  function AbsReal(x: real): (r: real)
    ensures r >= 0.0 && (r == x || r == -x)
  {
    if x < 0.0 then -x else x
  }

  /** `abs(...)` on a float that may be the infinity sentinel. */
  function Abs(e: Extended): (r: Extended)
    ensures r.Inf? <==> e.Inf?
    ensures r.Val? ==> r.v >= 0.0 && (r.v == e.v || r.v == -e.v)
  {
    match e
    case Inf => Inf
    case Val(x) => Val(AbsReal(x))
  }

  /** The order of the extended reals: every real lies below infinity. */
  predicate AtMost(a: Extended, b: Extended)
  {
    b.Inf? || (a.Val? && a.v <= b.v)
  }
}
