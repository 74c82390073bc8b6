/** The Lennard-Jones pair potential of `lennard_jones`
    (Analysis_of_Cutoff_Points.py), over exact reals. */
module LennardJones {
  import opened Powers
  import opened ExtReals

  /** Separations below this are not evaluated: the potential is reported infinite. */
  const MinSeparation: real := 0.01
  /** Default well depth and characteristic length (reduced units). */
  const DefaultEpsilon: real := 1.0
  const DefaultSigma: real := 1.0

  /** V(r) = 4 eps ((sigma/r)^12 - (sigma/r)^6), or infinity when r is below
      the threshold, whatever eps and sigma are. */
  function Potential(r: real, epsilon: real, sigma: real): (e: Extended)
    ensures e.Inf? <==> r < MinSeparation
    ensures r >= MinSeparation ==>
      e == Val(4.0 * epsilon * (Pow(sigma / r, 12) - Pow(sigma / r, 6)))
  {
    if r < MinSeparation then Inf
    else
      var sr6 := Pow(sigma / r, 6);
      PowAdd(sigma / r, 6, 6);
      Val(4.0 * epsilon * (sr6 * sr6 - sr6))
  }

  /** The potential with the default parameters, `lennard_jones(r)`. */
  function ReducedPotential(r: real): (e: Extended)
    ensures e.Inf? <==> r < MinSeparation
    ensures r >= MinSeparation ==> e == Val(4.0 * (Pow(1.0 / r, 12) - Pow(1.0 / r, 6)))
  {
    Potential(r, DefaultEpsilon, DefaultSigma)
  }

  /** The potential crosses zero at r = sigma, for any well depth. */
  lemma ZeroAtSigma(epsilon: real, sigma: real)
    requires sigma >= MinSeparation
    ensures Potential(sigma, epsilon, sigma) == Val(0.0)
  {
    assert sigma / sigma == 1.0;
    PowOfOne(6);
  }

  lemma ReducedZeroAtOne()
    ensures ReducedPotential(1.0) == Val(0.0)
  {
  }

  /** Beyond sigma the potential is attractive (negative). */
  lemma AttractiveBeyondSigma(r: real, epsilon: real, sigma: real)
    requires epsilon > 0.0 && sigma > 0.0
    requires r > sigma && r >= MinSeparation
    ensures Potential(r, epsilon, sigma).Val?
    ensures Potential(r, epsilon, sigma).v < 0.0
  {
    var s := sigma / r;
    assert 0.0 < s < 1.0;
    PowBelowOne(s, 6);
    PowAdd(s, 6, 6);
    var s6 := Pow(s, 6);
    assert s6 * s6 < s6 by {
      assert s6 * (1.0 - s6) > 0.0;
    }
  }

  /** Between the threshold and sigma the potential is repulsive (positive). */
  lemma RepulsiveInsideSigma(r: real, epsilon: real, sigma: real)
    requires epsilon > 0.0 && sigma > 0.0
    requires MinSeparation <= r < sigma
    ensures Potential(r, epsilon, sigma).Val?
    ensures Potential(r, epsilon, sigma).v > 0.0
  {
    var s := sigma / r;
    assert s > 1.0;
    PowAboveOne(s, 6);
    PowAdd(s, 6, 6);
    var s6 := Pow(s, 6);
    assert s6 * s6 > s6 by {
      assert s6 * (s6 - 1.0) > 0.0;
    }
  }

  /** The potential is linear in the well depth. */
  lemma LinearInEpsilon(r: real, epsilon: real, sigma: real)
    requires r >= MinSeparation
    ensures Potential(r, epsilon, sigma).v == epsilon * Potential(r, 1.0, sigma).v
  {
  }
}
