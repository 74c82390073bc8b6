/** The numerical part of `analyze_cutoff_comparison` and
    `computational_scaling_demo` (Analysis_of_Cutoff_Points.py): the potential
    sampled over distances, the share of the well depth and its significance
    tier at each cutoff, and the neighbour and cost estimates. */
module CutoffComparison {
  import opened Powers
  import opened ExtReals
  import opened LennardJones

  datatype Option<T> = None | Some(value: T)

  /** Significance of a cutoff's residual potential, lowest first. */
  datatype Tier = Negligible | Moderate | Significant | High

  /** Exclusive lower bounds of the tiers, in percent of the well depth. */
  const HighThreshold: real := 5.0
  const SignificantThreshold: real := 2.0
  const ModerateThreshold: real := 1.0

  /** The cutoffs compared, in report order. */
  const StandardCutoffs: seq<real> := [2.0, 2.5, 3.0]
  /** Reference cutoff of the comparison's cost lines and of the scaling demo. */
  const AnalysisReference: real := 2.0
  const ScalingReference: real := 2.5
  /** Number density used for the neighbour estimate (a typical liquid). */
  const Density: real := 0.8
  /** Lower ends of the sampled ranges: full curve, zoomed tail, scaling demo. */
  const FullRangeStart: real := 0.9
  const TailStart: real := 2.0
  const ScalingStart: real := 1.8

  function Rank(t: Tier): (k: nat)
  {
    match t
    case Negligible => 0
    case Moderate => 1
    case Significant => 2
    case High => 3
  }

  // ---------------------------------------------------------------------------
  // Percentage of the well depth and its tier

  /** `abs(potential / epsilon) * 100`; None is the ZeroDivisionError that a
      zero well depth raises. An infinite potential gives an infinite share. */
  function Percentage(potential: Extended, epsilon: real): (p: Option<Extended>)
    ensures p.None? <==> epsilon == 0.0
    ensures p.Some? ==> (p.value.Inf? <==> potential.Inf?)
    ensures p.Some? && potential.Val? ==>
      p.value.v >= 0.0 && p.value.v * AbsReal(epsilon) == 100.0 * AbsReal(potential.v)
  {
    if epsilon == 0.0 then None
    else
      match potential
      case Inf => Some(Inf)
      case Val(x) =>
        var q := x / epsilon;
        assert q * epsilon == x;
        assert AbsReal(q) * AbsReal(epsilon) == AbsReal(x) by {
          AbsOfProduct(q, epsilon);
        }
        Some(Val(AbsReal(q) * 100.0))
  }

  lemma AbsOfProduct(a: real, b: real)
    ensures AbsReal(a * b) == AbsReal(a) * AbsReal(b)
  {
  }

  /** The if/elif chain: the first strict threshold exceeded, from the top. */
  function Classify(p: Extended): (t: Tier)
    ensures t == High <==> (p.Inf? || p.v > 5.0)
    ensures t == Significant <==> (p.Val? && 2.0 < p.v <= 5.0)
    ensures t == Moderate <==> (p.Val? && 1.0 < p.v <= 2.0)
    ensures t == Negligible <==> (p.Val? && p.v <= 1.0)
  {
    match p
    case Inf => High
    case Val(x) =>
      if x > HighThreshold then High
      else if x > SignificantThreshold then Significant
      else if x > ModerateThreshold then Moderate
      else Negligible
  }

  /** The thresholds are exclusive: a share exactly on one falls in the tier below. */
  lemma ClassifyBoundaries()
    ensures Classify(Val(5.0)) == Significant
    ensures Classify(Val(2.0)) == Moderate
    ensures Classify(Val(1.0)) == Negligible
    ensures Classify(Val(0.0)) == Negligible
  {
  }

  /** A larger share never gets a lower tier. */
  lemma ClassifyMonotone(p: Extended, q: Extended)
    requires AtMost(p, q)
    ensures Rank(Classify(p)) <= Rank(Classify(q))
  {
  }

  /** Since the potential is linear in the well depth, its share of the well
      depth does not depend on the well depth. */
  lemma PercentageIndependentOfEpsilon(r: real, e1: real, e2: real, sigma: real)
    requires e1 != 0.0 && e2 != 0.0
    ensures Percentage(Potential(r, e1, sigma), e1) == Percentage(Potential(r, e2, sigma), e2)
  {
    if r >= MinSeparation {
      var reduced := Potential(r, 1.0, sigma).v;
      LinearInEpsilon(r, e1, sigma);
      LinearInEpsilon(r, e2, sigma);
      assert Potential(r, e1, sigma) == Val(e1 * reduced);
      assert Potential(r, e2, sigma) == Val(e2 * reduced);
      ScaledShare(e1, reduced);
      ScaledShare(e2, reduced);
    }
  }

  /** Dividing a value scaled by the well depth by that well depth recovers it. */
  lemma ScaledShare(epsilon: real, x: real)
    requires epsilon != 0.0
    ensures Percentage(Val(epsilon * x), epsilon) == Some(Val(AbsReal(x) * 100.0))
  {
  }

  // ---------------------------------------------------------------------------
  // Cost and neighbour estimates

  /** `(cutoff / reference)**3`: the searched volume relative to the reference's. */
  function RelativeCost(cutoff: real, reference: real): (c: real)
    requires reference != 0.0
    ensures c * Pow(reference, 3) == Pow(cutoff, 3)
  {
    var ratio := cutoff / reference;
    assert ratio * reference == cutoff;
    PowMulBase(ratio, reference, 3);
    Pow(ratio, 3)
  }

  lemma RelativeCostAtReference(reference: real)
    requires reference != 0.0
    ensures RelativeCost(reference, reference) == 1.0
  {
    assert reference / reference == 1.0;
    PowOfOne(3);
  }

  lemma RelativeCostOfStandardCutoffs()
    ensures RelativeCost(2.0, AnalysisReference) == 1.0
    ensures RelativeCost(2.5, AnalysisReference) == 125.0 / 64.0
    ensures RelativeCost(3.0, AnalysisReference) == 27.0 / 8.0
    ensures RelativeCost(2.5, ScalingReference) == 1.0
  {
  }

  /** For a positive reference, a longer cutoff always costs strictly more. */
  lemma RelativeCostStrictlyIncreasing(c1: real, c2: real, reference: real)
    requires reference > 0.0
    requires 0.0 < c1 < c2
    ensures RelativeCost(c1, reference) < RelativeCost(c2, reference)
  {
    assert c1 / reference < c2 / reference by {
      assert c2 / reference - c1 / reference == (c2 - c1) / reference;
    }
    PowStrictlyIncreasing(c1 / reference, c2 / reference, 3);
  }

  /** `(4/3) * pi * cutoff**3 * density`: particles expected inside the cutoff
      sphere; pi is taken as a parameter. */
  function NeighborEstimate(cutoff: real, pi: real): (n: real)
    ensures pi >= 0.0 && cutoff >= 0.0 ==> n >= 0.0
  {
    assert cutoff > 0.0 ==> Pow(cutoff, 3) > 0.0 by {
      if cutoff > 0.0 { PowPositive(cutoff, 3); }
    }
    (4.0 / 3.0) * pi * Pow(cutoff, 3) * Density
  }

  /** The relative cost is exactly the ratio of the neighbour estimates. */
  lemma NeighborsScaleLikeCost(cutoff: real, reference: real, pi: real)
    requires reference != 0.0
    ensures NeighborEstimate(cutoff, pi) == RelativeCost(cutoff, reference) * NeighborEstimate(reference, pi)
  {
  }

  // ---------------------------------------------------------------------------
  // Sampled curves (the distances are given, not generated)

  /** `[lennard_jones(r, epsilon, sigma) for r in rs]`. */
  function PotentialCurve(rs: seq<real>, epsilon: real, sigma: real): (vs: seq<Extended>)
    ensures |vs| == |rs|
    ensures forall i :: 0 <= i < |rs| ==> vs[i] == Potential(rs[i], epsilon, sigma)
  {
    if rs == [] then [] else [Potential(rs[0], epsilon, sigma)] + PotentialCurve(rs[1..], epsilon, sigma)
  }

  /** `[abs(lennard_jones(r)) for r in rs]`. */
  function MagnitudeCurve(rs: seq<real>): (vs: seq<Extended>)
    ensures |vs| == |rs|
    ensures forall i :: 0 <= i < |rs| ==> vs[i] == Abs(ReducedPotential(rs[i]))
  {
    if rs == [] then [] else [Abs(ReducedPotential(rs[0]))] + MagnitudeCurve(rs[1..])
  }

  /** `[(r / reference)**3 for r in rs]`. */
  function CostCurve(rs: seq<real>, reference: real): (cs: seq<real>)
    requires reference != 0.0
    ensures |cs| == |rs|
    ensures forall i :: 0 <= i < |rs| ==> cs[i] == RelativeCost(rs[i], reference)
  {
    if rs == [] then [] else [RelativeCost(rs[0], reference)] + CostCurve(rs[1..], reference)
  }

  /** Samples at or above a point past the threshold never hit the infinity
      sentinel; the sampled ranges start at FullRangeStart, TailStart and
      ScalingStart, all past it (SampledRangesFinite). */
  lemma CurveFinite(rs: seq<real>, lo: real, epsilon: real, sigma: real)
    requires lo >= MinSeparation
    requires forall i :: 0 <= i < |rs| ==> rs[i] >= lo
    ensures forall i :: 0 <= i < |rs| ==> PotentialCurve(rs, epsilon, sigma)[i].Val?
    ensures forall i :: 0 <= i < |rs| ==> MagnitudeCurve(rs)[i].Val? && MagnitudeCurve(rs)[i].v >= 0.0
  {
  }

  /** The full curve, the zoomed tail and the scaling demo sample from 0.9,
      2.0 and 1.8 upward, so none of their values is the infinity sentinel. */
  lemma SampledRangesFinite(rs: seq<real>, start: real, epsilon: real, sigma: real)
    requires start == FullRangeStart || start == TailStart || start == ScalingStart
    requires forall i :: 0 <= i < |rs| ==> rs[i] >= start
    ensures forall i :: 0 <= i < |rs| ==> PotentialCurve(rs, epsilon, sigma)[i].Val?
    ensures forall i :: 0 <= i < |rs| ==> MagnitudeCurve(rs)[i].Val? && MagnitudeCurve(rs)[i].v >= 0.0
  {
    CurveFinite(rs, start, epsilon, sigma);
  }

  /** Every sample beyond sigma (the zoomed tail, for instance) is attractive. */
  lemma CurveAttractiveBeyondSigma(rs: seq<real>, epsilon: real, sigma: real)
    requires epsilon > 0.0 && sigma > 0.0
    requires forall i :: 0 <= i < |rs| ==> rs[i] > sigma && rs[i] >= MinSeparation
    ensures forall i :: 0 <= i < |rs| ==>
      PotentialCurve(rs, epsilon, sigma)[i].Val? && PotentialCurve(rs, epsilon, sigma)[i].v < 0.0
  {
    forall i | 0 <= i < |rs|
      ensures PotentialCurve(rs, epsilon, sigma)[i].Val? && PotentialCurve(rs, epsilon, sigma)[i].v < 0.0
    {
      AttractiveBeyondSigma(rs[i], epsilon, sigma);
    }
  }

  /** Increasing positive cutoffs give strictly increasing costs. */
  lemma CostCurveIncreasing(rs: seq<real>, reference: real)
    requires reference > 0.0
    requires forall i :: 0 <= i < |rs| ==> rs[i] > 0.0
    requires forall i, j :: 0 <= i < j < |rs| ==> rs[i] < rs[j]
    ensures forall i, j :: 0 <= i < j < |rs| ==> CostCurve(rs, reference)[i] < CostCurve(rs, reference)[j]
  {
    var cs := CostCurve(rs, reference);
    forall i, j | 0 <= i < j < |rs|
      ensures cs[i] < cs[j]
    {
      RelativeCostStrictlyIncreasing(rs[i], rs[j], reference);
    }
  }

  // ---------------------------------------------------------------------------
  // The comparison report

  /** One line of the comparison: cutoff, potential there, share of the well
      depth, its tier, estimated neighbours and cost relative to 2.0 sigma. */
  datatype Row = Row(cutoff: real, potential: Extended, percentage: Extended, tier: Tier,
                     neighbors: real, cost: real)

  function CompareCutoff(cutoff: real, epsilon: real, sigma: real, pi: real): (row: Option<Row>)
    ensures row.None? <==> epsilon == 0.0
    ensures row.Some? ==>
      && row.value.cutoff == cutoff
      && row.value.potential == Potential(cutoff, epsilon, sigma)
      && Percentage(row.value.potential, epsilon) == Some(row.value.percentage)
      && row.value.tier == Classify(row.value.percentage)
      && row.value.neighbors == NeighborEstimate(cutoff, pi)
      && row.value.cost == RelativeCost(cutoff, AnalysisReference)
  {
    var v := Potential(cutoff, epsilon, sigma);
    match Percentage(v, epsilon)
    case None => None
    case Some(p) =>
      Some(Row(cutoff, v, p, Classify(p), NeighborEstimate(cutoff, pi), RelativeCost(cutoff, AnalysisReference)))
  }

  /** The rows for a list of cutoffs, in the list's own order; the division by
      a zero well depth fails the whole report. */
  function Report(cutoffs: seq<real>, epsilon: real, sigma: real, pi: real): (rows: Option<seq<Row>>)
    ensures rows.None? <==> (epsilon == 0.0 && |cutoffs| > 0)
    ensures rows.Some? ==> |rows.value| == |cutoffs|
    ensures rows.Some? ==>
      forall i :: 0 <= i < |cutoffs| ==> CompareCutoff(cutoffs[i], epsilon, sigma, pi) == Some(rows.value[i])
  {
    if cutoffs == [] then Some([])
    else
      match CompareCutoff(cutoffs[0], epsilon, sigma, pi)
      case None => None
      case Some(row) =>
        match Report(cutoffs[1..], epsilon, sigma, pi)
        case None => None
        case Some(rest) => Some([row] + rest)
  }

  // ---------------------------------------------------------------------------
  // Exact values at the standard cutoffs (eps = sigma = 1)

  lemma StandardCutoffValues()
    ensures ReducedPotential(2.0) == Val(-63.0 / 1024.0)
    ensures ReducedPotential(2.5) == Val(-3983616.0 / 244140625.0)
    ensures ReducedPotential(3.0) == Val(-2912.0 / 531441.0)
    ensures Classify(Percentage(ReducedPotential(2.0), 1.0).value) == High
    ensures Classify(Percentage(ReducedPotential(2.5), 1.0).value) == Moderate
    ensures Classify(Percentage(ReducedPotential(3.0), 1.0).value) == Negligible
  {
  }

  /** The report for the standard cutoffs, in their order: tiers High,
      Moderate, Negligible and costs 1, 125/64 and 27/8. */
  lemma StandardReport(pi: real)
    ensures Report(StandardCutoffs, DefaultEpsilon, DefaultSigma, pi).Some?
    ensures
      var rows := Report(StandardCutoffs, DefaultEpsilon, DefaultSigma, pi).value;
      && |rows| == 3
      && rows[0].tier == High && rows[1].tier == Moderate && rows[2].tier == Negligible
      && rows[0].cost == 1.0 && rows[1].cost == 125.0 / 64.0 && rows[2].cost == 27.0 / 8.0
  {
  }
}
