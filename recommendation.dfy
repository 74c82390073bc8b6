/** The figures quoted in the closing recommendation of
    `analyze_cutoff_comparison`, checked against the potential itself. */
module Recommendation {
  import opened ExtReals
  import opened LennardJones
  import opened CutoffComparison

  /** A quoted potential (in units of eps, four decimals) and share of the
      well depth (in percent, two decimals). */
  datatype Figure = Figure(potential: real, percent: real)

  /** The figures as the recommendation lines print them. */
  function StatedFigure(cutoff: real): (f: Option<Figure>)
    ensures f.Some? <==> cutoff in StandardCutoffs
  {
    if cutoff == 2.0 then Some(Figure(-0.0615, 6.15))
    else if cutoff == 2.5 then Some(Figure(-0.0163, 1.63))
    else if cutoff == 3.0 then Some(Figure(-0.0067, 0.67))
    else None
  }

  /** The figures the formula gives, rounded to the same decimals. */
  function CorrectedFigure(cutoff: real): (f: Option<Figure>)
    ensures f.Some? <==> cutoff in StandardCutoffs
    ensures f.Some? && cutoff != 3.0 ==> f == StatedFigure(cutoff)
  {
    if cutoff == 2.0 then Some(Figure(-0.0615, 6.15))
    else if cutoff == 2.5 then Some(Figure(-0.0163, 1.63))
    else if cutoff == 3.0 then Some(Figure(-0.0055, 0.55))
    else None
  }

  /** x shown as `shown` with rounding unit `unit` is within half a unit of it. */
  predicate RoundsTo(x: real, shown: real, unit: real)
  {
    shown - unit / 2.0 <= x <= shown + unit / 2.0
  }

  /** A figure is faithful at a cutoff when both of its numbers are the
      reduced potential and its share, correctly rounded. */
  predicate Faithful(f: Figure, cutoff: real)
  {
    var v := ReducedPotential(cutoff);
    var p := Percentage(v, DefaultEpsilon);
    && v.Val? && p.Some? && p.value.Val?
    && RoundsTo(v.v, f.potential, 0.0001)
    && RoundsTo(p.value.v, f.percent, 0.01)
  }

  /** The quoted figures for 2.0 and 2.5 sigma are right; the one for 3.0
      sigma is not, and is off by more than 0.001 eps. */
  lemma StatedThreeSigmaFigureIsWrong()
    ensures Faithful(StatedFigure(2.0).value, 2.0)
    ensures Faithful(StatedFigure(2.5).value, 2.5)
    ensures !Faithful(StatedFigure(3.0).value, 3.0)
    ensures StatedFigure(3.0).value.potential - ReducedPotential(3.0).v < -0.001
  {
  }

  /** Every corrected figure is the formula's value, correctly rounded. */
  lemma CorrectedFiguresAreFaithful(cutoff: real)
    requires cutoff in StandardCutoffs
    ensures CorrectedFigure(cutoff).Some?
    ensures Faithful(CorrectedFigure(cutoff).value, cutoff)
  {
  }
}
