# Lennard-Jones cutoff analysis, modelled in Dafny

`Analysis_of_Cutoff_Points.py` evaluates the Lennard-Jones pair potential
V(r) = 4ε((σ/r)^12 − (σ/r)^6). It samples V over ranges of distances and
compares three truncation radii (2.0σ, 2.5σ and 3.0σ). For each radius it
gives the residual potential, that potential as a percentage of the well
depth ε, a significance tier, a neighbour-count estimate and the search cost
relative to a reference cutoff. This project models that numerical
procedure over exact reals and proves what it computes.

- `numbers.dfy`: module `Powers` (natural powers of reals and their algebra)
  and module `ExtReals`. `ExtReals` holds `Extended = Inf | Val(v)`, the reals
  together with the `float('inf')` sentinel, plus `abs` and the order on them.
- `lennard_jones.dfy`: module `LennardJones`, which models `lennard_jones`. It
  covers the infinity clamp below 0.01, the closed form, the zero at r = σ,
  the sign on either side of σ, and linearity in ε.
- `cutoff_comparison.dfy`: module `CutoffComparison`, the numerical part of
  `analyze_cutoff_comparison` and `computational_scaling_demo`. It covers
  the percentage of the well depth, the tier chain, relative cost, the
  neighbour estimate, the sampled curves, the per-cutoff report rows, and
  the exact values at the standard cutoffs.
- `recommendation.dfy`: module `Recommendation`, which checks the figures
  printed in the closing recommendation against the formula (see Findings).

Everything is a pure function because the source is pure: each list
comprehension becomes a recursive map over a given sequence, and the
if/elif chain becomes a decision function. Python's `ZeroDivisionError` for
`potential / epsilon` with ε = 0 is modelled as `None`. In the script, ε
and σ are the locals 1.0 and 1.0. The model takes them as parameters and
proves the script's case as an instance.

With ε = σ = 1 the exact values are:

- V(2.0) = −63/1024, tier High;
- V(2.5) = −3983616/244140625, tier Moderate;
- V(3.0) = −2912/531441 ≈ −0.00548, which is 0.548%, tier Negligible.

The recommendation text at line 147 prints −0.0067ε (0.67%) for 3.0σ. The
formula on lines 9-10 does not give that figure, and the model follows the
formula. The tier is Negligible either way.

## Model

| member | source | states |
|---|---|---|
| `LennardJones.Potential` | Analysis_of_Cutoff_Points.py:5-10 | infinite exactly when r < 0.01, whatever ε and σ are; otherwise finite and equal to 4ε((σ/r)^12 − (σ/r)^6) |
| `LennardJones.ReducedPotential` | Analysis_of_Cutoff_Points.py:5 | the defaults ε = σ = 1 of `lennard_jones(r)`: infinite exactly when r < 0.01, otherwise 4((1/r)^12 − (1/r)^6) |
| `LennardJones.ZeroAtSigma` | Analysis_of_Cutoff_Points.py:9-10 | V(σ) = 0 for every ε, provided σ ≥ 0.01 |
| `LennardJones.ReducedZeroAtOne` | Analysis_of_Cutoff_Points.py:5-10 | with the default parameters, lennard_jones(1.0) = 0 |
| `LennardJones.AttractiveBeyondSigma` | Analysis_of_Cutoff_Points.py:9-10 | for ε, σ > 0 and r > σ (r ≥ 0.01), V(r) is finite and negative |
| `LennardJones.RepulsiveInsideSigma` | Analysis_of_Cutoff_Points.py:9-10 | for ε, σ > 0 and 0.01 ≤ r < σ, V(r) is finite and positive |
| `LennardJones.LinearInEpsilon` | Analysis_of_Cutoff_Points.py:10 | for r ≥ 0.01, V(r; ε, σ) = ε · V(r; 1, σ); below 0.01 the potential is infinite for every ε (stated by `Potential`), and no identity is claimed there |
| `CutoffComparison.Percentage` | Analysis_of_Cutoff_Points.py:116-117 | fails exactly when ε = 0; infinite exactly when V is; otherwise a non-negative p with p·abs(ε) = 100·abs(V) |
| `CutoffComparison.PercentageIndependentOfEpsilon` | Analysis_of_Cutoff_Points.py:80-81 | for any two non-zero well depths, the percentage of the well depth at a distance is the same |
| `CutoffComparison.Classify` | Analysis_of_Cutoff_Points.py:119-126 | High iff p > 5 or infinite; Significant iff 2 < p ≤ 5; Moderate iff 1 < p ≤ 2; Negligible iff p ≤ 1 |
| `CutoffComparison.ClassifyBoundaries` | Analysis_of_Cutoff_Points.py:119-126 | the thresholds are strict: 5.0 is Significant, 2.0 is Moderate, 1.0 and 0.0 are Negligible |
| `CutoffComparison.ClassifyMonotone` | Analysis_of_Cutoff_Points.py:119-126 | if p ≤ q (infinity on top), the tier of p ranks no higher than the tier of q |
| `CutoffComparison.RelativeCost` | Analysis_of_Cutoff_Points.py:139 | the cost c satisfies c · reference³ = cutoff³ |
| `CutoffComparison.RelativeCostAtReference` | Analysis_of_Cutoff_Points.py:139 | the cost of the reference cutoff itself is exactly 1 |
| `CutoffComparison.RelativeCostOfStandardCutoffs` | Analysis_of_Cutoff_Points.py:135-139 | relative to 2.0 the costs of 2.0, 2.5 and 3.0 are 1, 125/64 and 27/8; relative to 2.5 the cost of 2.5 is 1 |
| `CutoffComparison.RelativeCostStrictlyIncreasing` | Analysis_of_Cutoff_Points.py:156 | for a positive reference and 0 < c1 < c2, cost(c1) < cost(c2) |
| `CutoffComparison.NeighborEstimate` | Analysis_of_Cutoff_Points.py:137-138 | (4/3)·π·cutoff³·0.8 with π a free parameter; its contract says only that the estimate is non-negative for π ≥ 0 and cutoff ≥ 0, and `NeighborsScaleLikeCost` is its one stated relation |
| `CutoffComparison.NeighborsScaleLikeCost` | Analysis_of_Cutoff_Points.py:137-139 | the neighbour estimate at a cutoff is its relative cost times the estimate at the reference |
| `CutoffComparison.PotentialCurve` | Analysis_of_Cutoff_Points.py:23 | same length as the samples, and element i is V at sample i (also the tail curve at line 55) |
| `CutoffComparison.MagnitudeCurve` | Analysis_of_Cutoff_Points.py:155 | same length as the samples, and element i is abs(V) at sample i with the default parameters |
| `CutoffComparison.CostCurve` | Analysis_of_Cutoff_Points.py:156 | same length as the samples, and element i is the relative cost of sample i |
| `CutoffComparison.CurveFinite` | Analysis_of_Cutoff_Points.py:20-23 | samples all at or above a bound ≥ 0.01 give only finite potentials and finite non-negative magnitudes |
| `CutoffComparison.SampledRangesFinite` | Analysis_of_Cutoff_Points.py:20-155 | samples all at or above one of the range starts 0.9 (line 20), 2.0 (line 54) or 1.8 (line 154) give only finite potentials and finite non-negative magnitudes |
| `CutoffComparison.CurveAttractiveBeyondSigma` | Analysis_of_Cutoff_Points.py:54-55 | for ε > 0 and σ > 0, samples all beyond σ and at or above 0.01 (such as the tail from 2.0σ with σ = 1) give only finite negative potentials |
| `CutoffComparison.CostCurveIncreasing` | Analysis_of_Cutoff_Points.py:154-156 | for a positive reference, positive strictly increasing samples give strictly increasing costs |
| `CutoffComparison.CompareCutoff` | Analysis_of_Cutoff_Points.py:115-139 | a row exists exactly when ε ≠ 0; it holds the cutoff, V there, its percentage, the tier of that percentage, the neighbour estimate and the cost relative to 2.0 |
| `CutoffComparison.Report` | Analysis_of_Cutoff_Points.py:78-139 | fails exactly when ε = 0 and there is a cutoff; otherwise one row per cutoff (potential, percentage, tier, neighbours, cost), in the cutoffs' own order; it takes any list, whereas the source zips its cutoffs with three labels and so reports at most three |
| `CutoffComparison.StandardCutoffValues` | Analysis_of_Cutoff_Points.py:26 | with ε = σ = 1, V(2.0) = −63/1024 (High), V(2.5) = −3983616/244140625 (Moderate), V(3.0) = −2912/531441 (Negligible) |
| `CutoffComparison.StandardReport` | Analysis_of_Cutoff_Points.py:115-139 | the report for [2.0, 2.5, 3.0] has three rows: tiers High, Moderate, Negligible and costs 1, 125/64, 27/8 |
| `Recommendation.StatedFigure` | Analysis_of_Cutoff_Points.py:145-147 | a figure is quoted exactly for the three standard cutoffs 2.0, 2.5 and 3.0; the figures themselves are the printed literals, which `StatedThreeSigmaFigureIsWrong` checks |
| `Recommendation.CorrectedFigure` | Analysis_of_Cutoff_Points.py:145-147 | a figure exists exactly for the three standard cutoffs, and it is the printed one except at 3.0σ; that the figures are correct is `CorrectedFiguresAreFaithful` |
| `Recommendation.StatedThreeSigmaFigureIsWrong` | Analysis_of_Cutoff_Points.py:145-147 | the printed figures for 2.0σ and 2.5σ are the formula's values correctly rounded; the 3.0σ figure is not, and is off by more than 0.001ε |
| `Recommendation.CorrectedFiguresAreFaithful` | Analysis_of_Cutoff_Points.py:145-147 | every corrected figure is the formula's potential to four decimals and its percentage to two |

## Left out

- Plotting, the matplotlib table and its colour coding, axis limits and all console formatting (lines 31-106, 109-149 and 158-183): this is presentation over a foreign library. Of the printed text, only the numbers of the recommendation lines are modelled.
- `np.linspace` (lines 20, 54 and 154): the sample distances are a parameter of the curve functions. The property that linspace samples are increasing and lie in the stated range is taken as a hypothesis of the curve lemmas.
- π in the neighbour estimate (line 137): it is irrational, so `NeighborEstimate` takes it as a parameter.
- IEEE-754 floating point: rounding, overflow of `sr6**2`, NaN, and the fact that the literal 0.01 is not exactly one hundredth. Everything is exact real arithmetic, and `float('inf')` is the constructor `Inf`.
- CutoffComparison.RelativeCost: requires a non-zero reference instead of modelling Python's `ZeroDivisionError`. The source only divides by the constants 2.0 and 2.5.
- CutoffComparison.Report: accepts a list of any length. In the source, `zip` with the three labels at lines 115 and 135 drops any cutoff beyond the third; this makes no difference for the fixed list at line 26.
- The well minimum −ε at 2^(1/6)σ: it involves an irrational root and the code never uses it.

## Findings

| source | as written | input that shows it | evidently intended | confidence | as-written member | corrected member |
|---|---|---|---|---|---|---|
| Analysis_of_Cutoff_Points.py:147 | the recommendation prints "potential = -0.0067ε (0.67%)" for the 3.0σ cutoff | cutoff 3.0 with ε = σ = 1: lines 9-10 give −2912/531441 ≈ −0.00548, which is 0.548% | "-0.0055ε (0.55%)", the formula's value rounded as on the other two lines | not executed; follows from exact arithmetic | `Recommendation.StatedFigure`, `Recommendation.StatedThreeSigmaFigureIsWrong` | `Recommendation.CorrectedFigure`, `Recommendation.CorrectedFiguresAreFaithful` |
