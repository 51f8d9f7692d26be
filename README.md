# PMuCorrection: verified model of the CC0pi muon-momentum correction

The class `PMuCorrection` (cc0pi/PMuCorrection.hh) corrects the reconstructed
muon momentum of the CC0pi selection. `correct(p, contained, mu_quality)`
sends contained tracks to `corr_contained` and uncontained tracks to
`corr_uncontained`. Each of those is an ordered if/else chain over the
momentum `p`, where the first match wins. The chosen piece is a hard-coded
quadratic (`poly2`) or cubic (`poly3`), or a placeholder zero. A final
branch prints a diagnostic and aborts.

The model is pure Dafny over `real`:

- `pmu_correction.dfy`, module `PMuCorrection`:
  - the fit constants, kept together in a `Fits` record whose instance `PanosFits` holds the class's values;
  - `Poly2` and `Poly3`;
  - the region chains `RegionContained` and `RegionUncontained`, which return an `Option<Region>`;
  - `Correct`, which returns a `Value` or `OutOfRange`. `OutOfRange` stands for the aborting branch.
- `polynomial.dfy`, module `Polynomial`: Horner evaluation of a coefficient list. It is the reference meaning of `Poly2` and `Poly3`.
- `range_table.dfy`, module `RangeTable`: each chain written as an ordered table of (interval, quality requirement, region) entries, searched first match wins. The tables are proved disjoint and covering, so exactly one guard holds for every input. They are also proved to select the same region as the if/else chains.

Main result: over the reals the guards of both chains cover every momentum,
so the aborting branches cannot be reached. This includes negative momenta,
which are not rejected: they land in the lowest piece. A negative contained
momentum with the quality flag set selects R1 (lines 27-32), so for example
correct(-1.0, true, true) is 28.11.

## Model

| member | source | states |
|---|---|---|
| PMuCorrection.Poly2 | cc0pi/PMuCorrection.hh:74-76 | the result is the polynomial with ascending coefficients A, B, C, evaluated at x (Horner reference `Polynomial.Eval`) |
| PMuCorrection.Poly3 | cc0pi/PMuCorrection.hh:78-80 | the result is the polynomial with ascending coefficients A, B, C, D, evaluated at x (Horner reference `Polynomial.Eval`) |
| PMuCorrection.RegionContained | cc0pi/PMuCorrection.hh:26-47 | the contained chain always selects a region, and that region is one of R0..R3: the out-of-range branch is dead for every real p and either quality flag |
| PMuCorrection.RegionUncontained | cc0pi/PMuCorrection.hh:49-70 | the uncontained chain always selects a region, and that region is one of U0..U3: the out-of-range branch is dead for every real p |
| PMuCorrection.Correct | cc0pi/PMuCorrection.hh:15-105 | never out of range; contained: 0 for p <= 0.2 without quality, 0.59 - 6.89p + 20.63p^2 for p <= 0.2 with quality, 0.03 - 0.010p - 0.014p^2 on (0.2, 1.5), 1.96 - 3.35p + 1.97p^2 - 0.41p^3 from 1.5; uncontained: 0 for p <= 0.2, 0.18 - 0.15p - 0.02p^2 on (0.2, 1.2), -0.98 + 1.63p - 0.73p^2 on [1.2, 2.2), 1.9 - 1.34p + 0.03p^2 from 2.2 |
| PMuCorrection.EvalRegion | cc0pi/PMuCorrection.hh:28-63 | the return expression of each branch (lines 28, 32, 36, 40, 51, 55, 59, 63): the value is the region's fitted polynomial (Horner evaluation of its coefficients), and 0 for the placeholder regions R0 and U0 |
| PMuCorrection.EvalSelected | cc0pi/PMuCorrection.hh:43-46 | the fall-through of a chain: the aborting branch is taken if and only if no guard selected a region |
| PMuCorrection.CorrContainedWith | cc0pi/PMuCorrection.hh:26-47 | corr_contained for any fit parameters: never aborts; 0 for p <= 0.2 without quality, the cR1 quadratic for p <= 0.2 with quality, and for p > 0.2 the cR2 quadratic below 1.5 and the cR3 cubic from 1.5 whatever the quality flag |
| PMuCorrection.CorrUncontainedWith | cc0pi/PMuCorrection.hh:49-70 | corr_uncontained for any fit parameters: never aborts; 0 for p <= 0.2, then the uR1, uR2, uR3 quadratics on (0.2, 1.2), [1.2, 2.2) and from 2.2 |
| PMuCorrection.CorrectWith | cc0pi/PMuCorrection.hh:15-22 | the dispatch of correct on the containment flag, for any fit parameters: it always yields a value, so neither abort branch (lines 43-46, 66-69) is reachable; the lemmas below state its independence from mu_quality and from uR4 |
| PMuCorrection.NegativeMomentumIsLow | cc0pi/PMuCorrection.hh:27-32 | a negative momentum is not rejected: contained tracks get R0 or R1 by the quality flag, uncontained tracks get U0 |
| PMuCorrection.UncontainedIgnoresQuality | cc0pi/PMuCorrection.hh:15-22 | for uncontained tracks the result does not depend on mu_quality |
| PMuCorrection.ContainedQualityOnlyBelowCut | cc0pi/PMuCorrection.hh:35-41 | for contained tracks above 0.2 GeV the result does not depend on mu_quality |
| PMuCorrection.UR4Unused | cc0pi/PMuCorrection.hh:103-105 | replacing the uR4 coefficients by any others changes no output of correct |
| PMuCorrection.Examples | cc0pi/PMuCorrection.hh:15-70 | exact values: correct(1.0, true, true) = 0.006, correct(2.0, true, false) = -0.14, correct(0.1, false, false) = 0, correct(1.5, false, true) = -0.1775, correct(-1.0, true, true) = 28.11 |
| RangeTable.FirstMatch | cc0pi/PMuCorrection.hh:26-47 | the index returned is that of the first matching entry: no earlier entry matches, and the entry at the index matches unless none does |
| RangeTable.DisjointLookup | cc0pi/PMuCorrection.hh:26-47 | in a disjoint table, first-match search returns the region of any matching entry, not only of the first |
| RangeTable.CoveringLookup | cc0pi/PMuCorrection.hh:43-46 | in a covering table, first-match search never fails |
| RangeTable.ContainedPartition | cc0pi/PMuCorrection.hh:27-41 | the four contained guards are pairwise exclusive and together cover every (momentum, quality) pair: exactly one holds |
| RangeTable.UncontainedPartition | cc0pi/PMuCorrection.hh:50-64 | the four uncontained guards are pairwise exclusive and together cover every momentum: exactly one holds |
| RangeTable.ContainedChainIsTable | cc0pi/PMuCorrection.hh:26-47 | the contained if/else chain selects the same region as the first-match table of intervals |
| RangeTable.UncontainedChainIsTable | cc0pi/PMuCorrection.hh:49-70 | the uncontained if/else chain selects the same region as the first-match table of intervals |

## Left out

- IEEE-754 double rounding: arithmetic is exact over `real`, so the stated values are exact and not bit-exact double results.
- NaN inputs: `real` has no NaN. NaN is the only input that reaches the abort branches in the C++ code.
- Infinite momenta: `real` has no infinities. In the C++ code, -inf lands in R0, R1 or U0, and +inf lands in R3 or U3, where the polynomials evaluate to an infinity or to NaN (for R3, -inf + inf).
- The `std::cerr` diagnostic and the process abort through `assert(false)` (lines 44-45, 67-68): I/O and a process-level effect. The model has the `OutOfRange` outcome in their place and proves it is never produced.
- The missing `return` after `assert(false)` when built with `NDEBUG`, which is undefined behaviour. Also left out: the missing `<iostream>`/`<cassert>` includes and the include guard.
- Continuity between pieces: the fits are independent. Values jump at 0.2, 1.2, 1.5 and 2.2, and only the literal piecewise values are stated.
- The access levels (`public`, `protected`, `private`, `inline`) have no counterpart in the model.
