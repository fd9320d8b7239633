# Beam statics core, modelled in Dafny

This project models the statics engine of a small beam calculator. The engine
covers a simply supported beam (pin at x = 0, roller at x = L) and an
overhanging beam (roller and pin at user-chosen positions). For each beam it:

- builds the 3×4 augmented equilibrium system (ΣFx = 0, ΣFy = 0, ΣM about x = 0
  is 0) from the applied point forces, point moments and distributed loads;
- reduces that system to reduced row echelon form;
- reads the support reactions from column 3;
- appends the reactions to the load lists;
- evaluates the axial force, shear force and bending moment at a point x.

The model works on exact reals. A point force and a point moment share one shape,
`PointLoad(location, magnitude)`. A distributed load is `DistLoad(start, end, w)`,
where `w` holds the coefficients of a polynomial intensity. Its integrals are
exact polynomial antiderivatives, and they stand in for the symbolic and numeric
integration the program calls.

Modules:

- `Polynomial` (polynomial.dfy): evaluation, derivative, antiderivative, definite
  integral, and the x·w(x) shift used for first moments.
- `Loads` (loads.dfy): the load records, the generic sum `SumOf`, and the per-load
  weights (magnitude, lever about x = 0, resultant, first moment).
- `LinearSystem` (linear_system.dfy): augmented matrices, row operations, and the
  Gauss–Jordan reduction of the equilibrium pattern
  `[1,0,0,·] [0,1,1,·] [0,a,b,·]`.
- `Statics` (statics.dfy): the engine shared by both beam files and the test
  file:
  - the equilibrium builder, with its accumulation loops;
  - the three point evaluators as loops, each proved against a specification
    function;
  - the equilibrium predicates;
  - the properties of the evaluators.
- `SimplySupported`, `Overhanging`: the per-beam solvers, extractors and list
  builders, and the simply supported worked example.
- `OverhangingTest`: the test file's solver, its axial and shear evaluators, and
  its hard-coded scenario.

The two beam files repeat the same builder and the same three point evaluators,
with only the support positions changed. The builder is therefore modelled once
as `Statics.BuildEquilibriumSystem(…, a, b)`, and the evaluators once as
`Statics.AxialForceAtPoint`, `Statics.ShearForceAtPoint` and
`Statics.MomentAtPoint`. The test file repeats the builder and the shear
evaluator (`piecewise_v_function`). Its axial evaluator adds the magnitudes and
is modelled as `OverhangingTest.AxialForceAtPoint`. It has no moment evaluator.
The simply supported rows cite the simply supported file where the properties
differ.

## Model

| member | source | states |
|---|---|---|
| Polynomial.AntiderivativeInverts | beam_types/overhanging_beam.py:328-331 | the closed-form antiderivative used for each integral differentiates back to the load intensity |
| Polynomial.MulXEval | beam_types/overhanging_beam.py:336-338 | the shifted coefficients evaluate to x·w(x), the moment-arm weighting of a distributed load |
| Polynomial.ConstantResultant | beam_types/overhanging_beam_TEST.py:152-156 | a uniform load w over [a, b] has resultant w·(b − a) |
| Polynomial.ConstantFirstMoment | beam_types/overhanging_beam_TEST.py:159-163 | the first moment of a uniform load equals its resultant acting at the midpoint (a + b)/2 |
| Polynomial.IntegralAdditive | beam_types/overhanging_beam.py:442-447 | integrals over [a, b] and [b, c] add up to the integral over [a, c]; inside a load it splits the resultant into the part up to x and the part still to come |
| Loads.SumOfPermutation | beam_types/overhanging_beam.py:416-422 | a sum over a load list depends only on the multiset of its entries |
| LinearSystem.Rref | beam_types/overhanging_beam.py:346-350 | the reduction of an equilibrium-shaped matrix is a 3×4 matrix in reduced row echelon form (leading ones, zero above and below, zero rows last) |
| LinearSystem.SubKeepsSolutions | beam_types/overhanging_beam.py:350 | subtracting a multiple of a solved row keeps the solutions of a row |
| LinearSystem.ScaleKeepsSolutions | beam_types/overhanging_beam.py:350 | dividing a row by a non-zero constant keeps its solutions |
| LinearSystem.RrefKeepsSolutions | beam_types/overhanging_beam.py:346-350 | the reduced matrix has exactly the solutions of the original system |
| LinearSystem.RrefUniqueSolution | beam_types/overhanging_beam.py:346-384 | when a ≠ b, x solves the system if and only if x is column 3 of the reduced matrix |
| LinearSystem.RrefClosedForm | beam_types/overhanging_beam.py:346-384 | when a ≠ b, the reading is u2 = (rhs2 − a·rhs1)/(b − a), u1 = rhs1 − u2, u0 = rhs0 |
| LinearSystem.SingularNotUnique | beam_types/overhanging_beam.py:294-296 | when a = b, row 2 has no pivot in column 2, and moving one unit from u2 to u1 keeps every solution a solution |
| Statics.EquilibriumSystem | beam_types/overhanging_beam.py:294-340 | the matrix has the hard-coded pattern, with the supports' locations in row 3 columns 1 and 2 |
| Statics.SystemRows | beam_types/overhanging_beam.py:298-340 | the system's three equations read u0 = −Σh, u1 + u2 = −Σv + Σ∫w, a·u1 + b·u2 = −ΣM − Σloc·mag + Σ∫x·w |
| Statics.HorizontalRowMeans | beam_types/overhanging_beam.py:298-303 | row 1 holds if and only if the forces with the horizontal reaction appended sum to zero |
| Statics.VerticalRowMeans | beam_types/overhanging_beam.py:305-332 | row 2 holds if and only if the vertical forces with both reactions appended equal the distributed resultant |
| Statics.MomentRowMeans | beam_types/overhanging_beam.py:310-340 | row 3 holds if and only if the moments about x = 0, with both reactions, balance the distributed first moment |
| Statics.SystemMeansEquilibrium | beam_types/overhanging_beam.py:284-340 | a triple solves the system if and only if appending it as reactions puts the free body in static equilibrium |
| Statics.Accumulate | beam_types/overhanging_beam.py:300-302 | the accumulator loop returns the sum of the weights over the list |
| Statics.BuildEquilibriumSystem | beam_types/overhanging_beam.py:284-344 | the loop-by-loop construction yields exactly the equilibrium matrix |
| Statics.AxialForceAtPoint | beam_types/overhanging_beam.py:416-422 | the loop computes −Σ magnitude over forces located at or left of x |
| Statics.ShearForceAtPoint | beam_types/overhanging_beam.py:427-449 | the loops compute Σ magnitude at or left of x, minus each distributed load's integral from its start to min(x, end) (zero before the start) |
| Statics.MomentAtPoint | beam_types/overhanging_beam.py:456-465 | the loops compute Σ mag·(x − loc) over forces strictly left of x, minus the point moments strictly left of x |
| Statics.LoadAtQueryPoint | beam_types/overhanging_beam.py:416-465 | a force located exactly at x counts in the axial and shear force, while neither a force nor a moment at x counts in the moment at x |
| Statics.OrderInsensitive | beam_types/overhanging_beam.py:416-465 | permuting the force, moment or distributed-load lists changes none of the three evaluators |
| Statics.BeforeEveryLoad | beam_types/overhanging_beam.py:416-465 | left of every load, axial force, shear force and moment are all zero |
| Statics.StepJump | beam_types/overhanging_beam.py:416-422 | from x to y the step sum grows by exactly the forces in (x, y], so the axial force is constant where no force lies |
| Statics.DistShearPieces | beam_types/overhanging_beam.py:442-447 | the distributed term is 0 before the start, ∫[start, x] inside, ∫[start, end] after, and the two branches agree at x = end; inside the load the resultant minus the term is ∫[x, end] |
| Statics.DistShearPastEnd | beam_types/overhanging_beam.py:442-447 | at or right of every load's end, the distributed term is the total resultant |
| Statics.AxialClosesBeyond | beam_types/overhanging_beam.py:416-422 | if the horizontal forces balance, the axial force is zero at and right of every location |
| Statics.ShearClosesBeyond | beam_types/overhanging_beam.py:427-449 | if the vertical forces carry the distributed resultant, the shear is zero at and right of every load |
| Statics.MomentClosesBeyond | beam_types/overhanging_beam.py:456-465 | with zero net force and zero net moment about x = 0, the moment is zero strictly right of every load |
| Statics.LeverBeyond | beam_types/overhanging_beam.py:458-460 | right of every force, the moment sum about x equals x·ΣF − Σ(location·F) |
| SimplySupported.SolveReactionForces | beam_types/simply_supported_beam.py:248-319 | the result is the reduced system with supports at 0 and L. It is in RREF, and for L ≠ 0 its readings are reactions that balance the beam and the only ones that do |
| SimplySupported.ReactionsClosedForm | beam_types/simply_supported_beam.py:311-348 | for L ≠ 0: B_y = rhs3/L, A_y = rhs2 − B_y, A_x = −Σh, read from rows 2, 1 and 0 |
| SimplySupported.FindTotalHForces | beam_types/simply_supported_beam.py:353-361 | the result is the input followed by exactly one entry, (0, A_x) |
| SimplySupported.FindTotalVForces | beam_types/simply_supported_beam.py:366-375 | the result is the input followed by (0, A_y) and then (L, B_y) |
| SimplySupported.EndForcesVanish | beam_types/simply_supported_beam.py:380-429 | with the solved reactions appended, axial and shear force are zero at x = L, and without distributed loads the moment is zero right of L |
| SimplySupported.CentralLoadScenario | beam_types/simply_supported_beam.py:420-429 | L = 10 with −100 at x = 5 gives A_x = 0, A_y = B_y = 50 and moment 250 at x = 5 |
| Overhanging.SolveReactionForces | beam_types/overhanging_beam.py:284-355 | the result is the reduced system with roller = support 0 and pin = support 1. It is in RREF, and when roller ≠ pin its readings are the only reactions that balance the beam |
| Overhanging.ReactionsClosedForm | beam_types/overhanging_beam.py:361-384 | when roller ≠ pin: pin_y = (rhs3 − roller·rhs2)/(pin − roller), roller = rhs2 − pin_y, pin_x = −Σh, read from rows 2, 1 and 0 |
| Overhanging.DegenerateReadsAreNotReactions | beam_types/overhanging_beam.py:289-296 | with roller = pin = 5 and −100 at 0, the solver's readings (0, 0, 1) do not balance the beam, and no reactions do |
| Overhanging.SolveReactions | beam_types/overhanging_beam.py:284-355 | the solver fails exactly when roller = pin. Otherwise it returns reactions that balance the beam, and they are the only ones |
| Overhanging.FindTotalHForces | beam_types/overhanging_beam.py:389-396 | the result is the input followed by exactly one entry, (pin, pin_x) |
| Overhanging.FindTotalVForces | beam_types/overhanging_beam.py:401-411 | the result is the input followed by exactly two entries, (roller, roller_rxn) and then (pin, pin_y) |
| Overhanging.EndForcesVanish | beam_types/overhanging_beam.py:416-465 | with supports on the beam, roller ≠ pin and the reactions appended: axial and shear are zero at x = L, and without distributed loads the moment is zero right of L |
| OverhangingTest.SolveReactionForces | beam_types/overhanging_beam_TEST.py:112-179 | the test file's solver gives the same reduced matrix as the engine's, and its readings balance the beam when roller ≠ pin |
| OverhangingTest.AxialForceAtPoint | beam_types/overhanging_beam_TEST.py:41-47 | the `+=` version is the exact negation of the engine's axial force, for every list and every x |
| OverhangingTest.PiecewiseVFunction | beam_types/overhanging_beam_TEST.py:50-71 | the shear function equals the engine's shear force for every x; its text is identical to beam_types/overhanging_beam.py:427-449, so the method runs the engine's loop, `Statics.ShearForceAtPoint` |
| OverhangingTest.ScenarioReactions | beam_types/overhanging_beam_TEST.py:185-190 | with roller 10 and pin 30, the solver gives pin_x = 0, roller = 2000 and pin_y = 1000, and the hard-coded list holds the applied force and exactly these reactions |
| OverhangingTest.ScenarioShear | beam_types/overhanging_beam_TEST.py:187-190 | with the hard-coded list, the shear is −1000 on [0, 10), 1000 on [10, 20], and 0 at x = 25 and x = 30 |

## Left out

- Console input (lengths, forces, support positions) and its re-prompting loops are not modelled. The length is a parameter. The simply supported lemmas that need L > 0 take it as a precondition, which the input routine enforces.
- Integration is exact. Symbolic integration of arbitrary expressions and the numeric quadrature in the shear evaluator are modelled for polynomial intensities only, by exact antiderivatives. Floating-point error in the quadrature is not modelled.
- The solver rounds its result to four significant digits; the model keeps exact values, and the conversion to a numeric array is left out.
- The reduction is modelled for the fixed pattern `[1,0,0,·] [0,1,1,·] [0,a,b,·]` the builder always produces, not for general matrices.
- Plotting is left out: the diagram functions, the sampled x grids, the trapezoidal moment diagrams of all three files (beam_types/overhanging_beam.py:612-625, beam_types/simply_supported_beam.py:560-573, beam_types/overhanging_beam_TEST.py:88-99) and the printed output.
- The beam selection front end and the cantilever beam are not part of this model.
- `moment_at_point` (beam_types/overhanging_beam.py:456-465, beam_types/simply_supported_beam.py:420-429) has no distributed-load term, and the program never calls it; the moment diagrams the program draws integrate the shear instead, distributed loads included. The model keeps `moment_at_point` as written, so the "moment is zero right of the beam" lemmas assume no distributed loads, and the drawn moment with distributed loads is not modelled.
- The extractors (`FindRollerRxn`, `FindPinYRxn`, `FindPinXRxn`, `FindAyRxn`, `FindByRxn`, `FindAxRxn`) only read one matrix cell. What they read is stated by the closed-form and solver lemmas, not by their own contracts.
- The moment evaluator's slope between loads (dM/dx = V) is not stated. `moment_at_point` has no distributed-load term, so the relation would hold for it only without distributed loads. The program relies on the relation in the trapezoidal moment diagrams of all three files (beam_types/overhanging_beam.py:612-625, beam_types/simply_supported_beam.py:560-573, beam_types/overhanging_beam_TEST.py:88-99), which are left out above with the rest of the plotting.
- The test file's driver reads its support positions from the console. The scenario lemmas fix them at roller 10 and pin 30, the positions that its hard-coded reactions belong to.

## Findings

| source | as written | input that shows it | evidently intended | confidence | as-written member | corrected member |
|---|---|---|---|---|---|---|
| beam_types/overhanging_beam.py:289-296 | roller and pin positions are taken as entered; when they coincide the coefficients of the moment row are roller times those of the vertical row, the reduction still returns a matrix, and its column 3 is read as the reactions | supports [5, 5], one force −100 at x = 0: the readings are pin_x = 0, roller = 0, pin_y = 1, which balance nothing, and no reactions exist | reject coinciding supports as a statically indeterminate or unstable configuration instead of reporting reactions | not executed | Overhanging.DegenerateReadsAreNotReactions | Overhanging.SolveReactions |
