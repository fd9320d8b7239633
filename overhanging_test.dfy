/**
 * The overhanging-beam scratch harness: its own copies of the solver, of the
 * axial evaluator (with the opposite sign) and of the shear evaluator, and the
 * hard-coded scenario of its main routine.
 */
module OverhangingTest {
  import opened Polynomial
  import opened Loads
  import opened LinearSystem
  import opened Statics
  import Overhanging

  /** solve_reaction_forces: the same rows as the overhanging engine, roller and pin inline. */
  method SolveReactionForces(hForces: seq<PointLoad>, vForces: seq<PointLoad>, moments: seq<PointLoad>,
                             distLoads: seq<DistLoad>, supportLocations: seq<real>) returns (rxnRref: Matrix)
    requires |supportLocations| >= 2
    ensures IsMatrix(rxnRref) && IsRref(rxnRref)
    ensures rxnRref == Overhanging.Solved(hForces, vForces, moments, distLoads, supportLocations)
    ensures supportLocations[0] != supportLocations[1] ==>
      Overhanging.IsSolution(hForces, vForces, moments, distLoads, supportLocations,
                             Overhanging.ReadReactions(rxnRref))
  {
    var rxn := BuildEquilibriumSystem(hForces, vForces, moments, distLoads, supportLocations[0], supportLocations[1]);
    rxnRref := Rref(rxn);
    if supportLocations[0] != supportLocations[1] {
      var r := Overhanging.ReadReactions(rxnRref);
      SystemMeansEquilibrium(hForces, vForces, moments, distLoads, supportLocations[0], supportLocations[1],
                             supportLocations[1], Overhanging.AsUnknowns(r));
      RrefUniqueSolution(rxn, Overhanging.AsUnknowns(r));
    }
  }

  /**
   * axial_force_at_point of the harness adds the magnitudes instead of
   * subtracting them: it is the engine's axial force with the sign flipped.
   */
  method AxialForceAtPoint(x: real, totalHForces: seq<PointLoad>) returns (h: real)
    ensures h == -AxialForce(totalHForces, x)
  {
    h := 0.0;
    for i := 0 to |totalHForces|
      invariant h == SumOf(totalHForces[..i], StepWeight(x))
    {
      var force := totalHForces[i];
      if x >= force.location {
        h := h + force.magnitude;
      }
      SumOfStep(totalHForces, i, StepWeight(x));
    }
    assert totalHForces[..|totalHForces|] == totalHForces;
  }

  /**
   * piecewise_v_function is textually the engine's shear_force_at_point (the same
   * two loops and branches), so it runs that loop rather than a second copy of it.
   */
  method PiecewiseVFunction(x: real, totalVForces: seq<PointLoad>, distLoads: seq<DistLoad>) returns (v: real)
    ensures v == ShearForce(totalVForces, distLoads, x)
  {
    v := ShearForceAtPoint(x, totalVForces, distLoads);
  }

  /** The applied loads of the harness: L = 30, a force of −1000 at 0, w = 200 on [20, 30]. */
  function ScenarioVForces(): seq<PointLoad> { [PointLoad(0.0, -1000.0)] }

  function ScenarioDistLoads(): seq<DistLoad> { [DistLoad(20.0, 30.0, [200.0])] }

  /** The series the harness hard-codes as total_v_forces. */
  function ScenarioTotalVForces(): seq<PointLoad>
  {
    [PointLoad(0.0, -1000.0), PointLoad(30.0, 1000.0), PointLoad(10.0, 2000.0)]
  }

  lemma SumOfThree(p: PointLoad, q: PointLoad, r: PointLoad, f: PointLoad -> real)
    ensures SumOf([p, q, r], f) == f(p) + f(q) + f(r)
  {
    assert [p, q, r] == [p] + [q, r];
    SumOfTwo([p], q, r, f);
    SumOfSingleton(p, f);
  }

  /**
   * With the roller at 10 and the pin at 30 the solver gives pin_x = 0,
   * roller = 2000 and pin_y = 1000: exactly the reactions hard-coded in
   * total_v_forces, which holds the same loads as the aggregated series, in
   * another order.
   */
  lemma ScenarioReactions()
    ensures Overhanging.ReadReactions(Overhanging.Solved([], ScenarioVForces(), [], ScenarioDistLoads(), [10.0, 30.0]))
         == Overhanging.Reactions(0.0, 2000.0, 1000.0)
    ensures multiset(ScenarioTotalVForces())
         == multiset(ScenarioVForces() + [PointLoad(10.0, 2000.0), PointLoad(30.0, 1000.0)])
  {
    var v, d := ScenarioVForces(), ScenarioDistLoads();
    SumOfSingleton(PointLoad(0.0, -1000.0), Magnitude);
    SumOfSingleton(PointLoad(0.0, -1000.0), Lever);
    SumOfSingleton(DistLoad(20.0, 30.0, [200.0]), Resultant);
    SumOfSingleton(DistLoad(20.0, 30.0, [200.0]), FirstMoment);
    ConstantResultant(200.0, 20.0, 30.0);
    ConstantFirstMoment(200.0, 20.0, 30.0);
    assert VerticalRhs(v, d) == 3000.0;
    assert MomentRhs(v, [], d) == 50000.0;
    Overhanging.ReactionsClosedForm([], v, [], d, [10.0, 30.0]);
    var hardCoded := ScenarioTotalVForces();
    assert hardCoded == [PointLoad(0.0, -1000.0)] + [PointLoad(30.0, 1000.0)] + [PointLoad(10.0, 2000.0)];
  }

  /**
   * The shear of the hard-coded series: −1000 on [0, 10), 1000 on [10, 20], and
   * 0 at x = 25 and at the free end x = 30.
   */
  lemma ScenarioShear()
    ensures forall x :: 0.0 <= x < 10.0 ==> ShearForce(ScenarioTotalVForces(), ScenarioDistLoads(), x) == -1000.0
    ensures forall x :: 10.0 <= x <= 20.0 ==> ShearForce(ScenarioTotalVForces(), ScenarioDistLoads(), x) == 1000.0
    ensures ShearForce(ScenarioTotalVForces(), ScenarioDistLoads(), 25.0) == 0.0
    ensures ShearForce(ScenarioTotalVForces(), ScenarioDistLoads(), 30.0) == 0.0
  {
    var load := DistLoad(20.0, 30.0, [200.0]);
    forall x | 0.0 <= x <= 30.0
      ensures ShearForce(ScenarioTotalVForces(), ScenarioDistLoads(), x)
           == SumOf(ScenarioTotalVForces(), StepWeight(x)) - DistShear(load, x)
      ensures SumOf(ScenarioTotalVForces(), StepWeight(x))
           == -1000.0 + (if x >= 30.0 then 1000.0 else 0.0) + (if x >= 10.0 then 2000.0 else 0.0)
      ensures 20.0 <= x ==> DistShear(load, x) == 200.0 * (x - 20.0)
      ensures x < 20.0 ==> DistShear(load, x) == 0.0
    {
      SumOfThree(PointLoad(0.0, -1000.0), PointLoad(30.0, 1000.0), PointLoad(10.0, 2000.0), StepWeight(x));
      SumOfSingleton(load, DistShearWeight(x));
      ConstantResultant(200.0, 20.0, x);
    }
  }
}
