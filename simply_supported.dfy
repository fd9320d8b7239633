/**
 * Simply supported beam: a pin A at x = 0 (horizontal reaction A_x, vertical
 * reaction A_y) and a roller B at x = L (vertical reaction B_y).
 */
module SimplySupported {
  import opened Loads
  import opened LinearSystem
  import opened Statics

  /** The reduced equilibrium matrix for a beam of the given length. */
  function Solved(inputtedLength: real, hForces: seq<PointLoad>, vForces: seq<PointLoad>,
                  moments: seq<PointLoad>, distLoads: seq<DistLoad>): Matrix
  {
    Rref(EquilibriumSystem(hForces, vForces, moments, distLoads, 0.0, inputtedLength))
  }

  /** A_y is read from row 1, column 3 of the reduced matrix. */
  function FindAyRxn(rxnRrefArray: Matrix): real
    requires IsMatrix(rxnRrefArray)
  {
    rxnRrefArray[1][3]
  }

  /** B_y is read from row 2, column 3. */
  function FindByRxn(rxnRrefArray: Matrix): real
    requires IsMatrix(rxnRrefArray)
  {
    rxnRrefArray[2][3]
  }

  /** A_x is read from row 0, column 3. */
  function FindAxRxn(rxnRrefArray: Matrix): real
    requires IsMatrix(rxnRrefArray)
  {
    rxnRrefArray[0][3]
  }

  /**
   * solve_reaction_forces: row 3 is [0, 0, L, …] (moments about A). For a beam of
   * non-zero length the reactions read from the result balance the applied loads,
   * and they are the only reactions that do.
   */
  method SolveReactionForces(inputtedLength: real, hForces: seq<PointLoad>, vForces: seq<PointLoad>,
                             moments: seq<PointLoad>, distLoads: seq<DistLoad>) returns (rxnRref: Matrix)
    ensures IsMatrix(rxnRref) && IsRref(rxnRref)
    ensures rxnRref == Solved(inputtedLength, hForces, vForces, moments, distLoads)
    ensures inputtedLength != 0.0 ==>
      Balances(hForces, vForces, moments, distLoads, 0.0, inputtedLength, 0.0,
               Unknowns(FindAxRxn(rxnRref), FindAyRxn(rxnRref), FindByRxn(rxnRref)))
    ensures inputtedLength != 0.0 ==>
      forall r :: Balances(hForces, vForces, moments, distLoads, 0.0, inputtedLength, 0.0, r) ==>
        r == Unknowns(FindAxRxn(rxnRref), FindAyRxn(rxnRref), FindByRxn(rxnRref))
  {
    var rxn := BuildEquilibriumSystem(hForces, vForces, moments, distLoads, 0.0, inputtedLength);
    rxnRref := Rref(rxn);
    if inputtedLength != 0.0 {
      forall r ensures Balances(hForces, vForces, moments, distLoads, 0.0, inputtedLength, 0.0, r)
                   <==> r == Reading(rxnRref) {
        SystemMeansEquilibrium(hForces, vForces, moments, distLoads, 0.0, inputtedLength, 0.0, r);
        RrefUniqueSolution(rxn, r);
      }
    }
  }

  /** The closed form of the solution: B_y = rhs₃ / L, A_y = rhs₂ − B_y, A_x = −ΣFx. */
  lemma ReactionsClosedForm(inputtedLength: real, hForces: seq<PointLoad>, vForces: seq<PointLoad>,
                            moments: seq<PointLoad>, distLoads: seq<DistLoad>)
    requires inputtedLength != 0.0
    ensures var r := Solved(inputtedLength, hForces, vForces, moments, distLoads);
      && FindByRxn(r) == MomentRhs(vForces, moments, distLoads) / inputtedLength
      && FindAyRxn(r) == VerticalRhs(vForces, distLoads) - FindByRxn(r)
      && FindAxRxn(r) == HorizontalRhs(hForces)
  {
    RrefClosedForm(0.0, inputtedLength, HorizontalRhs(hForces),
                   VerticalRhs(vForces, distLoads), MomentRhs(vForces, moments, distLoads));
    assert MomentRhs(vForces, moments, distLoads) - 0.0 * VerticalRhs(vForces, distLoads)
        == MomentRhs(vForces, moments, distLoads);
  }

  /** find_total_h_forces: a copy of the applied forces with A_x appended at x = 0. */
  method FindTotalHForces(hForces: seq<PointLoad>, aX: real) returns (totalHForces: seq<PointLoad>)
    ensures |totalHForces| == |hForces| + 1
    ensures totalHForces[..|hForces|] == hForces
    ensures totalHForces[|hForces|] == PointLoad(0.0, aX)
  {
    totalHForces := hForces;
    var aXLocation := 0.0;
    totalHForces := totalHForces + [PointLoad(aXLocation, aX)];
  }

  /** find_total_v_forces: a copy of the applied forces, then A_y at x = 0, then B_y at x = L. */
  method FindTotalVForces(vForces: seq<PointLoad>, aY: real, inputtedLength: real, bY: real)
    returns (totalVForces: seq<PointLoad>)
    ensures |totalVForces| == |vForces| + 2
    ensures totalVForces[..|vForces|] == vForces
    ensures totalVForces[|vForces|] == PointLoad(0.0, aY)
    ensures totalVForces[|vForces| + 1] == PointLoad(inputtedLength, bY)
  {
    totalVForces := vForces;
    var initialShearForceLocation := 0.0;
    totalVForces := totalVForces + [PointLoad(initialShearForceLocation, aY)];
    totalVForces := totalVForces + [PointLoad(inputtedLength, bY)];
  }

  /**
   * With the solved reactions appended, the axial and the shear force are zero at
   * the right end x = L, and without distributed loads the bending moment is zero
   * everywhere right of the beam.
   */
  lemma EndForcesVanish(inputtedLength: real, hForces: seq<PointLoad>, vForces: seq<PointLoad>,
                        moments: seq<PointLoad>, distLoads: seq<DistLoad>)
    requires inputtedLength > 0.0
    requires OnBeam(hForces, inputtedLength) && OnBeam(vForces, inputtedLength) && OnBeam(moments, inputtedLength)
    requires DistOnBeam(distLoads, inputtedLength)
    ensures var r := Solved(inputtedLength, hForces, vForces, moments, distLoads);
      AxialForce(hForces + [PointLoad(0.0, FindAxRxn(r))], inputtedLength) == 0.0
    ensures var r := Solved(inputtedLength, hForces, vForces, moments, distLoads);
      ShearForce(vForces + [PointLoad(0.0, FindAyRxn(r)), PointLoad(inputtedLength, FindByRxn(r))],
                 distLoads, inputtedLength) == 0.0
    ensures var r := Solved(inputtedLength, hForces, vForces, moments, distLoads);
      distLoads == [] ==>
        forall x :: x > inputtedLength ==>
          MomentAt(vForces + [PointLoad(0.0, FindAyRxn(r)), PointLoad(inputtedLength, FindByRxn(r))],
                   moments, x) == 0.0
  {
    var m := EquilibriumSystem(hForces, vForces, moments, distLoads, 0.0, inputtedLength);
    var r := Rref(m);
    var totalH := hForces + [PointLoad(0.0, FindAxRxn(r))];
    var totalV := vForces + [PointLoad(0.0, FindAyRxn(r)), PointLoad(inputtedLength, FindByRxn(r))];
    RrefUniqueSolution(m, Reading(r));
    SystemMeansEquilibrium(hForces, vForces, moments, distLoads, 0.0, inputtedLength, 0.0, Reading(r));
    assert StaticEquilibrium(totalH, totalV, moments, distLoads);
    AxialClosesBeyond(totalH, inputtedLength);
    ShearClosesBeyond(totalV, distLoads, inputtedLength);
    if distLoads == [] {
      forall x | x > inputtedLength ensures MomentAt(totalV, moments, x) == 0.0 {
        MomentClosesBeyond(totalV, moments, x);
      }
    }
  }

  /**
   * L = 10 with a single downward force of 100 at mid-span: A_x = 0, A_y = B_y = 50,
   * and the moment at x = 5 is 250, the force at 5 itself not yet counting.
   */
  lemma CentralLoadScenario()
    ensures var r := Solved(10.0, [], [PointLoad(5.0, -100.0)], [], []);
      && FindAxRxn(r) == 0.0 && FindAyRxn(r) == 50.0 && FindByRxn(r) == 50.0
      && MomentAt([PointLoad(5.0, -100.0), PointLoad(0.0, FindAyRxn(r)), PointLoad(10.0, FindByRxn(r))],
                  [], 5.0) == 250.0
  {
    var v := [PointLoad(5.0, -100.0)];
    SumOfSingleton(PointLoad(5.0, -100.0), Magnitude);
    SumOfSingleton(PointLoad(5.0, -100.0), Lever);
    ReactionsClosedForm(10.0, [], v, [], []);
    var totalV := [PointLoad(5.0, -100.0), PointLoad(0.0, 50.0), PointLoad(10.0, 50.0)];
    SumOfTwo(v, PointLoad(0.0, 50.0), PointLoad(10.0, 50.0), LeverWeight(5.0));
    SumOfSingleton(PointLoad(5.0, -100.0), LeverWeight(5.0));
    assert v + [PointLoad(0.0, 50.0), PointLoad(10.0, 50.0)] == totalV;
  }
}
