/**
 * Overhanging beam: a roller at support_locations[0] (vertical reaction) and a
 * pin at support_locations[1] (vertical reaction pin_y and horizontal reaction
 * pin_x), each anywhere on the beam and in either order.
 */
module Overhanging {
  import opened Loads
  import opened LinearSystem
  import opened Statics

  /** Failures of the corrected solver. */
  datatype StaticsError = IndeterminateConfiguration

  datatype Result<T> = Success(value: T) | Failure(error: StaticsError)

  /** Named reactions of an overhanging beam. */
  datatype Reactions = Reactions(pinX: real, roller: real, pinY: real)

  function AsUnknowns(r: Reactions): Unknowns
  {
    Unknowns(r.pinX, r.roller, r.pinY)
  }

  /** The reduced equilibrium matrix for the given support positions. */
  function Solved(hForces: seq<PointLoad>, vForces: seq<PointLoad>, moments: seq<PointLoad>,
                  distLoads: seq<DistLoad>, supportLocations: seq<real>): Matrix
    requires |supportLocations| >= 2
  {
    Rref(EquilibriumSystem(hForces, vForces, moments, distLoads, supportLocations[0], supportLocations[1]))
  }

  /** The roller reaction is read from row 1, column 3 of the reduced matrix. */
  function FindRollerRxn(rxnRrefArray: Matrix): real
    requires IsMatrix(rxnRrefArray)
  {
    rxnRrefArray[1][3]
  }

  /** pin_y is read from row 2, column 3. */
  function FindPinYRxn(rxnRrefArray: Matrix): real
    requires IsMatrix(rxnRrefArray)
  {
    rxnRrefArray[2][3]
  }

  /** pin_x is read from row 0, column 3. */
  function FindPinXRxn(rxnRrefArray: Matrix): real
    requires IsMatrix(rxnRrefArray)
  {
    rxnRrefArray[0][3]
  }

  /** The three readings of the reduced matrix, as the source's caller takes them. */
  function ReadReactions(rxnRrefArray: Matrix): Reactions
    requires IsMatrix(rxnRrefArray)
  {
    Reactions(FindPinXRxn(rxnRrefArray), FindRollerRxn(rxnRrefArray), FindPinYRxn(rxnRrefArray))
  }

  /** The reactions balance the applied loads, placed at the roller and the pin. */
  predicate IsSolution(hForces: seq<PointLoad>, vForces: seq<PointLoad>, moments: seq<PointLoad>,
                       distLoads: seq<DistLoad>, supportLocations: seq<real>, r: Reactions)
    requires |supportLocations| >= 2
  {
    Balances(hForces, vForces, moments, distLoads, supportLocations[0], supportLocations[1],
             supportLocations[1], AsUnknowns(r))
  }

  /**
   * solve_reaction_forces, as written: row 3 is [0, roller, pin, …]. The result is
   * always returned; only when roller ≠ pin are its readings the reactions, and
   * then the only ones.
   */
  method SolveReactionForces(hForces: seq<PointLoad>, vForces: seq<PointLoad>, moments: seq<PointLoad>,
                             distLoads: seq<DistLoad>, supportLocations: seq<real>) returns (rxnRref: Matrix)
    requires |supportLocations| >= 2
    ensures IsMatrix(rxnRref) && IsRref(rxnRref)
    ensures rxnRref == Solved(hForces, vForces, moments, distLoads, supportLocations)
    ensures supportLocations[0] != supportLocations[1] ==>
      forall r :: IsSolution(hForces, vForces, moments, distLoads, supportLocations, r)
        <==> r == ReadReactions(rxnRref)
  {
    var rollerLocation := supportLocations[0];
    var pinLocation := supportLocations[1];
    var rxn := BuildEquilibriumSystem(hForces, vForces, moments, distLoads, rollerLocation, pinLocation);
    rxnRref := Rref(rxn);
    if rollerLocation != pinLocation {
      forall r ensures IsSolution(hForces, vForces, moments, distLoads, supportLocations, r)
                   <==> r == ReadReactions(rxnRref) {
        SystemMeansEquilibrium(hForces, vForces, moments, distLoads, rollerLocation, pinLocation,
                               pinLocation, AsUnknowns(r));
        RrefUniqueSolution(rxn, AsUnknowns(r));
      }
    }
  }

  /**
   * The closed form when roller ≠ pin: pin_y = (rhs₃ − roller·rhs₂) / (pin − roller),
   * the roller reaction is rhs₂ − pin_y, and pin_x = −ΣFx.
   */
  lemma ReactionsClosedForm(hForces: seq<PointLoad>, vForces: seq<PointLoad>, moments: seq<PointLoad>,
                            distLoads: seq<DistLoad>, supportLocations: seq<real>)
    requires |supportLocations| >= 2 && supportLocations[0] != supportLocations[1]
    ensures var r := Solved(hForces, vForces, moments, distLoads, supportLocations);
      && FindPinYRxn(r) == (MomentRhs(vForces, moments, distLoads) - supportLocations[0] * VerticalRhs(vForces, distLoads))
                           / (supportLocations[1] - supportLocations[0])
      && FindRollerRxn(r) == VerticalRhs(vForces, distLoads) - FindPinYRxn(r)
      && FindPinXRxn(r) == HorizontalRhs(hForces)
  {
    var roller, pin := supportLocations[0], supportLocations[1];
    var rhs0, rhs1, rhs2 := HorizontalRhs(hForces), VerticalRhs(vForces, distLoads), MomentRhs(vForces, moments, distLoads);
    var m := [[1.0, 0.0, 0.0, rhs0], [0.0, 1.0, 1.0, rhs1], [0.0, roller, pin, rhs2]];
    assert EquilibriumSystem(hForces, vForces, moments, distLoads, roller, pin) == m;
    RrefClosedForm(roller, pin, rhs0, rhs1, rhs2);
    var reading := Reading(Rref(m));
    assert FindPinYRxn(Solved(hForces, vForces, moments, distLoads, supportLocations)) == reading.u2;
    assert FindRollerRxn(Solved(hForces, vForces, moments, distLoads, supportLocations)) == reading.u1;
    assert FindPinXRxn(Solved(hForces, vForces, moments, distLoads, supportLocations)) == reading.u0;
  }

  /**
   * Roller and pin at the same place, as written: the example below (both at
   * x = 5, a downward force of 100 at x = 0) has no reactions at all, since
   * nothing at x = 5 can balance the moment of the force about x = 5; yet
   * SolveReactionForces returns a matrix whose readings are pin_x = 0,
   * roller = 0, pin_y = 1.
   */
  lemma DegenerateReadsAreNotReactions()
    ensures var r := Solved([], [PointLoad(0.0, -100.0)], [], [], [5.0, 5.0]);
      && ReadReactions(r) == Reactions(0.0, 0.0, 1.0)
      && !IsSolution([], [PointLoad(0.0, -100.0)], [], [], [5.0, 5.0], ReadReactions(r))
      && forall q :: !IsSolution([], [PointLoad(0.0, -100.0)], [], [], [5.0, 5.0], q)
  {
    var v := [PointLoad(0.0, -100.0)];
    SumOfSingleton(PointLoad(0.0, -100.0), Magnitude);
    SumOfSingleton(PointLoad(0.0, -100.0), Lever);
    var m := EquilibriumSystem([], v, [], [], 5.0, 5.0);
    assert m[1][3] == 100.0 && m[2][3] == 0.0;
    forall q ensures !IsSolution([], v, [], [], [5.0, 5.0], q) {
      SystemMeansEquilibrium([], v, [], [], 5.0, 5.0, 5.0, AsUnknowns(q));
    }
  }

  /**
   * The corrected solver: it refuses coincident supports with
   * IndeterminateConfiguration, and otherwise returns the unique reactions.
   */
  method SolveReactions(hForces: seq<PointLoad>, vForces: seq<PointLoad>, moments: seq<PointLoad>,
                        distLoads: seq<DistLoad>, supportLocations: seq<real>) returns (result: Result<Reactions>)
    requires |supportLocations| >= 2
    ensures result.Failure? <==> supportLocations[0] == supportLocations[1]
    ensures result.Success? ==> IsSolution(hForces, vForces, moments, distLoads, supportLocations, result.value)
    ensures result.Success? ==>
      forall r :: IsSolution(hForces, vForces, moments, distLoads, supportLocations, r) ==> r == result.value
  {
    var rxnRref := SolveReactionForces(hForces, vForces, moments, distLoads, supportLocations);
    if supportLocations[0] == supportLocations[1] {
      result := Failure(IndeterminateConfiguration);
    } else {
      result := Success(ReadReactions(rxnRref));
    }
  }

  /** find_total_h_forces: a copy of the applied forces with pin_x appended at the pin. */
  method FindTotalHForces(hForces: seq<PointLoad>, pinX: real, supportLocations: seq<real>)
    returns (totalHForces: seq<PointLoad>)
    requires |supportLocations| >= 2
    ensures |totalHForces| == |hForces| + 1
    ensures totalHForces[..|hForces|] == hForces
    ensures totalHForces[|hForces|] == PointLoad(supportLocations[1], pinX)
  {
    totalHForces := hForces;
    var pinXLocation := supportLocations[1];
    totalHForces := totalHForces + [PointLoad(pinXLocation, pinX)];
  }

  /**
   * find_total_v_forces: a copy of the applied forces, then the roller reaction at
   * the roller, then pin_y at the pin; the two reactions are always the last two.
   */
  method FindTotalVForces(vForces: seq<PointLoad>, rollerRxn: real, supportLocations: seq<real>, pinY: real)
    returns (totalVForces: seq<PointLoad>)
    requires |supportLocations| >= 2
    ensures |totalVForces| == |vForces| + 2
    ensures totalVForces[..|vForces|] == vForces
    ensures totalVForces[|totalVForces| - 2] == PointLoad(supportLocations[0], rollerRxn)
    ensures totalVForces[|totalVForces| - 1] == PointLoad(supportLocations[1], pinY)
  {
    totalVForces := vForces;
    var rollerLocation := supportLocations[0];
    var pinLocation := supportLocations[1];
    totalVForces := totalVForces + [PointLoad(rollerLocation, rollerRxn)];
    totalVForces := totalVForces + [PointLoad(pinLocation, pinY)];
  }

  /**
   * With roller ≠ pin and the solved reactions appended, the axial and the shear
   * force are zero at the right end x = L, and without distributed loads the
   * bending moment is zero everywhere right of the beam.
   */
  lemma EndForcesVanish(inputtedLength: real, hForces: seq<PointLoad>, vForces: seq<PointLoad>,
                        moments: seq<PointLoad>, distLoads: seq<DistLoad>, supportLocations: seq<real>)
    requires |supportLocations| >= 2 && supportLocations[0] != supportLocations[1]
    requires 0.0 <= supportLocations[0] <= inputtedLength && 0.0 <= supportLocations[1] <= inputtedLength
    requires OnBeam(hForces, inputtedLength) && OnBeam(vForces, inputtedLength) && OnBeam(moments, inputtedLength)
    requires DistOnBeam(distLoads, inputtedLength)
    ensures var r := ReadReactions(Solved(hForces, vForces, moments, distLoads, supportLocations));
      AxialForce(hForces + [PointLoad(supportLocations[1], r.pinX)], inputtedLength) == 0.0
    ensures var r := ReadReactions(Solved(hForces, vForces, moments, distLoads, supportLocations));
      ShearForce(vForces + [PointLoad(supportLocations[0], r.roller), PointLoad(supportLocations[1], r.pinY)],
                 distLoads, inputtedLength) == 0.0
    ensures var r := ReadReactions(Solved(hForces, vForces, moments, distLoads, supportLocations));
      distLoads == [] ==>
        forall x :: x > inputtedLength ==>
          MomentAt(vForces + [PointLoad(supportLocations[0], r.roller), PointLoad(supportLocations[1], r.pinY)],
                   moments, x) == 0.0
  {
    var a, b := supportLocations[0], supportLocations[1];
    var m := EquilibriumSystem(hForces, vForces, moments, distLoads, a, b);
    var r := ReadReactions(Rref(m));
    var totalH := hForces + [PointLoad(b, r.pinX)];
    var totalV := vForces + [PointLoad(a, r.roller), PointLoad(b, r.pinY)];
    RrefUniqueSolution(m, AsUnknowns(r));
    SystemMeansEquilibrium(hForces, vForces, moments, distLoads, a, b, b, AsUnknowns(r));
    assert StaticEquilibrium(totalH, totalV, moments, distLoads);
    AxialClosesBeyond(totalH, inputtedLength);
    ShearClosesBeyond(totalV, distLoads, inputtedLength);
    if distLoads == [] {
      forall x | x > inputtedLength ensures MomentAt(totalV, moments, x) == 0.0 {
        MomentClosesBeyond(totalV, moments, x);
      }
    }
  }
}
