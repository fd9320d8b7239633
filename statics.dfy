/**
 * The beam-statics engine shared by every support configuration: the builder of
 * the three equilibrium equations, the meaning of those equations for the whole
 * free body, and the evaluators of axial force, shear force and bending moment at
 * a point of the beam. A configuration supplies only the positions a and b of its
 * two vertical reactions (and the position of its horizontal one).
 */
module Statics {
  import opened Polynomial
  import opened Loads
  import opened LinearSystem

  // ---------------------------------------------------------------------------
  // Equilibrium system builder
  // ---------------------------------------------------------------------------

  /**
   * The augmented matrix of ΣFx = 0, ΣFy = 0 and ΣM about x = 0 = 0, with the
   * horizontal reaction in column 0 and the vertical reactions at a and b in
   * columns 1 and 2.
   */
  function EquilibriumSystem(hForces: seq<PointLoad>, vForces: seq<PointLoad>, moments: seq<PointLoad>,
                             distLoads: seq<DistLoad>, a: real, b: real): (m: Matrix)
    ensures HasEquilibriumShape(m) && m[2][1] == a && m[2][2] == b
  {
    [[1.0, 0.0, 0.0, HorizontalRhs(hForces)],
     [0.0, 1.0, 1.0, VerticalRhs(vForces, distLoads)],
     [0.0, a, b, MomentRhs(vForces, moments, distLoads)]]
  }

  /** Right-hand side of ΣFx = 0: minus the applied horizontal forces. */
  function HorizontalRhs(hForces: seq<PointLoad>): real
  {
    -SumOf(hForces, Magnitude)
  }

  /** Right-hand side of ΣFy = 0: minus the applied vertical forces, plus the distributed resultants. */
  function VerticalRhs(vForces: seq<PointLoad>, distLoads: seq<DistLoad>): real
  {
    -SumOf(vForces, Magnitude) + SumOf(distLoads, Resultant)
  }

  /**
   * Right-hand side of ΣM = 0 about x = 0: minus the applied moments, minus the
   * moments of the applied vertical forces, plus the first moments of the
   * distributed loads.
   */
  function MomentRhs(vForces: seq<PointLoad>, moments: seq<PointLoad>, distLoads: seq<DistLoad>): real
  {
    -SumOf(moments, Magnitude) - SumOf(vForces, Lever) + SumOf(distLoads, FirstMoment)
  }

  /**
   * The whole free body is at rest: the horizontal forces cancel, the vertical
   * point forces carry the distributed resultant, and the moments about x = 0 of
   * the vertical forces and the applied moments balance that of the distributed
   * loads.
   */
  predicate StaticEquilibrium(totalH: seq<PointLoad>, totalV: seq<PointLoad>, moments: seq<PointLoad>,
                              distLoads: seq<DistLoad>)
  {
    && SumOf(totalH, Magnitude) == 0.0
    && SumOf(totalV, Magnitude) == SumOf(distLoads, Resultant)
    && SumOf(totalV, Lever) + SumOf(moments, Magnitude) == SumOf(distLoads, FirstMoment)
  }

  /**
   * Reactions r (horizontal at hLocation, vertical at a and at b), appended as
   * point loads, bring the applied loads into static equilibrium.
   */
  predicate Balances(hForces: seq<PointLoad>, vForces: seq<PointLoad>, moments: seq<PointLoad>,
                     distLoads: seq<DistLoad>, a: real, b: real, hLocation: real, r: Unknowns)
  {
    StaticEquilibrium(hForces + [PointLoad(hLocation, r.u0)],
                      vForces + [PointLoad(a, r.u1), PointLoad(b, r.u2)], moments, distLoads)
  }

  lemma SumOfTwo(s: seq<PointLoad>, p: PointLoad, q: PointLoad, f: PointLoad -> real)
    ensures SumOf(s + [p, q], f) == SumOf(s, f) + f(p) + f(q)
  {
    assert s + [p, q] == (s + [p]) + [q];
    SumOfAppend(s + [p], [q], f);
    SumOfAppend(s, [p], f);
    SumOfSingleton(p, f);
    SumOfSingleton(q, f);
  }

  /** The three rows are exactly the equilibrium conditions of the free body. */
  lemma SystemMeansEquilibrium(hForces: seq<PointLoad>, vForces: seq<PointLoad>, moments: seq<PointLoad>,
                               distLoads: seq<DistLoad>, a: real, b: real, hLocation: real, r: Unknowns)
    ensures Solves(EquilibriumSystem(hForces, vForces, moments, distLoads, a, b), r)
        <==> Balances(hForces, vForces, moments, distLoads, a, b, hLocation, r)
  {
    SystemRows(hForces, vForces, moments, distLoads, a, b, r);
    HorizontalRowMeans(hForces, hLocation, r.u0);
    VerticalRowMeans(vForces, SumOf(distLoads, Resultant), a, b, r.u1, r.u2);
    MomentRowMeans(vForces, moments, SumOf(distLoads, FirstMoment), a, b, r.u1, r.u2);
  }

  /** The three equations of the system, written out. */
  lemma SystemRows(hForces: seq<PointLoad>, vForces: seq<PointLoad>, moments: seq<PointLoad>,
                   distLoads: seq<DistLoad>, a: real, b: real, r: Unknowns)
    ensures Solves(EquilibriumSystem(hForces, vForces, moments, distLoads, a, b), r)
        <==> && r.u0 == HorizontalRhs(hForces)
             && r.u1 + r.u2 == VerticalRhs(vForces, distLoads)
             && a * r.u1 + b * r.u2 == MomentRhs(vForces, moments, distLoads)
  {
  }

  /** Row 1 of the system: A_x balances the horizontal forces. */
  lemma HorizontalRowMeans(hForces: seq<PointLoad>, hLocation: real, u0: real)
    ensures u0 == HorizontalRhs(hForces) <==> SumOf(hForces + [PointLoad(hLocation, u0)], Magnitude) == 0.0
  {
    SumOfAppend(hForces, [PointLoad(hLocation, u0)], Magnitude);
    SumOfSingleton(PointLoad(hLocation, u0), Magnitude);
  }

  /** Row 2 of the system: the two vertical reactions carry the vertical loads (resultant: the distributed ones). */
  lemma VerticalRowMeans(vForces: seq<PointLoad>, resultant: real, a: real, b: real, u1: real, u2: real)
    ensures u1 + u2 == -SumOf(vForces, Magnitude) + resultant
        <==> SumOf(vForces + [PointLoad(a, u1), PointLoad(b, u2)], Magnitude) == resultant
  {
    SumOfTwo(vForces, PointLoad(a, u1), PointLoad(b, u2), Magnitude);
  }

  /** Row 3 of the system: the moments about x = 0 balance (firstMoment: that of the distributed loads). */
  lemma MomentRowMeans(vForces: seq<PointLoad>, moments: seq<PointLoad>, firstMoment: real,
                       a: real, b: real, u1: real, u2: real)
    ensures a * u1 + b * u2 == -SumOf(moments, Magnitude) - SumOf(vForces, Lever) + firstMoment
        <==> SumOf(vForces + [PointLoad(a, u1), PointLoad(b, u2)], Lever) + SumOf(moments, Magnitude)
             == firstMoment
  {
    SumOfTwo(vForces, PointLoad(a, u1), PointLoad(b, u2), Lever);
  }

  /** One accumulator loop of the builder: `total += f(item)` over the list. */
  method Accumulate<T>(items: seq<T>, f: T -> real) returns (total: real)
    ensures total == SumOf(items, f)
  {
    total := 0.0;
    for i := 0 to |items|
      invariant total == SumOf(items[..i], f)
    {
      total := total + f(items[i]);
      SumOfStep(items, i, f);
    }
    assert items[..|items|] == items;
  }

  /**
   * solve_reaction_forces, up to the reduction: accumulates the load sums in one
   * loop each and writes them into column 3 of the hard-coded rows.
   */
  method BuildEquilibriumSystem(hForces: seq<PointLoad>, vForces: seq<PointLoad>, moments: seq<PointLoad>,
                                distLoads: seq<DistLoad>, a: real, b: real) returns (rxn: Matrix)
    ensures rxn == EquilibriumSystem(hForces, vForces, moments, distLoads, a, b)
  {
    var row1H := [1.0, 0.0, 0.0, 0.0];
    var row2V := [0.0, 1.0, 1.0, 0.0];
    var row3M := [0.0, a, b, 0.0];

    var hSum := Accumulate(hForces, Magnitude);
    row1H := row1H[3 := -hSum];

    var vSum := Accumulate(vForces, Magnitude);
    var mSum := Accumulate(moments, Magnitude);
    // moments of the vertical forces about the left end, x = 0
    var forceCrossDistanceSum := Accumulate(vForces, Lever);
    var totalMoment := -mSum - forceCrossDistanceSum;

    var distVSum := Accumulate(distLoads, Resultant);
    row2V := row2V[3 := -vSum + distVSum];

    var distMSum := Accumulate(distLoads, FirstMoment);
    totalMoment := totalMoment + distMSum;
    row3M := row3M[3 := totalMoment];

    assert row1H == [1.0, 0.0, 0.0, HorizontalRhs(hForces)];
    assert row2V == [0.0, 1.0, 1.0, VerticalRhs(vForces, distLoads)];
    assert row3M == [0.0, a, b, MomentRhs(vForces, moments, distLoads)];
    rxn := [row1H, row2V, row3M];
  }

  // ---------------------------------------------------------------------------
  // Internal-force evaluators
  // ---------------------------------------------------------------------------

  /** A point force counts at x once x has reached its location (inclusive). */
  function StepWeight(x: real): PointLoad -> real
  {
    (p: PointLoad) => if x >= p.location then p.magnitude else 0.0
  }

  /** A point force's moment at x: only strictly to the left of x. */
  function LeverWeight(x: real): PointLoad -> real
  {
    (p: PointLoad) => if x > p.location then p.magnitude * (x - p.location) else 0.0
  }

  /** A point moment counts at x only strictly to the left of x. */
  function StrictWeight(x: real): PointLoad -> real
  {
    (p: PointLoad) => if x > p.location then p.magnitude else 0.0
  }

  /** Point forces located in the window (x, y]. */
  function WindowWeight(x: real, y: real): PointLoad -> real
  {
    (p: PointLoad) => if x < p.location <= y then p.magnitude else 0.0
  }

  /** The part of a distributed load's resultant that lies to the left of x. */
  function DistShear(d: DistLoad, x: real): real
  {
    if d.start <= x <= d.end then Integral(d.w, d.start, x)
    else if x > d.end then Integral(d.w, d.start, d.end)
    else 0.0
  }

  function DistShearWeight(x: real): DistLoad -> real
  {
    (d: DistLoad) => DistShear(d, x)
  }

  /** Axial force at x: minus every horizontal force at or left of x. */
  function AxialForce(totalH: seq<PointLoad>, x: real): real
  {
    -SumOf(totalH, StepWeight(x))
  }

  /** Shear force at x: vertical forces at or left of x, less the distributed load left of x. */
  function ShearForce(totalV: seq<PointLoad>, distLoads: seq<DistLoad>, x: real): real
  {
    SumOf(totalV, StepWeight(x)) - SumOf(distLoads, DistShearWeight(x))
  }

  /** Bending moment at x: lever arms of the forces strictly left of x, less the moments there. */
  function MomentAt(totalV: seq<PointLoad>, moments: seq<PointLoad>, x: real): real
  {
    SumOf(totalV, LeverWeight(x)) - SumOf(moments, StrictWeight(x))
  }

  method AxialForceAtPoint(x: real, totalHForces: seq<PointLoad>) returns (h: real)
    ensures h == AxialForce(totalHForces, x)
  {
    h := 0.0;
    for i := 0 to |totalHForces|
      invariant h == -SumOf(totalHForces[..i], StepWeight(x))
    {
      var force := totalHForces[i];
      if x >= force.location {
        h := h - force.magnitude;
      }
      SumOfStep(totalHForces, i, StepWeight(x));
    }
    assert totalHForces[..|totalHForces|] == totalHForces;
  }

  method ShearForceAtPoint(x: real, totalVForces: seq<PointLoad>, distLoads: seq<DistLoad>) returns (v: real)
    ensures v == ShearForce(totalVForces, distLoads, x)
  {
    v := 0.0;
    for i := 0 to |totalVForces|
      invariant v == SumOf(totalVForces[..i], StepWeight(x))
    {
      var force := totalVForces[i];
      if x >= force.location {
        v := v + force.magnitude;
      }
      SumOfStep(totalVForces, i, StepWeight(x));
    }
    assert totalVForces[..|totalVForces|] == totalVForces;

    for j := 0 to |distLoads|
      invariant v == SumOf(totalVForces, StepWeight(x)) - SumOf(distLoads[..j], DistShearWeight(x))
    {
      var load := distLoads[j];
      if load.start <= x <= load.end {
        v := v - Integral(load.w, load.start, x);
      } else if x > load.end {
        v := v - Integral(load.w, load.start, load.end);
      }
      SumOfStep(distLoads, j, DistShearWeight(x));
    }
    assert distLoads[..|distLoads|] == distLoads;
  }

  method MomentAtPoint(x: real, totalVForces: seq<PointLoad>, moments: seq<PointLoad>) returns (m: real)
    ensures m == MomentAt(totalVForces, moments, x)
  {
    m := 0.0;
    for i := 0 to |totalVForces|
      invariant m == SumOf(totalVForces[..i], LeverWeight(x))
    {
      var force := totalVForces[i];
      if x > force.location {
        m := m + force.magnitude * (x - force.location);
      }
      SumOfStep(totalVForces, i, LeverWeight(x));
    }
    assert totalVForces[..|totalVForces|] == totalVForces;

    for j := 0 to |moments|
      invariant m == SumOf(totalVForces, LeverWeight(x)) - SumOf(moments[..j], StrictWeight(x))
    {
      var moment := moments[j];
      if x > moment.location {
        m := m - moment.magnitude;
      }
      SumOfStep(moments, j, StrictWeight(x));
    }
    assert moments[..|moments|] == moments;
  }

  // ---------------------------------------------------------------------------
  // Sum lemmas used by the evaluator properties
  // ---------------------------------------------------------------------------

  lemma {:induction false} SumOfZero<T>(s: seq<T>, f: T -> real)
    requires forall i :: 0 <= i < |s| ==> f(s[i]) == 0.0
    ensures SumOf(s, f) == 0.0
    decreases |s|
  {
    if |s| > 0 {
      SumOfZero(s[..|s| - 1], f);
    }
  }

  /** f = c·g + d·h element by element gives the same relation between the sums. */
  lemma {:induction false} SumOfLinear<T>(s: seq<T>, f: T -> real, g: T -> real, h: T -> real, c: real, d: real)
    requires forall i :: 0 <= i < |s| ==> f(s[i]) == c * g(s[i]) + d * h(s[i])
    ensures SumOf(s, f) == c * SumOf(s, g) + d * SumOf(s, h)
    decreases |s|
  {
    if |s| > 0 {
      var n := |s| - 1;
      SumOfLinear(s[..n], f, g, h, c, d);
      assert c * (SumOf(s[..n], g) + g(s[n])) == c * SumOf(s[..n], g) + c * g(s[n]);
      assert d * (SumOf(s[..n], h) + h(s[n])) == d * SumOf(s[..n], h) + d * h(s[n]);
    }
  }

  // ---------------------------------------------------------------------------
  // Evaluator properties
  // ---------------------------------------------------------------------------

  /**
   * Boundary conventions at the query point itself: a force located exactly at x
   * already counts in the axial and shear force (≤), while neither a force nor a
   * point moment located at x contributes to the moment at x (<).
   */
  lemma LoadAtQueryPoint(s: seq<PointLoad>, distLoads: seq<DistLoad>, moments: seq<PointLoad>,
                         x: real, f: real, c: real)
    ensures AxialForce(s + [PointLoad(x, f)], x) == AxialForce(s, x) - f
    ensures ShearForce(s + [PointLoad(x, f)], distLoads, x) == ShearForce(s, distLoads, x) + f
    ensures MomentAt(s + [PointLoad(x, f)], moments + [PointLoad(x, c)], x) == MomentAt(s, moments, x)
  {
    SumOfAppend(s, [PointLoad(x, f)], StepWeight(x));
    SumOfSingleton(PointLoad(x, f), StepWeight(x));
    SumOfAppend(s, [PointLoad(x, f)], LeverWeight(x));
    SumOfSingleton(PointLoad(x, f), LeverWeight(x));
    SumOfAppend(moments, [PointLoad(x, c)], StrictWeight(x));
    SumOfSingleton(PointLoad(x, c), StrictWeight(x));
  }

  /** The evaluators depend only on which loads there are, not on their order. */
  lemma OrderInsensitive(s: seq<PointLoad>, t: seq<PointLoad>, ds: seq<DistLoad>, es: seq<DistLoad>,
                         ms: seq<PointLoad>, ns: seq<PointLoad>, x: real)
    requires multiset(s) == multiset(t) && multiset(ds) == multiset(es) && multiset(ms) == multiset(ns)
    ensures AxialForce(s, x) == AxialForce(t, x)
    ensures ShearForce(s, ds, x) == ShearForce(t, es, x)
    ensures MomentAt(s, ms, x) == MomentAt(t, ns, x)
  {
    SumOfPermutation(s, t, StepWeight(x));
    SumOfPermutation(ds, es, DistShearWeight(x));
    SumOfPermutation(s, t, LeverWeight(x));
    SumOfPermutation(ms, ns, StrictWeight(x));
  }

  /** Left of every load all three internal forces are zero. */
  lemma BeforeEveryLoad(s: seq<PointLoad>, distLoads: seq<DistLoad>, moments: seq<PointLoad>, x: real)
    requires forall i :: 0 <= i < |s| ==> x < s[i].location
    requires forall i :: 0 <= i < |distLoads| ==> x < distLoads[i].start < distLoads[i].end
    requires forall i :: 0 <= i < |moments| ==> x <= moments[i].location
    ensures AxialForce(s, x) == 0.0
    ensures ShearForce(s, distLoads, x) == 0.0
    ensures MomentAt(s, moments, x) == 0.0
  {
    SumOfZero(s, StepWeight(x));
    SumOfZero(distLoads, DistShearWeight(x));
    SumOfZero(s, LeverWeight(x));
    SumOfZero(moments, StrictWeight(x));
  }

  /**
   * Axial and point shear are right-continuous step functions: from x to y they
   * change by exactly the forces located in (x, y], so they are constant between
   * load locations.
   */
  lemma StepJump(s: seq<PointLoad>, x: real, y: real)
    requires x <= y
    ensures SumOf(s, StepWeight(y)) == SumOf(s, StepWeight(x)) + SumOf(s, WindowWeight(x, y))
    ensures AxialForce(s, y) == AxialForce(s, x) - SumOf(s, WindowWeight(x, y))
    ensures (forall i :: 0 <= i < |s| ==> !(x < s[i].location <= y)) ==> AxialForce(s, y) == AxialForce(s, x)
  {
    SumOfLinear(s, StepWeight(y), StepWeight(x), WindowWeight(x, y), 1.0, 1.0);
    if forall i :: 0 <= i < |s| ==> !(x < s[i].location <= y) {
      SumOfZero(s, WindowWeight(x, y));
    }
  }

  /**
   * The distributed part of the shear: nothing before the load starts, the
   * integral from start to x inside it, the whole resultant from its end on; the
   * two branches of the source agree at x = end, and inside the load what is
   * still to come is the integral from x to the end.
   */
  lemma DistShearPieces(d: DistLoad, x: real)
    requires d.start < d.end
    ensures x < d.start ==> DistShear(d, x) == 0.0
    ensures d.start <= x <= d.end ==> DistShear(d, x) == Integral(d.w, d.start, x)
    ensures d.end <= x ==> DistShear(d, x) == Resultant(d)
    ensures DistShear(d, d.start) == 0.0
    ensures d.start <= x <= d.end ==> Resultant(d) - DistShear(d, x) == Integral(d.w, x, d.end)
  {
    if d.start <= x <= d.end {
      IntegralAdditive(d.w, d.start, x, d.end);
    }
  }

  /** Once every horizontal force is left of x, a balanced series gives zero axial force. */
  lemma AxialClosesBeyond(totalH: seq<PointLoad>, x: real)
    requires SumOf(totalH, Magnitude) == 0.0
    requires forall i :: 0 <= i < |totalH| ==> totalH[i].location <= x
    ensures AxialForce(totalH, x) == 0.0
  {
    SumOfLinear(totalH, StepWeight(x), Magnitude, Magnitude, 1.0, 0.0);
  }

  /**
   * Once every vertical force and every distributed load is left of x, a series
   * that carries the distributed resultant gives zero shear.
   */
  lemma ShearClosesBeyond(totalV: seq<PointLoad>, distLoads: seq<DistLoad>, x: real)
    requires SumOf(totalV, Magnitude) == SumOf(distLoads, Resultant)
    requires forall i :: 0 <= i < |totalV| ==> totalV[i].location <= x
    requires forall i :: 0 <= i < |distLoads| ==> distLoads[i].start < distLoads[i].end <= x
    ensures ShearForce(totalV, distLoads, x) == 0.0
  {
    SumOfLinear(totalV, StepWeight(x), Magnitude, Magnitude, 1.0, 0.0);
    DistShearPastEnd(distLoads, x);
  }

  /** Past the end of every distributed load, the shear carries each whole resultant. */
  lemma {:induction false} DistShearPastEnd(distLoads: seq<DistLoad>, x: real)
    requires forall i :: 0 <= i < |distLoads| ==> distLoads[i].start < distLoads[i].end <= x
    ensures SumOf(distLoads, DistShearWeight(x)) == SumOf(distLoads, Resultant)
    decreases |distLoads|
  {
    if |distLoads| > 0 {
      var n := |distLoads| - 1;
      DistShearPastEnd(distLoads[..n], x);
      DistShearPieces(distLoads[n], x);
    }
  }

  /**
   * Strictly right of every force and moment, a series with no net force and no
   * net moment about x = 0 gives zero bending moment.
   */
  lemma MomentClosesBeyond(totalV: seq<PointLoad>, moments: seq<PointLoad>, x: real)
    requires SumOf(totalV, Magnitude) == 0.0
    requires SumOf(totalV, Lever) + SumOf(moments, Magnitude) == 0.0
    requires forall i :: 0 <= i < |totalV| ==> totalV[i].location < x
    requires forall i :: 0 <= i < |moments| ==> moments[i].location < x
    ensures MomentAt(totalV, moments, x) == 0.0
  {
    LeverBeyond(totalV, x);
    ScaleEqual(x, SumOf(totalV, Magnitude), 0.0);
    SumOfLinear(moments, StrictWeight(x), Magnitude, Magnitude, 1.0, 0.0);
  }

  /** c·a = c·b when a = b, kept apart so callers stay linear. */
  lemma ScaleEqual(c: real, a: real, b: real)
    requires a == b
    ensures c * a == c * b
  {
  }

  /** c·(a + b) = c·a + c·b, kept apart so callers stay linear. */
  lemma Distribute(c: real, a: real, b: real)
    ensures c * (a + b) == c * a + c * b
  {
  }

  /** Right of every force, the lever sum about x is x·ΣF − Σ(location·F). */
  lemma {:induction false} LeverBeyond(s: seq<PointLoad>, x: real)
    requires forall i :: 0 <= i < |s| ==> s[i].location < x
    ensures SumOf(s, LeverWeight(x)) == x * SumOf(s, Magnitude) - SumOf(s, Lever)
    decreases |s|
  {
    if |s| > 0 {
      var n := |s| - 1;
      var p := s[n];
      LeverBeyond(s[..n], x);
      assert LeverWeight(x)(p) == x * p.magnitude - p.location * p.magnitude;
      Distribute(x, SumOf(s[..n], Magnitude), p.magnitude);
    }
  }
}
