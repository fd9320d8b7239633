/**
 * The 3×4 augmented matrix of the equilibrium equations and its reduction to
 * reduced row-echelon form. The builder always fills the three coefficient
 * columns with the same pattern
 *     [1, 0, 0]
 *     [0, 1, 1]
 *     [0, a, b]
 * (a and b are the positions of the two vertical reactions), and Rref performs
 * Gauss-Jordan elimination, column by column, on exactly that pattern.
 */
module LinearSystem {

  type Matrix = seq<seq<real>>

  predicate IsMatrix(m: Matrix)
  {
    |m| == 3 && |m[0]| == 4 && |m[1]| == 4 && |m[2]| == 4
  }

  /** Values for the three unknowns, one per coefficient column. */
  datatype Unknowns = Unknowns(u0: real, u1: real, u2: real)

  predicate SolvesRow(r: seq<real>, x: Unknowns)
    requires |r| == 4
  {
    r[0] * x.u0 + r[1] * x.u1 + r[2] * x.u2 == r[3]
  }

  /** x satisfies all three equations of the augmented matrix m. */
  predicate Solves(m: Matrix, x: Unknowns)
    requires IsMatrix(m)
  {
    SolvesRow(m[0], x) && SolvesRow(m[1], x) && SolvesRow(m[2], x)
  }

  /** The coefficient pattern the equilibrium builder produces. */
  predicate HasEquilibriumShape(m: Matrix)
  {
    && IsMatrix(m)
    && m[0][0] == 1.0 && m[0][1] == 0.0 && m[0][2] == 0.0
    && m[1][0] == 0.0 && m[1][1] == 1.0 && m[1][2] == 1.0
    && m[2][0] == 0.0
  }

  /** Column of the first non-zero entry of a row, or 4 for a zero row. */
  function Lead(r: seq<real>): (c: nat)
    requires |r| == 4
    ensures c <= 4
    ensures forall j :: 0 <= j < c && j < 4 ==> r[j] == 0.0
    ensures c < 4 ==> r[c] != 0.0
  {
    if r[0] != 0.0 then 0
    else if r[1] != 0.0 then 1
    else if r[2] != 0.0 then 2
    else if r[3] != 0.0 then 3
    else 4
  }

  /**
   * Reduced row-echelon form: leading entries move strictly right from row to
   * row, zero rows come last, every leading entry is 1 and is the only non-zero
   * entry of its column.
   */
  predicate IsRref(m: Matrix)
    requires IsMatrix(m)
  {
    && (Lead(m[1]) == 4 || Lead(m[0]) < Lead(m[1]))
    && (Lead(m[2]) == 4 || Lead(m[1]) < Lead(m[2]))
    && (forall i, k :: 0 <= i < 3 && 0 <= k < 3 && Lead(m[i]) < 4 ==>
          m[k][Lead(m[i])] == if k == i then 1.0 else 0.0)
  }

  /** Row operation r − k·p. */
  function Sub(r: seq<real>, k: real, p: seq<real>): (q: seq<real>)
    requires |r| == 4 && |p| == 4
    ensures |q| == 4
  {
    [r[0] - k * p[0], r[1] - k * p[1], r[2] - k * p[2], r[3] - k * p[3]]
  }

  /** Row operation r / c. */
  function Scale(r: seq<real>, c: real): (q: seq<real>)
    requires |r| == 4 && c != 0.0
    ensures |q| == 4
  {
    [r[0] / c, r[1] / c, r[2] / c, r[3] / c]
  }

  /** Subtracting a multiple of a satisfied equation keeps the solution set. */
  lemma SubKeepsSolutions(r: seq<real>, k: real, p: seq<real>, x: Unknowns)
    requires |r| == 4 && |p| == 4 && SolvesRow(p, x)
    ensures SolvesRow(Sub(r, k, p), x) <==> SolvesRow(r, x)
  {
    var q := Sub(r, k, p);
    assert q[0] * x.u0 + q[1] * x.u1 + q[2] * x.u2 - q[3]
        == (r[0] * x.u0 + r[1] * x.u1 + r[2] * x.u2 - r[3])
           - k * (p[0] * x.u0 + p[1] * x.u1 + p[2] * x.u2 - p[3]);
  }

  /** Dividing an equation by a non-zero constant keeps its solutions. */
  lemma ScaleKeepsSolutions(r: seq<real>, c: real, x: Unknowns)
    requires |r| == 4 && c != 0.0
    ensures SolvesRow(Scale(r, c), x) <==> SolvesRow(r, x)
  {
    var q := Scale(r, c);
    assert q[0] * x.u0 + q[1] * x.u1 + q[2] * x.u2 - q[3]
        == (r[0] * x.u0 + r[1] * x.u1 + r[2] * x.u2 - r[3]) / c;
  }

  lemma DivideBySelf(c: real)
    requires c != 0.0
    ensures c / c == 1.0 && 0.0 / c == 0.0
  {
  }

  /**
   * Gauss-Jordan elimination of the equilibrium pattern. Columns 0 and 1 already
   * hold their pivots in rows 0 and 1; row 2 loses its column-1 entry; if column 2
   * then has a pivot (a ≠ b) it is normalised and cleared from row 1, otherwise the
   * pivot, if any, moves to the augmented column 3.
   */
  function Rref(m: Matrix): (r: Matrix)
    requires HasEquilibriumShape(m)
    ensures IsMatrix(r) && IsRref(r)
  {
    var e := Sub(m[2], m[2][1], m[1]);
    assert e[0] == 0.0 && e[1] == 0.0 && e[2] == m[2][2] - m[2][1];
    if e[2] != 0.0 then
      var p := Scale(e, e[2]);
      DivideBySelf(e[2]);
      assert p[0] == 0.0 && p[1] == 0.0 && p[2] == 1.0;
      [m[0], Sub(m[1], m[1][2], p), p]
    else if e[3] != 0.0 then
      var p := Scale(e, e[3]);
      DivideBySelf(e[3]);
      assert p[0] == 0.0 && p[1] == 0.0 && p[2] == 0.0 && p[3] == 1.0;
      [Sub(m[0], m[0][3], p), Sub(m[1], m[1][3], p), p]
    else
      [m[0], m[1], e]
  }

  /** The values the solution is read from: column 3 of each row. */
  function Reading(m: Matrix): Unknowns
    requires IsMatrix(m)
  {
    Unknowns(m[0][3], m[1][3], m[2][3])
  }

  /** Rref only applies row operations: the reduced system has the same solutions. */
  lemma RrefKeepsSolutions(m: Matrix, x: Unknowns)
    requires HasEquilibriumShape(m)
    ensures Solves(Rref(m), x) <==> Solves(m, x)
  {
    var e := Sub(m[2], m[2][1], m[1]);
    if e[2] != 0.0 {
      var p := Scale(e, e[2]);
      ScaleKeepsSolutions(e, e[2], x);
      if SolvesRow(p, x) {
        SubKeepsSolutions(m[1], m[1][2], p, x);
      }
      if SolvesRow(m[1], x) {
        SubKeepsSolutions(m[2], m[2][1], m[1], x);
      }
    } else if e[3] != 0.0 {
      var p := Scale(e, e[3]);
      ScaleKeepsSolutions(e, e[3], x);
      assert !SolvesRow(p, x);
      if SolvesRow(m[1], x) {
        SubKeepsSolutions(m[2], m[2][1], m[1], x);
      }
    } else {
      if SolvesRow(m[1], x) {
        SubKeepsSolutions(m[2], m[2][1], m[1], x);
      }
    }
  }

  /**
   * When a ≠ b the system has exactly one solution, and it is the one read from
   * column 3 of the reduced matrix.
   */
  lemma RrefUniqueSolution(m: Matrix, x: Unknowns)
    requires HasEquilibriumShape(m) && m[2][1] != m[2][2]
    ensures Solves(m, x) <==> x == Reading(Rref(m))
  {
    RrefKeepsSolutions(m, x);
    var r := Rref(m);
    assert r[0][..3] == [1.0, 0.0, 0.0] && r[1][..3] == [0.0, 1.0, 0.0] && r[2][..3] == [0.0, 0.0, 1.0];
  }

  /**
   * Closed form of the solution when a ≠ b: the second vertical unknown is
   * (rhs₂ − a·rhs₁) / (b − a), the first is rhs₁ minus it, the horizontal one is rhs₀.
   */
  lemma RrefClosedForm(a: real, b: real, rhs0: real, rhs1: real, rhs2: real)
    requires a != b
    ensures var r := Reading(Rref([[1.0, 0.0, 0.0, rhs0], [0.0, 1.0, 1.0, rhs1], [0.0, a, b, rhs2]]));
      && r.u2 == (rhs2 - a * rhs1) / (b - a)
      && r.u1 == rhs1 - r.u2
      && r.u0 == rhs0
  {
    var m := [[1.0, 0.0, 0.0, rhs0], [0.0, 1.0, 1.0, rhs1], [0.0, a, b, rhs2]];
    var e := Sub(m[2], m[2][1], m[1]);
    assert e[2] == b - a;
    assert e[3] == rhs2 - a * rhs1;
    var p := Scale(e, e[2]);
    assert Rref(m) == [m[0], Sub(m[1], m[1][2], p), p];
  }

  /**
   * When a = b the reduced matrix has no pivot in column 2, and the system never
   * has a unique solution: moving one unit of reaction from the second vertical
   * unknown to the first keeps every equation satisfied.
   */
  lemma SingularNotUnique(m: Matrix, x: Unknowns)
    requires HasEquilibriumShape(m) && m[2][1] == m[2][2]
    ensures Lead(Rref(m)[2]) >= 3
    ensures Solves(m, x) ==> Solves(m, Unknowns(x.u0, x.u1 + 1.0, x.u2 - 1.0))
  {
  }
}
