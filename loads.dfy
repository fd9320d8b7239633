/**
 * The load model: point forces and point moments share one shape (a location on
 * the beam and a signed magnitude), a distributed load covers [start, end] with a
 * polynomial intensity. Sums over load lists are written once, generically.
 */
module Loads {
  import opened Polynomial

  /**
   * A horizontal point force (positive to the right), a vertical point force
   * (positive upwards) or a point moment (positive counter-clockwise).
   */
  datatype PointLoad = PointLoad(location: real, magnitude: real)

  /** A distributed load of intensity w(x) on [start, end]; positive w acts downwards. */
  datatype DistLoad = DistLoad(start: real, end: real, w: seq<real>)

  /** Every point load lies on the beam [0, length]. */
  predicate OnBeam(s: seq<PointLoad>, length: real)
  {
    forall i :: 0 <= i < |s| ==> 0.0 <= s[i].location <= length
  }

  /** Every distributed load has 0 <= start < end <= length. */
  predicate DistOnBeam(ds: seq<DistLoad>, length: real)
  {
    forall i :: 0 <= i < |ds| ==> 0.0 <= ds[i].start < ds[i].end <= length
  }

  /** f summed over s, accumulated front to back as the source's loops do. */
  function SumOf<T>(s: seq<T>, f: T -> real): real
    decreases |s|
  {
    if |s| == 0 then 0.0 else SumOf(s[..|s| - 1], f) + f(s[|s| - 1])
  }

  function Magnitude(p: PointLoad): real { p.magnitude }

  /** Moment of a point force about x = 0. */
  function Lever(p: PointLoad): real { p.location * p.magnitude }

  /** Resultant of a distributed load, its integral over [start, end]. */
  function Resultant(d: DistLoad): real { Integral(d.w, d.start, d.end) }

  /** First moment of a distributed load about x = 0, the integral of x·w(x). */
  function FirstMoment(d: DistLoad): real { Integral(MulX(d.w), d.start, d.end) }

  /** One step of an accumulator loop: the prefix sum grows by the next element. */
  lemma SumOfStep<T>(s: seq<T>, i: nat, f: T -> real)
    requires i < |s|
    ensures SumOf(s[..i + 1], f) == SumOf(s[..i], f) + f(s[i])
  {
    assert s[..i + 1][..i] == s[..i];
  }

  lemma {:induction false} SumOfAppend<T>(s: seq<T>, t: seq<T>, f: T -> real)
    ensures SumOf(s + t, f) == SumOf(s, f) + SumOf(t, f)
    decreases |t|
  {
    if |t| == 0 {
      assert s + t == s;
    } else {
      var n := |t| - 1;
      assert (s + t)[..|s + t| - 1] == s + t[..n];
      SumOfAppend(s, t[..n], f);
    }
  }

  lemma SumOfSingleton<T>(x: T, f: T -> real)
    ensures SumOf([x], f) == f(x)
  {
    assert [x][..0] == [];
  }

  /** Sums do not depend on the order of the elements. */
  lemma {:induction false} SumOfPermutation<T>(s: seq<T>, t: seq<T>, f: T -> real)
    requires multiset(s) == multiset(t)
    ensures SumOf(s, f) == SumOf(t, f)
    decreases |s|
  {
    if |s| == 0 {
      assert |t| == |multiset(t)| == 0;
    } else {
      var n := |s| - 1;
      var x := s[n];
      assert s == s[..n] + [x];
      assert x in multiset(t);
      var j :| 0 <= j < |t| && t[j] == x;
      var rest := t[..j] + t[j + 1..];
      assert t == t[..j] + [x] + t[j + 1..];
      assert multiset(s) == multiset(s[..n]) + multiset{x};
      assert multiset(t) == multiset(rest) + multiset{x};
      assert multiset(s[..n]) == multiset(s) - multiset{x};
      assert multiset(rest) == multiset(t) - multiset{x};
      SumOfPermutation(s[..n], rest, f);
      SumOfAppend(t[..j] + [x], t[j + 1..], f);
      SumOfAppend(t[..j], [x], f);
      SumOfAppend(t[..j], t[j + 1..], f);
      SumOfSingleton(x, f);
    }
  }
}
