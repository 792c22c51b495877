/**
 Three-component real vectors, the fixed-shape replacement for the source's
 ad hoc `SimpleNamespace(x=…, y=…, z=…)` records, with the component-wise
 operations the estimator uses.
 */
module Vectors {

  datatype Vec3 = Vec3(x: real, y: real, z: real)

  datatype Axis = X | Y | Z

  const Zero: Vec3 := Vec3(0.0, 0.0, 0.0)

  function Get(v: Vec3, a: Axis): real {
    match a
    case X => v.x
    case Y => v.y
    case Z => v.z
  }

  /** Two vectors that agree on every axis are equal. */
  lemma Extensionality(u: Vec3, w: Vec3)
    requires forall a: Axis :: Get(u, a) == Get(w, a)
    ensures u == w
  {
    assert Get(u, X) == Get(w, X);
    assert Get(u, Y) == Get(w, Y);
    assert Get(u, Z) == Get(w, Z);
  }

  function Add(u: Vec3, w: Vec3): (r: Vec3)
    ensures forall a: Axis :: Get(r, a) == Get(u, a) + Get(w, a)
  {
    Vec3(u.x + w.x, u.y + w.y, u.z + w.z)
  }

  function Sub(u: Vec3, w: Vec3): (r: Vec3)
    ensures forall a: Axis :: Get(r, a) == Get(u, a) - Get(w, a)
    ensures Add(r, w) == u
  {
    Vec3(u.x - w.x, u.y - w.y, u.z - w.z)
  }

  function Scale(k: real, v: Vec3): Vec3 {
    Vec3(k * v.x, k * v.y, k * v.z)
  }

  /** Every component of v lies in [-bound, bound]. */
  predicate InBox(v: Vec3, bound: real) {
    forall a: Axis :: -bound <= Get(v, a) <= bound
  }

  /** Left-to-right component-wise sum, the order in which `sum(...)` adds. */
  function Sum(s: seq<Vec3>): Vec3 {
    if |s| == 0 then Zero else Add(Sum(s[..|s| - 1]), s[|s| - 1])
  }

  /** Component-wise arithmetic mean: each axis summed, then divided by the count. */
  function Mean(s: seq<Vec3>): (r: Vec3)
    requires |s| > 0
    ensures Scale(|s| as real, r) == Sum(s)
  {
    var n := |s| as real;
    var r := Vec3(Sum(s).x / n, Sum(s).y / n, Sum(s).z / n);
    Extensionality(Scale(n, r), Sum(s));
    r
  }

  /** The sum of n copies of g is n times g. */
  lemma {:induction false} SumOfCopies(s: seq<Vec3>, g: Vec3)
    requires forall i :: 0 <= i < |s| ==> s[i] == g
    ensures Sum(s) == Scale(|s| as real, g)
  {
    if |s| > 0 {
      var init := s[..|s| - 1];
      SumOfCopies(init, g);
    }
  }

  /** The mean of identical samples is that sample, exactly. */
  lemma MeanOfCopies(s: seq<Vec3>, g: Vec3)
    requires |s| > 0
    requires forall i :: 0 <= i < |s| ==> s[i] == g
    ensures Mean(s) == g
  {
    SumOfCopies(s, g);
    var n := |s| as real;
    assert (n * g.x) / n == g.x;
    assert (n * g.y) / n == g.y;
    assert (n * g.z) / n == g.z;
  }

  /** The mean of three samples, written out per axis. */
  lemma MeanOfThree(p: Vec3, q: Vec3, r: Vec3)
    ensures forall a: Axis :: Get(Mean([p, q, r]), a) == (Get(p, a) + Get(q, a) + Get(r, a)) / 3.0
  {
    var s := [p, q, r];
    assert s[..2] == [p, q];
    assert [p, q][..1] == [p];
    assert [p][..0] == [];
    assert Sum([p]) == Add(Zero, p);
    assert Sum([p, q]) == Add(Sum([p]), q);
    assert Sum(s) == Add(Sum([p, q]), r);
  }
}
