/**
 Polar building blocks shared by every surface of the stadium model.

 The renderer places a vertex at `centre + (rx * cos a, ry * sin a, z)`. The
 model keeps vertices in that polar form -- an ellipse (a pair of semi-axes),
 an angle and an elevation -- so that no trigonometry has to be interpreted.
 */
module Geometry {

  /** The semi-axes of an ellipse centred on the stadium's centre. */
  datatype Ellipse = Ellipse(rx: real, ry: real)

  /** A ring of the stadium: an ellipse raised to elevation `z`. */
  datatype Profile = Profile(radius: Ellipse, z: real)

  /** An angular range in degrees, swept from `start` to `end`. */
  datatype Arc = Arc(start: real, end: real)

  /** Linear interpolation: `a` at `t = 0`, `b` at `t = 1`. */
  function Lerp(a: real, b: real, t: real): real
  {
    a + (b - a) * t
  }

  function LerpEllipse(e0: Ellipse, e1: Ellipse, t: real): Ellipse
  {
    Ellipse(Lerp(e0.rx, e1.rx, t), Lerp(e0.ry, e1.ry, t))
  }

  /** `e1` is strictly larger than `e0` along both axes. */
  predicate Inside(e0: Ellipse, e1: Ellipse)
  {
    e0.rx < e1.rx && e0.ry < e1.ry
  }

  /** The fraction `i / n` of an integer count, as the source's `(float)i / n`. */
  function Fraction(i: int, n: int): real
    requires n != 0
  {
    i as real / n as real
  }

  lemma FractionBounds(i: int, n: int)
    requires 0 <= i <= n && 0 < n
    ensures 0.0 <= Fraction(i, n) <= 1.0
    ensures i == 0 ==> Fraction(i, n) == 0.0
    ensures i == n ==> Fraction(i, n) == 1.0
  {
    assert Fraction(i, n) * n as real == i as real;
  }

  lemma FractionIncreasing(i: int, j: int, n: int)
    requires i < j && 0 < n
    ensures Fraction(i, n) < Fraction(j, n)
  {
    var fi, fj := Fraction(i, n), Fraction(j, n);
    assert fi * n as real == i as real;
    assert fj * n as real == j as real;
    assert (fj - fi) * n as real == (j - i) as real;
  }

  /** Interpolation between distinct ends moves strictly towards the larger end. */
  lemma LerpIncreasing(a: real, b: real, t0: real, t1: real)
    requires a < b && t0 < t1
    ensures Lerp(a, b, t0) < Lerp(a, b, t1)
  {
    var d := b - a;
    ProductPositive(d, t1 - t0);
    assert d * t1 - d * t0 == d * (t1 - t0);
    assert Lerp(a, b, t1) - Lerp(a, b, t0) == d * t1 - d * t0;
  }

  lemma ProductPositive(x: real, y: real)
    requires 0.0 < x && 0.0 < y
    ensures 0.0 < x * y
  {
  }

  /** Interpolation within the unit interval stays between its ends. */
  lemma LerpBetween(a: real, b: real, t: real)
    requires a <= b && 0.0 <= t <= 1.0
    ensures a <= Lerp(a, b, t) <= b
  {
    var d := b - a;
    if d > 0.0 && 0.0 < t < 1.0 {
      ProductPositive(d, t);
      ProductPositive(d, 1.0 - t);
      assert d * t + d * (1.0 - t) == d;
      assert Lerp(a, b, t) == a + d * t;
      assert d * t < d;
    }
  }

  /** `theta` lies on `a`, endpoints included. */
  predicate Covers(a: Arc, theta: real)
  {
    a.start <= theta <= a.end
  }

  /** Arcs listed in angular order, each of positive width, each starting
      exactly where the previous one ends. */
  predicate Contiguous(arcs: seq<Arc>)
  {
    && (forall i :: 0 <= i < |arcs| ==> arcs[i].start < arcs[i].end)
    && (forall i :: 0 <= i < |arcs| - 1 ==> arcs[i].end == arcs[i + 1].start)
  }

  /** A contiguous run of arcs leaves no gap between its ends. */
  lemma {:induction false} ContiguousCovers(arcs: seq<Arc>, theta: real)
    requires Contiguous(arcs) && |arcs| > 0
    requires arcs[0].start <= theta <= arcs[|arcs| - 1].end
    ensures exists i :: 0 <= i < |arcs| && Covers(arcs[i], theta)
  {
    if theta <= arcs[0].end {
      assert Covers(arcs[0], theta);
    } else {
      var rest := arcs[1..];
      assert rest[0].start == arcs[0].end;
      ContiguousCovers(rest, theta);
      var i :| 0 <= i < |rest| && Covers(rest[i], theta);
      assert Covers(arcs[i + 1], theta);
    }
  }

  /** In a contiguous run, an earlier arc ends before a later one starts, so
      two arcs share at most a boundary angle. */
  lemma {:induction false} ContiguousOrdered(arcs: seq<Arc>, i: int, j: int)
    requires Contiguous(arcs) && 0 <= i < j < |arcs|
    ensures arcs[i].end <= arcs[j].start
    decreases j - i
  {
    if j > i + 1 {
      ContiguousOrdered(arcs, i, j - 1);
      assert arcs[j - 1].start < arcs[j - 1].end == arcs[j].start;
    }
  }
}
