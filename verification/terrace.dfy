/**
 The terrace-step generator of one seating arc (the loop over `k` inside
 `display`, almeidao.cpp:82).

 Step `k` of `N` spans radially from the ellipse at fraction `k / N` to the
 ellipse at fraction `(k + 1) / N` between the seating's inner and outer
 ellipses, and rises to an elevation interpolated between the minimum and the
 maximum height at fraction `k / (N - 1)`. Its base is the previous step's
 top, the first step standing on the seating's base elevation.
 */
module Terrace {
  import opened Geometry

  /** The parameters the generator reads: step count, the seating's inner and
      outer ellipses, the base elevation and the first and last step heights. */
  datatype Seating = Seating(
    steps: int,
    inner: Ellipse,
    outer: Ellipse,
    zBase: real,
    minHeight: real,
    maxHeight: real)

  /** One step: a tread from `inner` to `outer` at `zTop`, and a riser on
      `inner` from `zBase` up to `zTop`. */
  datatype Step = Step(inner: Ellipse, outer: Ellipse, zBase: real, zTop: real)

  /** The configurations whose steps form a proper staircase. */
  predicate WellFormed(p: Seating)
  {
    && p.steps >= 2
    && 0.0 < p.minHeight < p.maxHeight
    && Inside(p.inner, p.outer)
  }

  /** The top elevation of step `k`. */
  function TopAt(p: Seating, k: int): real
    requires p.steps >= 2
  {
    p.zBase + Lerp(p.minHeight, p.maxHeight, Fraction(k, p.steps - 1))
  }

  /** Step `k` in closed form: its base is stated directly as the top of
      step `k - 1`, where the source carries it over from the previous
      iteration. */
  function StepAt(p: Seating, k: int): Step
    requires p.steps >= 2
  {
    Step(
      LerpEllipse(p.inner, p.outer, Fraction(k, p.steps)),
      LerpEllipse(p.inner, p.outer, Fraction(k + 1, p.steps)),
      if k == 0 then p.zBase else TopAt(p, k - 1),
      TopAt(p, k))
  }

  /** All steps of a seating arc, bottom to top. */
  function Steps(p: Seating): seq<Step>
    requires p.steps >= 2
  {
    seq(p.steps, k => StepAt(p, k))
  }

  /** The generator as the source runs it: one pass over `k`, carrying the
      previous step's top forward as the next step's base. */
  method GenerateSteps(p: Seating) returns (steps: seq<Step>)
    requires p.steps >= 2
    ensures steps == Steps(p)
    ensures |steps| == p.steps
    ensures steps[0].zBase == p.zBase
    ensures forall k :: 1 <= k < |steps| ==> steps[k].zBase == steps[k - 1].zTop
    ensures forall k :: 0 <= k < |steps| - 1 ==> steps[k].outer == steps[k + 1].inner
  {
    steps := [];
    var zPreviousTop := p.zBase;
    var k := 0;
    while k < p.steps
      invariant 0 <= k <= p.steps
      invariant |steps| == k
      invariant forall j :: 0 <= j < k ==> steps[j] == StepAt(p, j)
      invariant zPreviousTop == if k == 0 then p.zBase else TopAt(p, k - 1)
    {
      var zTop := p.zBase + Lerp(p.minHeight, p.maxHeight, k as real / (p.steps - 1) as real);
      var inner := LerpEllipse(p.inner, p.outer, k as real / p.steps as real);
      var outer := LerpEllipse(p.inner, p.outer, (k + 1) as real / p.steps as real);
      steps := steps + [Step(inner, outer, zPreviousTop, zTop)];
      zPreviousTop := zTop;
      k := k + 1;
    }
  }

  /** Each step stands exactly on the one below it, the first on the base. */
  lemma StepsStack(p: Seating, k: int)
    requires p.steps >= 2 && 0 <= k < p.steps
    ensures k == 0 ==> Steps(p)[k].zBase == p.zBase
    ensures k > 0 ==> Steps(p)[k].zBase == Steps(p)[k - 1].zTop
  {
  }

  /** Tops run from base + minimum height at the first step to base + maximum
      height at the last. */
  lemma TopEndpoints(p: Seating)
    requires p.steps >= 2
    ensures Steps(p)[0].zTop == p.zBase + p.minHeight
    ensures Steps(p)[p.steps - 1].zTop == p.zBase + p.maxHeight
  {
    FractionBounds(0, p.steps - 1);
    FractionBounds(p.steps - 1, p.steps - 1);
  }

  /** Tops strictly increase with the step index. */
  lemma TopsIncrease(p: Seating, i: int, j: int)
    requires WellFormed(p) && 0 <= i < j < p.steps
    ensures Steps(p)[i].zTop < Steps(p)[j].zTop
  {
    FractionIncreasing(i, j, p.steps - 1);
    LerpIncreasing(p.minHeight, p.maxHeight, Fraction(i, p.steps - 1), Fraction(j, p.steps - 1));
  }

  /** Every step has positive height: its top is above its base. */
  lemma StepRises(p: Seating, k: int)
    requires WellFormed(p) && 0 <= k < p.steps
    ensures Steps(p)[k].zBase < Steps(p)[k].zTop
  {
    if k == 0 {
      TopEndpoints(p);
    } else {
      TopsIncrease(p, k - 1, k);
    }
  }

  /** The steps tile the seating radially: the first starts on the inner
      ellipse, each ends where the next begins, the last ends on the outer
      ellipse, and, in a well-formed seating, every step has positive depth. */
  lemma StepsContiguous(p: Seating, k: int)
    requires p.steps >= 2 && 0 <= k < p.steps
    ensures k == 0 ==> Steps(p)[k].inner == p.inner
    ensures k < p.steps - 1 ==> Steps(p)[k].outer == Steps(p)[k + 1].inner
    ensures k == p.steps - 1 ==> Steps(p)[k].outer == p.outer
    ensures WellFormed(p) ==> Inside(Steps(p)[k].inner, Steps(p)[k].outer)
  {
    FractionBounds(0, p.steps);
    FractionBounds(p.steps, p.steps);
    if WellFormed(p) {
      FractionIncreasing(k, k + 1, p.steps);
      LerpIncreasing(p.inner.rx, p.outer.rx, Fraction(k, p.steps), Fraction(k + 1, p.steps));
      LerpIncreasing(p.inner.ry, p.outer.ry, Fraction(k, p.steps), Fraction(k + 1, p.steps));
    }
  }

  /** Every step lies within the seating's radial and vertical envelope. */
  lemma StepWithinSeating(p: Seating, k: int)
    requires WellFormed(p) && 0 <= k < p.steps
    ensures p.zBase <= Steps(p)[k].zBase
    ensures Steps(p)[k].zTop <= p.zBase + p.maxHeight
    ensures p.inner.rx <= Steps(p)[k].inner.rx && Steps(p)[k].outer.rx <= p.outer.rx
    ensures p.inner.ry <= Steps(p)[k].inner.ry && Steps(p)[k].outer.ry <= p.outer.ry
  {
    FractionBounds(k, p.steps);
    FractionBounds(k + 1, p.steps);
    LerpBetween(p.inner.rx, p.outer.rx, Fraction(k, p.steps));
    LerpBetween(p.inner.ry, p.outer.ry, Fraction(k, p.steps));
    LerpBetween(p.inner.rx, p.outer.rx, Fraction(k + 1, p.steps));
    LerpBetween(p.inner.ry, p.outer.ry, Fraction(k + 1, p.steps));
    FractionBounds(k, p.steps - 1);
    LerpBetween(p.minHeight, p.maxHeight, Fraction(k, p.steps - 1));
    if k > 0 {
      FractionBounds(k - 1, p.steps - 1);
      LerpBetween(p.minHeight, p.maxHeight, Fraction(k - 1, p.steps - 1));
    }
  }
}
