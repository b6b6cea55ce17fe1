/**
 The surface emitters: `desenharDegrauArquibancada` (tread and riser of one
 step), `desenharParedeExterna` (a leaning outer wall) and
 `desenharTampaLateral` (a flat end cap), almeidao.cpp:37-45.

 Instead of issuing vertices to the renderer, each emitter returns them. The
 three strip loops of the source share one shape: for every point of the arc
 they emit a rung of two vertices, the first with texture `t = 1`, the second
 with `t = 0`, both at the same arc position, with `s` proportional to the arc
 fraction. `RuledStrip` is that shape once; the emitters differ only in the
 two profiles (radius and elevation) the rung joins and the tiling factor.
 */
module Strips {
  import opened Geometry
  import opened Terrace

  /** One emitted vertex, in polar form: its fraction of the arc, the angle in
      degrees that fraction lands on, the ellipse it lies on, its elevation
      and its texture coordinates. */
  datatype Vertex = Vertex(frac: real, angle: real, radius: Ellipse, z: real, s: real, t: real)

  /** The two vertices one loop iteration emits: `upper` with `t = 1`, then
      `lower` with `t = 0`. */
  datatype Rung = Rung(upper: Vertex, lower: Vertex)

  /** A triangle strip, as the sequence of its rungs along the arc. */
  type Strip = seq<Rung>

  /** How often the texture repeats along a terrace strip and along a wall. */
  const TerraceTiling: real := 5.0
  const WallTiling: real := 10.0

  /** The segment count the emitters actually use: a degenerate request is
      raised to two, any other is kept. */
  function Segments(n: int): (m: int)
    ensures 2 <= m
    ensures n >= 2 ==> m == n
    ensures n < 2 ==> m == 2
  {
    if n <= 1 then 2 else n
  }

  /** Rung `i` of a strip with `m` segments joins `upper` to `lower` at arc
      fraction `i / m`. */
  predicate RungJoins(r: Rung, upper: Profile, lower: Profile, tiling: real, arc: Arc)
  {
    && r.upper.frac == r.lower.frac
    && r.upper.angle == r.lower.angle
    && r.upper.s == r.lower.s
    && 0.0 <= r.upper.frac <= 1.0
    && r.upper.angle == Lerp(arc.start, arc.end, r.upper.frac)
    && 0.0 <= r.upper.s <= tiling
    && r.upper.s == r.upper.frac * tiling
    && r.upper.t == 1.0 && r.lower.t == 0.0
    && r.upper.radius == upper.radius && r.upper.z == upper.z
    && r.lower.radius == lower.radius && r.lower.z == lower.z
  }

  function RungAt(upper: Profile, lower: Profile, tiling: real, arc: Arc, m: int, i: int): (r: Rung)
    requires 0 <= i <= m && 0 < m && 0.0 <= tiling
    ensures RungJoins(r, upper, lower, tiling, arc)
    ensures r.upper.frac == Fraction(i, m)
  {
    FractionBounds(i, m);
    var f := Fraction(i, m);
    ScaleBounds(f, tiling);
    var angle := Lerp(arc.start, arc.end, f);
    Rung(Vertex(f, angle, upper.radius, upper.z, f * tiling, 1.0),
         Vertex(f, angle, lower.radius, lower.z, f * tiling, 0.0))
  }

  lemma ScaleBounds(f: real, c: real)
    requires 0.0 <= f <= 1.0 && 0.0 <= c
    ensures 0.0 <= f * c <= c
  {
    if 0.0 < f && 0.0 < c {
      ProductPositive(f, c);
      if f < 1.0 {
        ProductPositive(1.0 - f, c);
        assert f * c + (1.0 - f) * c == c;
      }
    }
  }

  /** The strip swept over `arc` between two profiles. */
  function RuledStrip(upper: Profile, lower: Profile, tiling: real, arc: Arc, n: int): (r: Strip)
    requires 0.0 <= tiling
    ensures |r| == Segments(n) + 1
    ensures forall i :: 0 <= i < |r| ==> RungJoins(r[i], upper, lower, tiling, arc)
    ensures forall i :: 0 <= i < |r| ==> r[i].upper.frac == Fraction(i, Segments(n))
    ensures r[0].upper.frac == 0.0 && r[0].upper.angle == arc.start
    ensures r[|r| - 1].upper.frac == 1.0 && r[|r| - 1].upper.angle == arc.end
    ensures forall i :: 0 <= i < |r| - 1 ==> r[i].upper.frac < r[i + 1].upper.frac
  {
    var m := Segments(n);
    var r := seq(m + 1, i requires 0 <= i <= m => RungAt(upper, lower, tiling, arc, m, i));
    FractionBounds(0, m);
    FractionBounds(m, m);
    FractionsIncrease(m);
    r
  }

  lemma FractionsIncrease(m: int)
    requires 0 < m
    ensures forall i :: 0 <= i < m ==> Fraction(i, m) < Fraction(i + 1, m)
  {
    forall i | 0 <= i < m
      ensures Fraction(i, m) < Fraction(i + 1, m)
    {
      FractionIncreasing(i, i + 1, m);
    }
  }

  /** Four segments over a quarter turn put the rungs at 0, 22.5, 45, 67.5
      and 90 degrees: the arc is divided evenly, both ends included. */
  lemma QuarterArcAngles(upper: Profile, lower: Profile)
    ensures var r := RuledStrip(upper, lower, TerraceTiling, Arc(0.0, 90.0), 4);
      |r| == 5
      && r[0].upper.angle == 0.0 && r[1].upper.angle == 22.5 && r[2].upper.angle == 45.0
      && r[3].upper.angle == 67.5 && r[4].upper.angle == 90.0
  {
  }

  /** The vertices of a strip in the order they are emitted. */
  function Vertices(strip: Strip): (vs: seq<Vertex>)
    ensures |vs| == 2 * |strip|
    ensures forall i :: 0 <= i < |strip| ==> vs[2 * i] == strip[i].upper && vs[2 * i + 1] == strip[i].lower
  {
    if strip == [] then [] else [strip[0].upper, strip[0].lower] + Vertices(strip[1..])
  }

  /** Whatever segment count is requested, a strip has exactly `2 * (m + 1)`
      vertices for the clamped count `m`, so it is never empty. */
  lemma StripVertexCount(upper: Profile, lower: Profile, tiling: real, arc: Arc, n: int)
    requires 0.0 <= tiling
    ensures |Vertices(RuledStrip(upper, lower, tiling, arc, n))| == 2 * (Segments(n) + 1) >= 6
  {
  }

  /** The tread and the riser of one step. */
  datatype StepMesh = StepMesh(tread: Strip, riser: Strip)

  /** `v` and `w` are the same point in space, whatever their texture coordinates. */
  predicate SamePoint(v: Vertex, w: Vertex)
  {
    v.radius == w.radius && v.angle == w.angle && v.z == w.z
  }

  /** `m` is the tread and riser of `step`, swept evenly over `arc` with the
      clamped count for `n`: the tread lies flat at the step's top from its
      outer to its inner ellipse, the riser hangs on the inner ellipse from
      the top down to the base, and the riser's top edge is the tread's inner
      edge, rung by rung. */
  predicate StepOver(m: StepMesh, step: Step, arc: Arc, n: int)
  {
    && |m.tread| == |m.riser| == Segments(n) + 1
    && m.tread[0].upper.angle == m.riser[0].upper.angle == arc.start
    && m.tread[Segments(n)].upper.angle == m.riser[Segments(n)].upper.angle == arc.end
    && forall j :: 0 <= j < |m.tread| ==>
      && m.tread[j].upper.z == step.zTop && m.tread[j].lower.z == step.zTop
      && m.tread[j].upper.radius == step.outer && m.tread[j].lower.radius == step.inner
      && m.riser[j].upper.radius == step.inner && m.riser[j].lower.radius == step.inner
      && m.riser[j].upper.z == step.zTop && m.riser[j].lower.z == step.zBase
      && m.tread[j].upper.angle == Lerp(arc.start, arc.end, Fraction(j, Segments(n)))
      && m.tread[j].lower.angle == m.riser[j].upper.angle == m.riser[j].lower.angle == m.tread[j].upper.angle
      && SamePoint(m.riser[j].upper, m.tread[j].lower)
  }

  /** A step standing on the top of `below`, starting from its outer ellipse,
      has its riser's foot on the outer edge of `below`'s tread, rung by rung. */
  lemma RiserMeetsTread(lo: StepMesh, hi: StepMesh, below: Step, above: Step, arc: Arc, n: int, j: int)
    requires StepOver(lo, below, arc, n) && StepOver(hi, above, arc, n)
    requires above.zBase == below.zTop && above.inner == below.outer
    requires 0 <= j < |lo.tread|
    ensures SamePoint(hi.riser[j].lower, lo.tread[j].upper)
  {
    assert hi.tread[j].upper.angle == Lerp(arc.start, arc.end, Fraction(j, Segments(n)));
  }

  /** `desenharDegrauArquibancada`: the tread is a flat ribbon at the step's
      top from its outer (`t = 1`) to its inner (`t = 0`) ellipse; the riser
      hangs on the inner ellipse from the top (`t = 1`) down to the base
      (`t = 0`). */
  function TerraceStep(step: Step, arc: Arc, n: int): (r: StepMesh)
    ensures StepOver(r, step, arc, n)
    ensures forall i :: 0 <= i < |r.tread| ==>
      && RungJoins(r.tread[i], Profile(step.outer, step.zTop), Profile(step.inner, step.zTop), TerraceTiling, arc)
      && RungJoins(r.riser[i], Profile(step.inner, step.zTop), Profile(step.inner, step.zBase), TerraceTiling, arc)
      && r.tread[i].upper.frac == r.riser[i].upper.frac == Fraction(i, Segments(n))
  {
    var tread := RuledStrip(Profile(step.outer, step.zTop), Profile(step.inner, step.zTop), TerraceTiling, arc, n);
    var riser := RuledStrip(Profile(step.inner, step.zTop), Profile(step.inner, step.zBase), TerraceTiling, arc, n);
    StepMesh(tread, riser)
  }

  /** `desenharParedeExterna`: a wall leaning from the base ellipse at `zLow`
      (`t = 0`) to the top ellipse at `zHigh` (`t = 1`). */
  function OuterWall(base: Ellipse, top: Ellipse, zLow: real, zHigh: real, arc: Arc, n: int): (r: Strip)
    ensures |r| == Segments(n) + 1
    ensures forall i :: 0 <= i < |r| ==>
      && r[i].upper.radius == top && r[i].upper.z == zHigh && r[i].upper.t == 1.0
      && r[i].lower.radius == base && r[i].lower.z == zLow && r[i].lower.t == 0.0
      && 0.0 <= r[i].upper.s <= WallTiling
      && r[i].upper.frac == r[i].lower.frac == Fraction(i, Segments(n))
      && r[i].upper.angle == r[i].lower.angle == Lerp(arc.start, arc.end, Fraction(i, Segments(n)))
      && RungJoins(r[i], Profile(top, zHigh), Profile(base, zLow), WallTiling, arc)
    ensures r[0].upper.angle == arc.start && r[|r| - 1].upper.angle == arc.end
  {
    RuledStrip(Profile(top, zHigh), Profile(base, zLow), WallTiling, arc, n)
  }

  /** A corner of an end cap with its texture coordinates. */
  datatype Corner = Corner(radius: Ellipse, z: real, s: real, t: real)

  /** A flat quadrilateral in the vertical half-plane at `angle`. */
  datatype Quad = Quad(angle: real, corners: seq<Corner>)

  /** `desenharTampaLateral`: the four corners inner-base, outer-base,
      outer-top, inner-top, textured with the unit square so that `s = 1`
      exactly on the outer edge and `t = 1` exactly on the top edge. */
  function EndCap(angle: real, innerBase: Profile, outerBase: Profile, outerTop: Profile, innerTop: Profile): (q: Quad)
    ensures q.angle == angle && |q.corners| == 4
    ensures q.corners[0].radius == innerBase.radius && q.corners[0].z == innerBase.z
    ensures q.corners[1].radius == outerBase.radius && q.corners[1].z == outerBase.z
    ensures q.corners[2].radius == outerTop.radius && q.corners[2].z == outerTop.z
    ensures q.corners[3].radius == innerTop.radius && q.corners[3].z == innerTop.z
    ensures forall i :: 0 <= i < 4 ==> (q.corners[i].s == 1.0 <==> i in {1, 2}) && (q.corners[i].s == 0.0 <==> i in {0, 3})
    ensures forall i :: 0 <= i < 4 ==> (q.corners[i].t == 1.0 <==> i in {2, 3}) && (q.corners[i].t == 0.0 <==> i in {0, 1})
  {
    Quad(angle, [
      Corner(innerBase.radius, innerBase.z, 0.0, 0.0),
      Corner(outerBase.radius, outerBase.z, 1.0, 0.0),
      Corner(outerTop.radius, outerTop.z, 1.0, 1.0),
      Corner(innerTop.radius, innerTop.z, 0.0, 1.0)])
  }
}
