/**
 The stadium as `display` assembles it (almeidao.cpp:68-102): three main arcs
 of terraces, a leaning outer wall behind every main arc and a half-height
 wall over each of the two connection arcs between them, and an end cap at
 both boundaries of every main arc.

 Heights are the design's real-world heights divided by the scene scale.
 */
module Stadium {
  import opened Geometry
  import opened Terrace
  import opened Strips

  /** Steps per seating arc. */
  const StepCount: int := 15
  /** First and last step heights at real-world size, and the scene scale. */
  const MinHeightReal: real := 0.2
  const MaxHeightReal: real := 3.0
  const SceneScale: real := 10.0
  /** The same heights in scene units. */
  const MinHeight: real := MinHeightReal / SceneScale
  const MaxHeight: real := MaxHeightReal / SceneScale
  /** The elevation the first step and every wall stand on. */
  const BaseElevation: real := 0.0
  /** How far the top edge of a wall leans out beyond its base. */
  const WallLeanOffset: real := 0.05

  /** Arc resolution of a terrace strip and of a wall. */
  const StepSegments: int := 40
  const WallSegments: int := 60

  /** The inner edge of the seating (the pitch side) and its outer edge. */
  const SeatInner: Ellipse := Ellipse(0.5, 0.7)
  const SeatOuter: Ellipse := Ellipse(0.8, 0.95)

  /** The seated arcs and the connection arcs between them, in degrees. */
  const MainArcs: seq<Arc> := [Arc(0.0, 60.0), Arc(120.0, 240.0), Arc(300.0, 360.0)]
  const ConnectionArcs: seq<Arc> := [Arc(60.0, 120.0), Arc(240.0, 300.0)]

  /** Walls stand on the seating's outer ellipse and lean outwards; the
      connection walls are half as tall as the main ones. */
  const WallBase: Ellipse := SeatOuter
  const WallTop: Ellipse := Ellipse(WallBase.rx + WallLeanOffset, WallBase.ry + WallLeanOffset)
  const ConnectionHeight: real := MaxHeight / 2.0

  /** The seating every main arc repeats. */
  const Standard: Seating := Seating(StepCount, SeatInner, SeatOuter, BaseElevation, MinHeight, MaxHeight)

  lemma StandardWellFormed()
    ensures WellFormed(Standard)
    ensures MinHeight == 0.02 && MaxHeight == 0.3
  {
  }

  /** Every arc of the bowl in angular order. */
  function AroundTheBowl(): seq<Arc>
  {
    [MainArcs[0], ConnectionArcs[0], MainArcs[1], ConnectionArcs[1], MainArcs[2]]
  }

  /** Swapping two neighbours keeps the same elements. */
  lemma SwapNeighbours(x: seq<Arc>, a: Arc, b: Arc, z: seq<Arc>)
    ensures multiset(x + [a, b] + z) == multiset(x + [b, a] + z)
  {
    calc {
      multiset(x + [a, b] + z);
      multiset(x) + multiset([a, b]) + multiset(z);
      { assert multiset([a, b]) == multiset([b, a]); }
      multiset(x) + multiset([b, a]) + multiset(z);
      multiset(x + [b, a] + z);
    }
  }

  /** The intermediate orders on the way from main-then-connection order to
      the interleaved one, each a neighbour swap away from the next. */
  lemma InterleavingSteps(m0: Arc, m1: Arc, m2: Arc, c0: Arc, c1: Arc)
    ensures [m0, m1, m2] + [c0, c1] == [m0, m1] + [m2, c0] + [c1]
    ensures [m0, m1] + [c0, m2] + [c1] == [m0, m1, c0] + [m2, c1] + []
    ensures [m0, m1, c0] + [c1, m2] + [] == [m0] + [m1, c0] + [c1, m2]
    ensures [m0] + [c0, m1] + [c1, m2] == [m0, c0, m1, c1, m2]
  {
  }

  /** Interleaving two connection arcs between three main arcs keeps the
      same arcs. */
  lemma InterleavedArcs(m0: Arc, m1: Arc, m2: Arc, c0: Arc, c1: Arc)
    ensures multiset([m0, c0, m1, c1, m2]) == multiset([m0, m1, m2] + [c0, c1])
  {
    InterleavingSteps(m0, m1, m2, c0, c1);
    SwapNeighbours([m0, m1], m2, c0, [c1]);
    SwapNeighbours([m0, m1, c0], m2, c1, []);
    SwapNeighbours([m0], m1, c0, [c1, m2]);
  }

  /** The bowl's arcs are exactly the main and the connection arcs. */
  lemma BowlHoldsEveryArc()
    ensures multiset(AroundTheBowl()) == multiset(MainArcs + ConnectionArcs)
  {
    InterleavedArcs(MainArcs[0], MainArcs[1], MainArcs[2], ConnectionArcs[0], ConnectionArcs[1]);
    assert MainArcs == [MainArcs[0], MainArcs[1], MainArcs[2]];
    assert ConnectionArcs == [ConnectionArcs[0], ConnectionArcs[1]];
  }

  /** In angular order the arcs of the bowl run from 0 to 360 degrees, each
      starting where the previous one ends. */
  lemma ArcsTileCircle()
    ensures Contiguous(AroundTheBowl())
    ensures AroundTheBowl()[0].start == 0.0 && AroundTheBowl()[|AroundTheBowl()| - 1].end == 360.0
  {
    var bowl := AroundTheBowl();
    assert bowl == [Arc(0.0, 60.0), Arc(60.0, 120.0), Arc(120.0, 240.0), Arc(240.0, 300.0), Arc(300.0, 360.0)];
  }

  /** Every direction from 0 to 360 degrees falls on a main or a connection arc. */
  lemma CircleCovered(theta: real)
    requires 0.0 <= theta <= 360.0
    ensures exists a :: a in MainArcs + ConnectionArcs && Covers(a, theta)
  {
    ArcsTileCircle();
    BowlHoldsEveryArc();
    var bowl := AroundTheBowl();
    ContiguousCovers(bowl, theta);
    var i :| 0 <= i < |bowl| && Covers(bowl[i], theta);
    assert bowl[i] in multiset(MainArcs + ConnectionArcs);
  }

  /** Where each of the main and connection arcs sits in the bowl. */
  lemma PositionInBowl(a: Arc) returns (i: int)
    requires a in MainArcs + ConnectionArcs
    ensures 0 <= i < |AroundTheBowl()| && AroundTheBowl()[i] == a
  {
    assert MainArcs + ConnectionArcs
      == [Arc(0.0, 60.0), Arc(120.0, 240.0), Arc(300.0, 360.0), Arc(60.0, 120.0), Arc(240.0, 300.0)];
    var bowl := AroundTheBowl();
    assert bowl == [Arc(0.0, 60.0), Arc(60.0, 120.0), Arc(120.0, 240.0), Arc(240.0, 300.0), Arc(300.0, 360.0)];
    if a == bowl[0] {
      i := 0;
    } else if a == bowl[1] {
      i := 1;
    } else if a == bowl[2] {
      i := 2;
    } else if a == bowl[3] {
      i := 3;
    } else {
      i := 4;
    }
  }

  /** No two of the arcs overlap: any two distinct ones share at most a
      boundary angle. */
  lemma ArcsDisjoint(a: Arc, b: Arc)
    requires a in MainArcs + ConnectionArcs && b in MainArcs + ConnectionArcs && a != b
    ensures a.end <= b.start || b.end <= a.start
  {
    ArcsTileCircle();
    var i := PositionInBowl(a);
    var j := PositionInBowl(b);
    if i < j {
      ContiguousOrdered(AroundTheBowl(), i, j);
    } else {
      ContiguousOrdered(AroundTheBowl(), j, i);
    }
  }


  /** `s` is the staircase of seating `p` over `arc`: one mesh per step,
      bottom step first, each the tread and riser of that step, and the riser
      of step `k + 1` standing on the outer edge of tread `k`, rung by rung,
      so the drawn staircase has no seams. */
  predicate Staircase(s: seq<StepMesh>, p: Seating, arc: Arc, n: int)
    requires p.steps >= 2
  {
    && |s| == p.steps
    && (forall k :: 0 <= k < |s| ==> StepOver(s[k], Steps(p)[k], arc, n))
    && forall k, j :: 0 <= k < |s| - 1 && 0 <= j < |s[k].tread| && j < |s[k + 1].riser| ==>
      SamePoint(s[k + 1].riser[j].lower, s[k].tread[j].upper)
  }

  /** The tread and riser meshes of every step of `p` over one arc, in
      order, form a staircase. */
  lemma TerracesFormStaircase(s: seq<StepMesh>, p: Seating, arc: Arc, n: int)
    requires p.steps >= 2 && |s| == p.steps
    requires forall k :: 0 <= k < |s| ==> StepOver(s[k], Steps(p)[k], arc, n)
    ensures Staircase(s, p, arc, n)
  {
    forall k, j | 0 <= k < |s| - 1 && 0 <= j < |s[k].tread| && j < |s[k + 1].riser|
      ensures SamePoint(s[k + 1].riser[j].lower, s[k].tread[j].upper)
    {
      assert Steps(p)[k + 1].zBase == Steps(p)[k].zTop by { StepsStack(p, k + 1); }
      assert Steps(p)[k + 1].inner == Steps(p)[k].outer by { StepsContiguous(p, k); }
      RiserMeetsTread(s[k], s[k + 1], Steps(p)[k], Steps(p)[k + 1], arc, n, j);
    }
  }

  /** The steps of `p` drawn over one arc. */
  function StaircaseOver(arc: Arc, p: Seating, n: int): (r: seq<StepMesh>)
    requires p.steps >= 2
    ensures Staircase(r, p, arc, n)
  {
    var r := seq(p.steps, k requires 0 <= k < p.steps => TerraceStep(Steps(p)[k], arc, n));
    TerracesFormStaircase(r, p, arc, n);
    r
  }

  /** The terraces of every arc in `arcs`: on arc `i`, the staircase of `p`
      swept over exactly that arc. */
  function SeatingOf(arcs: seq<Arc>, p: Seating, n: int): (r: seq<seq<StepMesh>>)
    requires p.steps >= 2
    ensures |r| == |arcs|
    ensures forall i :: 0 <= i < |r| ==> Staircase(r[i], p, arcs[i], n)
  {
    seq(|arcs|, i requires 0 <= i < |arcs| => StaircaseOver(arcs[i], p, n))
  }

  /** Wall `w` stands on the seating's outer ellipse at the base elevation
      and reaches `height` on that ellipse pushed out by the lean offset along
      both axes; it has 61 rungs, so 122 vertices, and spans exactly `arc`. */
  predicate LeaningWall(w: Strip, arc: Arc, height: real)
  {
    && |w| == WallSegments + 1
    && |Vertices(w)| == 122
    && w[0].upper.angle == arc.start && w[WallSegments].upper.angle == arc.end
    && forall j :: 0 <= j < |w| ==>
      && w[j].lower.z == BaseElevation && w[j].lower.radius == SeatOuter
      && w[j].upper.z == height
      && w[j].upper.radius == Ellipse(w[j].lower.radius.rx + WallLeanOffset, w[j].lower.radius.ry + WallLeanOffset)
  }

  /** One outer wall per arc, from the base elevation up to `height`. */
  function WallsOf(arcs: seq<Arc>, height: real): (r: seq<Strip>)
    ensures |r| == |arcs|
    ensures forall i :: 0 <= i < |r| ==>
      && |r[i]| == WallSegments + 1
      && r[i][0].upper.angle == arcs[i].start && r[i][|r[i]| - 1].upper.angle == arcs[i].end
    ensures forall i, j :: 0 <= i < |r| && 0 <= j < |r[i]| ==>
      && r[i][j].upper.radius == WallTop && r[i][j].upper.z == height
      && r[i][j].lower.radius == WallBase && r[i][j].lower.z == BaseElevation
    ensures forall i :: 0 <= i < |r| ==> LeaningWall(r[i], arcs[i], height)
    ensures forall i, j :: 0 <= i < |r| && 0 <= j < |r[i]| ==>
      RungJoins(r[i][j], Profile(WallTop, height), Profile(WallBase, BaseElevation), WallTiling, arcs[i])
  {
    seq(|arcs|, i requires 0 <= i < |arcs| => OuterWall(WallBase, WallTop, BaseElevation, height, arcs[i], WallSegments))
  }

  /** The profile every end cap closes: from the seating's inner edge on the
      ground, out to the wall's base, up to the wall's top edge at full
      height, and back to the seating's inner edge at the first step's
      height. */
  predicate ClosesSeatingProfile(q: Quad)
  {
    && |q.corners| == 4
    && q.corners[0].radius == SeatInner && q.corners[0].z == BaseElevation
    && q.corners[1].radius == WallBase && q.corners[1].z == BaseElevation
    && q.corners[2].radius == WallTop && q.corners[2].z == MaxHeight
    && q.corners[3].radius == SeatInner && q.corners[3].z == MinHeight
  }

  /** Two end caps per arc, at its start and at its end, in arc order. */
  function CapsOf(arcs: seq<Arc>): (r: seq<Quad>)
    ensures |r| == 2 * |arcs|
    ensures forall i :: 0 <= i < |arcs| ==> r[2 * i].angle == arcs[i].start && r[2 * i + 1].angle == arcs[i].end
    ensures forall q :: q in r ==> ClosesSeatingProfile(q)
  {
    if arcs == [] then []
    else
      var innerBase := Profile(SeatInner, BaseElevation);
      var outerBase := Profile(WallBase, BaseElevation);
      var outerTop := Profile(WallTop, MaxHeight);
      var innerTop := Profile(SeatInner, MinHeight);
      [EndCap(arcs[0].start, innerBase, outerBase, outerTop, innerTop),
       EndCap(arcs[0].end, innerBase, outerBase, outerTop, innerTop)]
      + CapsOf(arcs[1..])
  }

  /** Everything `display` emits apart from the ground. */
  datatype Scene = Scene(
    seating: seq<seq<StepMesh>>,
    mainWalls: seq<Strip>,
    connectionWalls: seq<Strip>,
    caps: seq<Quad>)

  /** The caps of the main arcs sit at exactly their six boundary angles. */
  lemma MainArcCapAngles()
    ensures (set q | q in CapsOf(MainArcs) :: q.angle) == {0.0, 60.0, 120.0, 240.0, 300.0, 360.0}
  {
    var caps := CapsOf(MainArcs);
    assert caps[0].angle == 0.0 && caps[1].angle == 60.0;
    assert caps[2].angle == 120.0 && caps[3].angle == 240.0;
    assert caps[4].angle == 300.0 && caps[5].angle == 360.0;
    assert caps == [caps[0], caps[1], caps[2], caps[3], caps[4], caps[5]];
  }

  /** `display`: fifteen steps on each of the three main arcs, each tread and
      riser with 41 rungs, tread `k` at step `k`'s top and riser `k` down to
      its base; three full-height walls behind the main arcs and two
      half-height walls over the connection arcs, each spanning its arc; and
      one cap at each of the six main-arc boundaries. */
  function Display(): (r: Scene)
    ensures |r.seating| == 3
    ensures forall i :: 0 <= i < 3 ==> Staircase(r.seating[i], Standard, MainArcs[i], StepSegments)
    ensures forall i, k :: 0 <= i < 3 && 0 <= k < |r.seating[i]| ==> |r.seating[i][k].tread| == StepSegments + 1
    ensures |r.mainWalls| == 3 && |r.connectionWalls| == 2
    ensures forall i :: 0 <= i < 3 ==> LeaningWall(r.mainWalls[i], MainArcs[i], MaxHeight)
    ensures forall i :: 0 <= i < 2 ==> LeaningWall(r.connectionWalls[i], ConnectionArcs[i], MaxHeight / 2.0)
    ensures |r.caps| == 6
    ensures (set q | q in r.caps :: q.angle) == {0.0, 60.0, 120.0, 240.0, 300.0, 360.0}
  {
    var seating := SeatingOf(MainArcs, Standard, StepSegments);
    var mainWalls := WallsOf(MainArcs, MaxHeight);
    var connectionWalls := WallsOf(ConnectionArcs, ConnectionHeight);
    MainArcCapAngles();
    Scene(seating, mainWalls, connectionWalls, CapsOf(MainArcs))
  }

  /** The first step of the standard seating starts on the seating's inner
      edge on the ground and rises to the minimum height; the last ends on its
      outer edge at the maximum height. */
  lemma StandardEnds()
    ensures Steps(Standard)[0].inner == SeatInner && Steps(Standard)[0].zBase == BaseElevation
    ensures Steps(Standard)[0].zTop == MinHeight
    ensures Steps(Standard)[StepCount - 1].outer == SeatOuter
    ensures Steps(Standard)[StepCount - 1].zTop == MaxHeight
  {
    StandardWellFormed();
    TopEndpoints(Standard);
    StepsContiguous(Standard, 0);
    StepsContiguous(Standard, StepCount - 1);
  }

  /** The caps fit the terraces they close: the inner-bottom and inner-top
      corners lie on the first step's inner ellipse, on the ground and at its
      tread height; the outer-bottom corner lies on the last step's outer
      ellipse, which is where the walls stand; and the outer-top corner is at
      the last step's height on the walls' top edge. */
  lemma CapsFitTerraces(q: Quad)
    requires q in Display().caps
    ensures q.corners[0].radius == Steps(Standard)[0].inner && q.corners[0].z == Steps(Standard)[0].zBase
    ensures q.corners[3].radius == Steps(Standard)[0].inner && q.corners[3].z == Steps(Standard)[0].zTop
    ensures q.corners[1].radius == Steps(Standard)[StepCount - 1].outer
    ensures q.corners[2].z == Steps(Standard)[StepCount - 1].zTop
    ensures q.corners[2].radius == WallTop && q.corners[1].radius == WallBase
  {
    assert ClosesSeatingProfile(q);
    StandardEnds();
  }
}
