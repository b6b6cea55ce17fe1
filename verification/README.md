# Almeidão stadium geometry in Dafny

A model of the procedural geometry in `almeidao.cpp`, an OpenGL/GLUT program
that draws a textured model of an elliptical football stadium. The model covers four things:

- the **terrace-step generator**: the inner and outer ellipses and the base and top
  elevations of each step of a seating arc;
- the **surface emitters**: tread and riser strips, the leaning outer wall
  strip, and the flat end cap;
- the **layout `display` assembles**: three main (seated) arcs, two
  connection arcs, full-height and half-height walls, and caps at every
  main-arc boundary;
- the **orbit camera's keyboard handler**.

Floats are modelled as `real`. Positions stay in polar form. A vertex is the
ellipse it lies on, its fraction of the arc, the angle (in degrees) that
fraction reaches, its elevation, and its texture coordinates `s` and `t`.
The renderer maps such a vertex to `(rx cos a, ry sin a, z)`. Instead of
issuing vertices to OpenGL, every emitter returns them.

Modules:

- `Geometry` (geometry.dfy): ellipses, profiles (an ellipse at an
  elevation), arcs, linear interpolation, the `i / n` fraction, and
  contiguity of a run of arcs.
- `Terrace` (terrace.dfy): the seating parameters, the closed form of
  step `k`, and the generator loop as the source runs it.
- `Strips` (strips.dfy): the segment clamp and one ruled-strip primitive.
  Tread, riser and wall are instances of it. It also holds the end cap.
- `Stadium` (stadium.dfy): the constants of the program, the arc layout,
  and the assembled scene.
- `Camera` (camera.dfy): camera state and the key handler.

The three strip loops in the source have the same shape. Each loop
iteration emits a rung of two vertices at the same arc position. The first
vertex has `t = 1` and the second `t = 0`, and `s` is the arc fraction times a
tiling factor. `Strips.RuledStrip` is that shape once. The tread, riser and
wall differ only in the two profiles a rung joins and in the tiling factor.

## Model

| member | source | states |
|---|---|---|
| Terrace.GenerateSteps | almeidao.cpp:82 | The loop that carries the previous top forward yields, for every seating with at least two steps, exactly the closed-form steps: one per index, the first standing on the base elevation, each later one standing on the previous step's top, each ending radially where the next begins |
| Terrace.TopEndpoints | almeidao.cpp:82 | The first step's top is base + minimum height and the last step's top is base + maximum height, exactly |
| Terrace.TopsIncrease | almeidao.cpp:82 | For a well-formed seating, the tops strictly increase with the step index |
| Terrace.StepRises | almeidao.cpp:82 | Every step's top is strictly above its base |
| Terrace.StepsStack | almeidao.cpp:82 | Step 0 stands on the base elevation and step k stands on step k-1's top |
| Terrace.StepsContiguous | almeidao.cpp:71-82 | For any seating: step 0 starts on the seating's inner ellipse, step k's outer ellipse is step k+1's inner one, and the last step ends on the outer ellipse. For a well-formed seating, every step's inner ellipse is also strictly inside its outer one |
| Terrace.StepWithinSeating | almeidao.cpp:71-82 | Every step lies between the inner and outer ellipses, and between the base elevation and base + maximum height |
| Strips.Segments | almeidao.cpp:38 | The segment count used is at least 2: a count of 1 or less becomes 2, and any other count is kept |
| Strips.RungAt | almeidao.cpp:38 | Rung i of m sits at arc fraction i/m. It joins the two profiles with t = 1 then t = 0 at one shared angle, and its s lies within [0, tiling] |
| Strips.RuledStrip | almeidao.cpp:38-41 | A strip has clamped-count + 1 rungs, and rung i sits at arc fraction exactly i/m for the clamped count m, so the arc is divided evenly. The fraction runs strictly upward from exactly 0 (the start angle) to exactly 1 (the end angle). Every t = 1 vertex lies on the upper profile and every t = 0 vertex on the lower one. s is the fraction times the tiling and stays within [0, tiling] |
| Strips.QuarterArcAngles | almeidao.cpp:38 | Four segments over the arc from 0° to 90° give five rungs at exactly 0°, 22.5°, 45°, 67.5° and 90° |
| Strips.Vertices | almeidao.cpp:38 | Flattening a strip gives the emission order: rung i's t = 1 vertex at position 2i and its t = 0 vertex at 2i + 1, twice as many vertices as rungs |
| Strips.StripVertexCount | almeidao.cpp:41 | Whatever segment count is requested, a strip emits exactly 2·(clamped count + 1) vertices, so at least six |
| Strips.TerraceStep | almeidao.cpp:37-38 | Tread and riser have clamped-count + 1 rungs each and run from the arc's start angle to its end angle, rung i at fraction i/m of the arc in lockstep. Every tread vertex is at the step's top elevation: outer ellipse for t = 1, inner for t = 0. Every riser vertex is on the inner ellipse: top elevation for t = 1, base for t = 0. Each riser rung's top vertex is the same point as its tread rung's inner vertex. s stays within [0, 5] |
| Strips.RiserMeetsTread | almeidao.cpp:37-38 | When one step stands on another's top, starting from its outer ellipse, the foot of the upper riser is the same point as the outer edge of the lower tread, rung by rung |
| Strips.OuterWall | almeidao.cpp:40-41 | Every wall vertex with t = 1 is on the top ellipse at the high elevation, and every t = 0 vertex is on the base ellipse at the low elevation. Rung i sits at fraction i/m of the arc, both vertices at the same angle. Both vertices have s equal to the fraction times 10, within [0, 10]. The wall runs from the start angle to the end angle |
| Strips.EndCap | almeidao.cpp:43-44 | A cap has four corners in the order inner-base, outer-base, outer-top, inner-top at the given angle. s = 1 exactly on the outer corners and t = 1 exactly on the top corners |
| Stadium.StandardWellFormed | almeidao.cpp:23-29 | The program's seating is well formed (15 steps, 0 < minimum < maximum height, inner ellipse inside outer), with heights 0.02 and 0.3 scene units |
| Stadium.BowlHoldsEveryArc | almeidao.cpp:74-75 | The bowl, listed in angular order, holds exactly the main and connection arcs, each once |
| Stadium.ArcsTileCircle | almeidao.cpp:74-75 | In angular order, the arcs of the bowl form a contiguous run from 0° to 360°. Each has positive width and starts where the previous one ends |
| Stadium.CircleCovered | almeidao.cpp:74-75 | Every angle in [0°, 360°] lies on some main or connection arc |
| Stadium.ArcsDisjoint | almeidao.cpp:74-75 | Two distinct arcs of the layout share at most a boundary angle |
| Stadium.SeatingOf | almeidao.cpp:81-83 | Arc i carries one mesh per step, bottom step first. On it, for every step k and rung j: the tread lies at step k's top from its outer to its inner ellipse, and the riser hangs on its inner ellipse from its top down to its base. Both run evenly from arc i's start angle to its end angle. Each riser's top edge is its tread's inner edge, and the riser of step k+1 stands exactly on the outer edge of tread k, so the drawn staircase has no gaps |
| Stadium.StaircaseOver | almeidao.cpp:82 | The inner loop over the steps of one arc draws a seamless staircase: the same per-step and step-to-step geometry as above, for a single arc |
| Stadium.TerracesFormStaircase | almeidao.cpp:82 | Tread-and-riser meshes laid over the steps of a seating, one per step in order, always form a seamless staircase. No well-formedness of the seating is needed |
| Stadium.WallsOf | almeidao.cpp:88-98 | One wall per arc, spanning exactly that arc from its start angle to its end angle. Each wall rises from the seating's outer ellipse at the base elevation to the given height, on that ellipse pushed out by the lean offset on both axes. It has 61 rungs (122 vertices), and s is the arc fraction times 10 on both vertices of each rung |
| Stadium.CapsOf | almeidao.cpp:100-102 | Two caps per arc, at its start and its end angle, in arc order. Every cap closes the same profile: seating inner edge on the ground, wall base, wall top at full height, seating inner edge at the minimum height |
| Stadium.Display | almeidao.cpp:68-102 | The scene has 3 seated arcs, each a seamless 15-step staircase over its main arc with 41 rungs per tread and per riser. It has 3 full-height walls over the main arcs and 2 half-height walls over the connection arcs, each spanning its arc with 61 rungs (122 vertices), standing on the seating's outer ellipse at the base elevation with every top vertex pushed out by the lean offset on both axes. It has 6 caps whose angles are exactly {0, 60, 120, 240, 300, 360} |
| Stadium.MainArcCapAngles | almeidao.cpp:100-101 | The caps of the main arcs stand at exactly the six boundary angles {0, 60, 120, 240, 300, 360} |
| Stadium.StandardEnds | almeidao.cpp:71-82 | The program's first step starts on the seating's inner edge on the ground and tops out at the minimum height. Its last step ends on the outer edge at the maximum height |
| Stadium.CapsFitTerraces | almeidao.cpp:101 | Every cap's inner corners lie on the first step's inner ellipse, at its base and at its top. Its outer-bottom corner is on the last step's outer ellipse, which is the wall base. Its outer-top corner is at the last step's top, on the wall's top ellipse |
| Camera.Keyboard | almeidao.cpp:134-146 | ESC, and only ESC, exits. An unbound key changes nothing. J (either case) adds 0.2 to the distance, or sets it to 20 when that would pass 20. K subtracts 0.2, or sets it to 0.5 when that would pass 0.5. J and K change nothing else, and only they change the distance. A zoom inside [0.5, 20] stays inside |
| Camera.CaseInsensitive | almeidao.cpp:136-144 | Each bound letter acts the same in lower and upper case |
| Camera.RotationKeysTurnOneAngle | almeidao.cpp:137-142 | A and D turn about Z, W and S about Y, X and Z about X, in either case. A, W and X add 5°, and D, S and Z take 5° away. The other two angles and the distance stay unchanged |
| Camera.OppositeKeysUndo | almeidao.cpp:137-142 | Pressing a rotation key and then the opposite key about the same axis restores the camera |
| Camera.ZoomUndo | almeidao.cpp:143-144 | Zooming out and then in restores the camera whenever neither press reaches a limit |
| Camera.ZoomMonotone | almeidao.cpp:143-144 | Inside the zoom range, J never decreases the distance and K never increases it. Neither changes anything else |
| Camera.Replay | almeidao.cpp:134-146 | Any sequence of key presses from a camera whose zoom is in range keeps the zoom in range, and ends in an exit exactly when the sequence contains ESC |
| Camera.InitialInRange | almeidao.cpp:18-21 | The starting camera's zoom lies inside [0.5, 20] |

## Left out

- OpenGL, GLU and GLUT calls: rendering, matrix setup, `reshape`, `main`, buffer swapping and `glutPostRedisplay`. The emitters return their vertices instead.
- Texture loading (`carregarTextura`, `init`): file I/O through an image decoder whose source is not part of this model. The fatal exit when a texture is missing is left out with it.
- `cosf`, `sinf` and the degree-to-radian conversion: vertices stay in polar form. Angles are kept in degrees. The source interpolates in radians, and the conversion is a constant factor, so in exact arithmetic the vertex lands on the same direction.
- The ellipse centre: every call site (almeidao.cpp:82, 93, 97 and both calls on 101) passes `centro_x = centro_y = 0`. The model drops the `cx`, `cy` parameters, so radii are relative to the centre.
- IEEE float rounding: all arithmetic is exact `real` arithmetic. The constants 0.2, 0.05 and so on are their decimal values, not the nearest floats.
- The ground quad and the colour settings (almeidao.cpp:61-66, 79, 86): constant data with no logic.
- Terrace.GenerateSteps: requires at least two steps. With one step, the source's height fraction `k / (N - 1)` is 0/0, a float NaN, which exact arithmetic cannot express. The program itself uses 15 steps.
- A general validation of seating parameters: the source performs none. Ordering of heights and radii appears only as the hypothesis `Terrace.WellFormed` of the lemmas, and the program's own seating is proved to satisfy it.
- Camera.Keyboard: the ESC branch is modelled as an `Exit` reaction, without process termination. Rotation angles are unbounded reals, as the source never wraps them.
