# 3D geometry playground: scene and form model

This project models, in Dafny, the logic of a browser-based 3D playground
where the user adds points, squares and cubes to a scene. The rest is
rendering and UI glue around that logic. The model covers five parts:

- **Cube form** (`AddCube`). It computes the eight corners of an axis-aligned
  cube from an origin and an edge length. It then emits six closed face
  outlines of five points each. After a submission it re-seeds the form with
  random integers.
- **Square form** (`AddSquare`). It computes the four corners of a square in
  the z = 0 plane, anchored at the origin. Submitting resets the length to 1.
- **Point list** (`App`). This is the scene's list of points. It is seeded
  with the origin and the three axis tips, and it only grows at the end.
  `App.Session` replays the point form's events against the list, the way
  `App.jsx` wires the form to `addPoint`.
- **Point form** (`GraphControls`). It is a three-field record. Editing
  updates one named field. Submitting emits the point and clears the record.
- **Drag snapping** (`Bonus`). A dragged box in the grid sandbox has its x
  and z clamped to `[-5, 4]`, rounded, and moved to the cell centre. Its
  height never changes.

`Geometry` holds the shared `Point3` triple, the axes, and the notion of an
axis step: a move of `len` along one axis. Every square or cube edge is an
axis step.

Coordinates are reals: the model starts from values the inputs have already
parsed. `Math.random` becomes an explicit draw `r` with `0 <= r < 1`.
`Math.round` is `Floor(v + 1/2)`, which rounds halves upward as JavaScript
does. `MathUtils.clamp(v, lo, hi)` is `max(lo, min(hi, v))`.

The code always anchors the square at `(0, 0, 0)` and takes only a length.

## Model

| member | source | states |
|---|---|---|
| AddCube.Corners | tdc-site/src/AddCube.jsx:16-25 | There are exactly 8 corners. Corner i is offset by the edge in x iff i is 1, 2, 5 or 6, in y iff i is 2, 3, 6 or 7, and in z iff i >= 4. |
| AddCube.CornersDistinct | tdc-site/src/AddCube.jsx:16-25 | With a non-zero edge, the eight corners are pairwise distinct points. |
| AddCube.Faces | tdc-site/src/AddCube.jsx:28-71 | There are exactly 6 faces. Each is a ring of 5 points whose last point equals its first. Its first four points are the corners named by the face's row of the corner-index table. |
| AddCube.FaceCornersWellFormed | tdc-site/src/AddCube.jsx:29-70 | Each face references 4 distinct corner indices, all below 8. |
| AddCube.EachCornerOnThreeFaces | tdc-site/src/AddCube.jsx:29-70 | Each of the 8 corners lies on exactly 3 faces, with the closing repeat not counted. No other index lies on any face. |
| AddCube.FacesArePlanar | tdc-site/src/AddCube.jsx:29-70 | Faces 0 and 1 have constant z (z and z+L). Faces 2 and 3 have constant x (x and x+L). Faces 4 and 5 have constant y (y+L and y). |
| AddCube.FaceEdgesAreAxisSteps | tdc-site/src/AddCube.jsx:29-70 | Consecutive ring points differ by the edge along one axis. So every edge has squared length L*L, and for L != 0 exactly one coordinate changes. |
| AddCube.Edit | tdc-site/src/AddCube.jsx:10-12 | Typing into one of the four inputs sets that field and leaves the other three unchanged. |
| AddCube.RandomValue | tdc-site/src/AddCube.jsx:82-84 | For a draw in [0, 1) and min <= max, the result is an integer in [min, max]. When min = max it is min. |
| AddCube.RandomValueReachesEveryValue | tdc-site/src/AddCube.jsx:82-84 | Every integer of [min, max], both end points included, is produced by some draw in [0, 1). |
| AddCube.Submit | tdc-site/src/AddCube.jsx:74-79 | A submission hands over the faces of the cube at the form's origin and length. The next form has an integer length in [5, 15] and integer x, y, z in [5, 300]. |
| AddCube.InitialCorners | tdc-site/src/AddCube.jsx:5-25 | With the initial form (all fields 5), the corners are exactly the eight points of {5, 10}^3. |
| AddSquare.Corners | tdc-site/src/AddSquare.jsx:13-18 | There are exactly 4 corners, all with z = 0. The first is the origin whatever the length. Corner i is offset by L in x iff i is 1 or 2 and in y iff i >= 2, so every coordinate is 0 or L. |
| AddSquare.SidesAreAxisSteps | tdc-site/src/AddSquare.jsx:13-18 | Cyclically consecutive corners differ by L along one axis, giving sides of squared length L*L. For L != 0 exactly one coordinate changes. Both diagonals have squared length 2*L*L. |
| AddSquare.SquareIsCubeBottom | tdc-site/src/AddSquare.jsx:13-18 | The square equals the bottom face of the cube with the same edge at the origin, without the closing repeat. |
| AddSquare.Edit | tdc-site/src/AddSquare.jsx:7-9 | Typing a length sets the form's length to it. |
| AddSquare.Submit | tdc-site/src/AddSquare.jsx:11-25 | A submission hands over the square of the current length and resets the form to the initial length 1. |
| AddSquare.SubmitForgetsLength | tdc-site/src/AddSquare.jsx:5-24 | The form after a submission is the same whatever length was typed. A second submission without edits emits the unit square. |
| App.AddPoint | tdc-site/src/App.jsx:15-17 | The list grows by exactly one, the new point is last, and every earlier entry keeps its value and position. |
| App.AddPointsAppends | tdc-site/src/App.jsx:15-17 | Adding points one at a time equals appending all of them in order, so the old list is a prefix of the new one. |
| App.InitialThenAdded | tdc-site/src/App.jsx:8-17 | After N additions from the initial list there are 4 + N points: the four initial points (0,0,0), (0,0,20), (20,0,0), (0,20,0), then the added ones in order. |
| App.RunOnlyAppends | tdc-site/src/App.jsx:15-22 | Over any sequence of point-form events, no earlier point is removed or changed, and each button press adds exactly one point. |
| App.SessionPointCount | tdc-site/src/App.jsx:8-22 | From the start of a session the list holds the four initial points followed by one point per press. |
| App.Step | tdc-site/src/App.jsx:15-22 | Typing into the point form leaves the scene's points unchanged. Pressing the button appends the form's point (x, y, z) as the last entry and clears the form to (0, 0, 0). |
| App.TypedPointIsAdded | tdc-site/src/GraphControls.jsx:9-20 | Typing x, y, z and pressing the button appends exactly (x, y, z) and leaves the form at (0, 0, 0). |
| GraphControls.AsPoint | tdc-site/src/GraphControls.jsx:17 | The point built from the form has, along each axis, the coordinate of the field of that name. |
| GraphControls.Edit | tdc-site/src/GraphControls.jsx:9-14 | Editing the field named x, y or z sets only that field. The other two are unchanged. |
| GraphControls.EditThenRead | tdc-site/src/GraphControls.jsx:9-14 | An edit leaves the form unchanged iff the named field already held the typed value. |
| GraphControls.Submit | tdc-site/src/GraphControls.jsx:16-20 | The emitted point's coordinates are the form's fields, and every field of the next form is 0. |
| GraphControls.SecondSubmitEmitsOrigin | tdc-site/src/GraphControls.jsx:16-20 | Whatever the form held, a second submission with no edits emits the origin. |
| Bonus.Round | tdc-site/src/Bonus.jsx:11 | Rounding returns the integer in (v - 1/2, v + 1/2]. |
| Bonus.RoundIsNearest | tdc-site/src/Bonus.jsx:11 | An integer k is the rounding of v iff v - 1/2 < k <= v + 1/2. |
| Bonus.Clamp | tdc-site/src/Bonus.jsx:12 | For lo <= hi the result lies in [lo, hi]. It is v itself when v is inside, lo below the range and hi above it. |
| Bonus.Snap | tdc-site/src/Bonus.jsx:20 | A snapped coordinate is a cell centre: it lies in [-4.5, 4.5] and minus 1/2 it is an integer. |
| Bonus.SnapCells | tdc-site/src/Bonus.jsx:20 | Snapping gives the centre k + 1/2 (-5 <= k <= 4) iff the pointer is in [k - 1/2, k + 1/2). The end cells also take everything beyond the grid. |
| Bonus.SnapSaturates | tdc-site/src/Bonus.jsx:20-22 | A pointer at x >= 4 snaps to 4.5, and one at x <= -5 snaps to -4.5. |
| Bonus.SnapMonotone | tdc-site/src/Bonus.jsx:20 | If a <= b then snap(a) <= snap(b). |
| Bonus.SnapReachesEveryCell | tdc-site/src/Bonus.jsx:20 | Every cell centre k + 1/2 of the grid is reached, from the pointer at k. |
| Bonus.OnDrag | tdc-site/src/Bonus.jsx:17-25 | The drag target keeps the box's own height position[1]. Its x and z are the snapped pointer coordinates, both cell centres in the grid. |
| Bonus.StartPositionsOnLattice | tdc-site/src/Bonus.jsx:9-61 | The default position and the three hard-coded starting positions have x and z on cell centres inside the grid. A drag can produce each of them and leave the box where it is. |

## Left out

- Rendering is out: the whole of `ThreeScene.jsx` (camera, lights, orbit controls, axis lines, point dots). It draws the model and computes nothing in it.
- The per-frame easing of a dragged box towards its target and its colour (`Bonus.jsx` lines 36-44) are out. They are animation over real time.
- The cursor side effect (`Bonus.jsx` lines 27-35) is out.
- The `useDrag` hook and `Grid` component that feed `onDrag` its pointer coordinates are out. `Grid.jsx` is not part of this model.
- `Math.random` is out; each draw is an explicit parameter in [0, 1).
- `Math.round` and `MathUtils.clamp` are modelled over exact reals. IEEE floating point and its rounding are not modelled.
- Parsing input text with `Number` and `parseFloat`, and NaN propagating from unparsable input, are out. Inputs are already-parsed reals.
- The cube and square builders hand their output to callbacks (`addCube`, `addSquare`) that no component provides: `App.jsx` does not render them, and the square form is commented out in `GraphControls.jsx`. So there is no list of squares or cubes to model. The builders are standalone functions.
- React state, hooks, re-rendering and JSX markup are out. Form state is an explicit record, and each handler is a pure transition.
- The `round`/`clamp` props of `Cube` (`Bonus.jsx` lines 11-12) are fixed to their defaults `Math.round` and `MathUtils.clamp`; no call site overrides them.
- `Vector3` is a value triple; the sharing of corner objects between faces (the same `cubePoints[i]` object in three faces) is not modelled.
- AddCube.RandomValue: says nothing about the result when min > max. The source never calls it that way and does not define a meaning for it.
- `getRandomValue` draws are not modelled as uniform. `AddCube.RandomValueReachesEveryValue` shows only that every value in range is reachable.
