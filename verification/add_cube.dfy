/**
 The cube form: from an origin and an edge length it builds the eight corners
 of an axis-aligned cube and the six closed face outlines drawn over them,
 then re-seeds the form with random integer defaults.
 */
module AddCube {
  import opened Geometry

  /** Corner `i` of the cube at `o` with edge `len`, described by which axes
      it is offset along: x for corners 1, 2, 5, 6; y for 2, 3, 6, 7; z for
      the upper ring 4..7. */
  function CornerSpec(o: Point3, len: real, i: nat): Point3 {
    Point3(
      o.x + (if i in {1, 2, 5, 6} then len else 0.0),
      o.y + (if i in {2, 3, 6, 7} then len else 0.0),
      o.z + (if i >= 4 then len else 0.0))
  }

  /** The eight corners, listed as the cube form lists them: the lower ring
      at height `o.z` counter-clockwise from `o`, then the same ring at
      height `o.z + len`. */
  function Corners(o: Point3, len: real): (c: seq<Point3>)
    ensures |c| == 8
    ensures forall i :: 0 <= i < 8 ==> c[i] == CornerSpec(o, len, i)
  {
    [ Point3(o.x, o.y, o.z),
      Point3(o.x + len, o.y, o.z),
      Point3(o.x + len, o.y + len, o.z),
      Point3(o.x, o.y + len, o.z),
      Point3(o.x, o.y, o.z + len),
      Point3(o.x + len, o.y, o.z + len),
      Point3(o.x + len, o.y + len, o.z + len),
      Point3(o.x, o.y + len, o.z + len) ]
  }

  /** For each face, the four corner indices its outline visits, in order:
      bottom, top, the x = o.x side, the x = o.x + len side, the
      y = o.y + len side and the y = o.y side. */
  const FaceCorners: seq<seq<nat>> :=
    [ [0, 1, 2, 3],
      [4, 5, 6, 7],
      [0, 3, 7, 4],
      [1, 2, 6, 5],
      [2, 3, 7, 6],
      [0, 1, 5, 4] ]

  /** The closed outline over four corners: the corners in order, then the
      first one again. */
  function Ring(c: seq<Point3>, i0: nat, i1: nat, i2: nat, i3: nat): seq<Point3>
    requires i0 < |c| && i1 < |c| && i2 < |c| && i3 < |c|
  {
    [c[i0], c[i1], c[i2], c[i3], c[i0]]
  }

  /** The six face outlines handed to the scene: each is a closed ring of
      five points whose first four points are the corners `FaceCorners`
      names. */
  function Faces(o: Point3, len: real): (faces: seq<seq<Point3>>)
    ensures |faces| == 6
    ensures forall f :: 0 <= f < 6 ==> |faces[f]| == 5 && faces[f][4] == faces[f][0]
    ensures forall f, k :: 0 <= f < 6 && 0 <= k < 4 ==>
              faces[f][k] == CornerSpec(o, len, FaceCorners[f][k])
  {
    var c := Corners(o, len);
    [ Ring(c, 0, 1, 2, 3),
      Ring(c, 4, 5, 6, 7),
      Ring(c, 0, 3, 7, 4),
      Ring(c, 1, 2, 6, 5),
      Ring(c, 2, 3, 7, 6),
      Ring(c, 0, 1, 5, 4) ]
  }

  /** With a non-zero edge the eight corners are pairwise distinct points. */
  lemma CornersDistinct(o: Point3, len: real)
    requires len != 0.0
    ensures forall i, j :: 0 <= i < j < 8 ==> Corners(o, len)[i] != Corners(o, len)[j]
  {
  }

  /** Every face visits four distinct corners, all among the eight. */
  lemma FaceCornersWellFormed()
    ensures |FaceCorners| == 6
    ensures forall f :: 0 <= f < 6 ==> |FaceCorners[f]| == 4
    ensures forall f, k :: 0 <= f < 6 && 0 <= k < 4 ==> FaceCorners[f][k] < 8
    ensures forall f, k, m :: 0 <= f < 6 && 0 <= k < m < 4 ==> FaceCorners[f][k] != FaceCorners[f][m]
  {
  }

  /** The number of faces in `faces` whose corner list contains corner `i`. */
  function FacesTouching(faces: seq<seq<nat>>, i: nat): (n: nat)
    ensures n <= |faces|
  {
    if |faces| == 0 then 0
    else (if i in faces[0] then 1 else 0) + FacesTouching(faces[1..], i)
  }

  /** Every corner of the cube lies on exactly three faces, and no other
      index lies on any. */
  lemma {:induction false} EachCornerOnThreeFaces(i: nat)
    ensures FacesTouching(FaceCorners, i) == if i < 8 then 3 else 0
  {
    var fs := FaceCorners;
    assert fs[6..] == [];
    assert FacesTouching(fs[5..], i) == (if i in [0, 1, 5, 4] then 1 else 0);
    assert FacesTouching(fs[4..], i) == (if i in [2, 3, 7, 6] then 1 else 0) + FacesTouching(fs[5..], i);
    assert FacesTouching(fs[3..], i) == (if i in [1, 2, 6, 5] then 1 else 0) + FacesTouching(fs[4..], i);
    assert FacesTouching(fs[2..], i) == (if i in [0, 3, 7, 4] then 1 else 0) + FacesTouching(fs[3..], i);
    assert FacesTouching(fs[1..], i) == (if i in [4, 5, 6, 7] then 1 else 0) + FacesTouching(fs[2..], i);
  }

  /** Each face lies in a plane perpendicular to one axis: the bottom and
      top at constant z, the next two at constant x, the last two at
      constant y. */
  lemma FacesArePlanar(o: Point3, len: real)
    ensures forall k :: 0 <= k < 5 ==> Faces(o, len)[0][k].z == o.z
    ensures forall k :: 0 <= k < 5 ==> Faces(o, len)[1][k].z == o.z + len
    ensures forall k :: 0 <= k < 5 ==> Faces(o, len)[2][k].x == o.x
    ensures forall k :: 0 <= k < 5 ==> Faces(o, len)[3][k].x == o.x + len
    ensures forall k :: 0 <= k < 5 ==> Faces(o, len)[4][k].y == o.y + len
    ensures forall k :: 0 <= k < 5 ==> Faces(o, len)[5][k].y == o.y
  {
  }

  /** Walking any face outline, each step moves along one axis by the edge
      length, so every drawn edge has length `|len|` and, for a non-zero
      edge, changes exactly one coordinate. */
  lemma FaceEdgesAreAxisSteps(o: Point3, len: real)
    ensures forall f, k :: 0 <= f < 6 && 0 <= k < 4 ==>
              AxisStep(Faces(o, len)[f][k], Faces(o, len)[f][k + 1], len)
    ensures forall f, k :: 0 <= f < 6 && 0 <= k < 4 ==>
              DistSq(Faces(o, len)[f][k], Faces(o, len)[f][k + 1]) == len * len
    ensures len != 0.0 ==> forall f, k :: 0 <= f < 6 && 0 <= k < 4 ==>
              DifferingCoords(Faces(o, len)[f][k], Faces(o, len)[f][k + 1]) == 1
  {
    var faces := Faces(o, len);
    forall f, k | 0 <= f < 6 && 0 <= k < 4
      ensures AxisStep(faces[f][k], faces[f][k + 1], len)
      ensures DistSq(faces[f][k], faces[f][k + 1]) == len * len
      ensures len != 0.0 ==> DifferingCoords(faces[f][k], faces[f][k + 1]) == 1
    {
      AxisStepLength(faces[f][k], faces[f][k + 1], len);
      if len != 0.0 {
        AxisStepMovesOneCoord(faces[f][k], faces[f][k + 1], len);
      }
    }
  }

  /** The state of the cube form: edge length and origin coordinates. */
  datatype CubeForm = CubeForm(length: real, x: real, y: real, z: real)

  /** The four inputs of the cube form. */
  datatype CubeField = Length | XAxis | YAxis | ZAxis

  /** The form as first shown: every field is 5. */
  const InitialForm: CubeForm := CubeForm(5.0, 5.0, 5.0, 5.0)

  /** The value the form shows in field `f`. */
  function FieldOf(form: CubeForm, f: CubeField): real {
    match f
    case Length => form.length
    case XAxis => form.x
    case YAxis => form.y
    case ZAxis => form.z
  }

  /** The origin the form describes. */
  function FormOrigin(form: CubeForm): Point3 {
    Point3(form.x, form.y, form.z)
  }

  /** Typing `v` into field `f` sets that field and no other. */
  function Edit(form: CubeForm, f: CubeField, v: real): (next: CubeForm)
    ensures FieldOf(next, f) == v
    ensures forall g :: g != f ==> FieldOf(next, g) == FieldOf(form, g)
  {
    match f
    case Length => form.(length := v)
    case XAxis => form.(x := v)
    case YAxis => form.(y := v)
    case ZAxis => form.(z := v)
  }

  /** `Math.floor(r * (max - min + 1) + min)` for a draw `r` of
      `Math.random`: an integer in `[min, max]` whenever `min <= max`. */
  function RandomValue(min: int, max: int, r: real): (v: int)
    requires 0.0 <= r < 1.0
    ensures min <= max ==> min <= v <= max
  {
    var span := (max - min + 1) as real;
    assert min <= max ==> r * span < span by {
      if min <= max {
        assert span > 0.0;
        assert span - r * span == (1.0 - r) * span;
      }
    }
    (r * span + min as real).Floor
  }

  /** Every integer of `[min, max]` is produced by some draw, the end
      points included: the draw `(v - min) / (max - min + 1)` yields `v`. */
  lemma RandomValueReachesEveryValue(min: int, max: int, v: int)
    requires min <= v <= max
    ensures var r := (v - min) as real / (max - min + 1) as real;
            0.0 <= r < 1.0 && RandomValue(min, max, r) == v
  {
    var span := (max - min + 1) as real;
    var r := (v - min) as real / span;
    assert r * span == (v - min) as real;
    assert r < 1.0 by {
      assert (v - min) as real < span;
    }
  }

  /** The four draws of `Math.random` one submission consumes, one per
      field. */
  datatype Draws = Draws(length: real, x: real, y: real, z: real)

  predicate ValidDraws(d: Draws) {
    && 0.0 <= d.length < 1.0
    && 0.0 <= d.x < 1.0
    && 0.0 <= d.y < 1.0
    && 0.0 <= d.z < 1.0
  }

  /** What a submission yields: the faces handed to the scene and the form's
      next state. */
  datatype Submission = Submission(faces: seq<seq<Point3>>, next: CubeForm)

  /** Submitting the form: the cube at the form's origin and length goes to
      the scene, and the form is re-seeded with a random integer length in
      `[5, 15]` and random integer coordinates in `[5, 300]`. */
  function Submit(form: CubeForm, d: Draws): (s: Submission)
    requires ValidDraws(d)
    ensures s.faces == Faces(FormOrigin(form), form.length)
    ensures 5.0 <= s.next.length <= 15.0 && IsInt(s.next.length)
    ensures 5.0 <= s.next.x <= 300.0 && IsInt(s.next.x)
    ensures 5.0 <= s.next.y <= 300.0 && IsInt(s.next.y)
    ensures 5.0 <= s.next.z <= 300.0 && IsInt(s.next.z)
  {
    var faces := Faces(FormOrigin(form), form.length);
    Submission(faces, CubeForm(
      RandomValue(5, 15, d.length) as real,
      RandomValue(5, 300, d.x) as real,
      RandomValue(5, 300, d.y) as real,
      RandomValue(5, 300, d.z) as real))
  }

  /** With the initial form, the corners are exactly `{5, 10}` cubed. */
  lemma InitialCorners()
    ensures forall i :: 0 <= i < 8 ==>
              var p := Corners(FormOrigin(InitialForm), InitialForm.length)[i];
              (p.x == 5.0 || p.x == 10.0) && (p.y == 5.0 || p.y == 10.0) && (p.z == 5.0 || p.z == 10.0)
    ensures forall a, b, c :: a in {5.0, 10.0} && b in {5.0, 10.0} && c in {5.0, 10.0} ==>
              Point3(a, b, c) in Corners(FormOrigin(InitialForm), InitialForm.length)
  {
    var cs := Corners(Point3(5.0, 5.0, 5.0), 5.0);
    assert cs == [ Point3(5.0, 5.0, 5.0), Point3(10.0, 5.0, 5.0), Point3(10.0, 10.0, 5.0), Point3(5.0, 10.0, 5.0),
                   Point3(5.0, 5.0, 10.0), Point3(10.0, 5.0, 10.0), Point3(10.0, 10.0, 10.0), Point3(5.0, 10.0, 10.0) ];
  }
}
