/**
 The square form: from a side length it builds the four corners of a square
 in the z = 0 plane, anchored at the scene origin, and resets the length.
 */
module AddSquare {
  import opened Geometry
  import AddCube

  /** The four corners for side `len`, counter-clockwise from the origin:
      corner i is offset by `len` in x for i in {1, 2} and in y for i >= 2,
      and lies at z = 0; whatever the length, the first corner is the
      origin. */
  function Corners(len: real): (sq: seq<Point3>)
    ensures |sq| == 4
    ensures sq[0] == Origin
    ensures forall i :: 0 <= i < 4 ==>
              && sq[i].x == (if i in {1, 2} then len else 0.0)
              && sq[i].y == (if i >= 2 then len else 0.0)
              && sq[i].z == 0.0
  {
    [ Point3(0.0, 0.0, 0.0),
      Point3(len, 0.0, 0.0),
      Point3(len, len, 0.0),
      Point3(0.0, len, 0.0) ]
  }

  /** Going round the square, including from the last corner back to the
      first, each step moves along one axis by `len`, so each side has
      length `|len|` and, for a non-zero side, changes exactly one
      coordinate; the two diagonals are equally long. */
  lemma SidesAreAxisSteps(len: real)
    ensures AxisStep(Corners(len)[0], Corners(len)[1], len)
    ensures AxisStep(Corners(len)[1], Corners(len)[2], len)
    ensures AxisStep(Corners(len)[2], Corners(len)[3], len)
    ensures AxisStep(Corners(len)[3], Corners(len)[0], len)
    ensures DistSq(Corners(len)[0], Corners(len)[1]) == len * len
    ensures DistSq(Corners(len)[1], Corners(len)[2]) == len * len
    ensures DistSq(Corners(len)[2], Corners(len)[3]) == len * len
    ensures DistSq(Corners(len)[3], Corners(len)[0]) == len * len
    ensures len != 0.0 ==>
              && DifferingCoords(Corners(len)[0], Corners(len)[1]) == 1
              && DifferingCoords(Corners(len)[1], Corners(len)[2]) == 1
              && DifferingCoords(Corners(len)[2], Corners(len)[3]) == 1
              && DifferingCoords(Corners(len)[3], Corners(len)[0]) == 1
    ensures DistSq(Corners(len)[0], Corners(len)[2]) == 2.0 * len * len
    ensures DistSq(Corners(len)[1], Corners(len)[3]) == 2.0 * len * len
  {
    var sq := Corners(len);
    Side(sq[0], sq[1], len);
    Side(sq[1], sq[2], len);
    Side(sq[2], sq[3], len);
    Side(sq[3], sq[0], len);
  }

  /** One side of the square: an axis step, so of squared length
      `len * len`, and moving one coordinate when `len != 0`. */
  lemma Side(p: Point3, q: Point3, len: real)
    requires AxisStep(p, q, len)
    ensures DistSq(p, q) == len * len
    ensures len != 0.0 ==> DifferingCoords(p, q) == 1
  {
    AxisStepLength(p, q, len);
    if len != 0.0 {
      AxisStepMovesOneCoord(p, q, len);
    }
  }

  /** The square is the bottom face of the cube with the same edge anchored
      at the origin, without the closing repeat. */
  lemma SquareIsCubeBottom(len: real)
    ensures Corners(len) == AddCube.Faces(Origin, len)[0][..4]
  {
  }

  /** The state of the square form: the side length. */
  datatype SquareForm = SquareForm(length: real)

  /** The side length the form starts with and returns to after each
      submission. */
  const DefaultLength: real := 1.0

  const InitialForm: SquareForm := SquareForm(DefaultLength)

  /** Typing a length into the form. */
  function Edit(form: SquareForm, v: real): (next: SquareForm)
    ensures next.length == v
  {
    form.(length := v)
  }

  /** What a submission yields: the corners handed to the scene and the
      form's next state. */
  datatype Submission = Submission(corners: seq<Point3>, next: SquareForm)

  /** Submitting hands the square of the current length to the scene and
      resets the length to 1, whatever it was. */
  function Submit(form: SquareForm): (s: Submission)
    ensures s.corners == Corners(form.length)
    ensures s.next == InitialForm
  {
    Submission(Corners(form.length), SquareForm(DefaultLength))
  }

  /** After a submission the form no longer depends on what was typed before
      it: two forms that differ only in length submit to the same next form,
      and a second submission without edits emits the unit square. */
  lemma SubmitForgetsLength(a: SquareForm, b: SquareForm)
    ensures Submit(a).next == Submit(b).next
    ensures Submit(Submit(a).next).corners == Corners(1.0)
  {
  }
}
