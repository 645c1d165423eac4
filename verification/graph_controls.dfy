/**
 The point form: three numeric fields edited one at a time; submitting hands
 the point they describe to the scene and clears the fields.
 */
module GraphControls {
  import opened Geometry

  /** The state of the point form, one value per named input. */
  datatype PointForm = PointForm(x: real, y: real, z: real)

  /** The form as first shown and as left after each submission. */
  const InitialForm: PointForm := PointForm(0.0, 0.0, 0.0)

  /** The value of the input named `name`. */
  function Field(form: PointForm, name: Axis): real {
    match name
    case X => form.x
    case Y => form.y
    case Z => form.z
  }

  /** The point the form currently describes. */
  function AsPoint(form: PointForm): (p: Point3)
    ensures forall a :: Coord(p, a) == Field(form, a)
  {
    Point3(form.x, form.y, form.z)
  }

  /** Typing `v` into the input named `name` sets that field; the other two
      keep their values. */
  function Edit(form: PointForm, name: Axis, v: real): (next: PointForm)
    ensures Field(next, name) == v
    ensures forall a :: a != name ==> Field(next, a) == Field(form, a)
  {
    match name
    case X => form.(x := v)
    case Y => form.(y := v)
    case Z => form.(z := v)
  }

  /** What a submission yields: the point handed to the scene and the
      form's next state. */
  datatype Submission = Submission(point: Point3, next: PointForm)

  /** Submitting emits the point whose coordinates are the form's fields and
      clears every field to 0. */
  function Submit(form: PointForm): (s: Submission)
    ensures forall a :: Coord(s.point, a) == Field(form, a)
    ensures forall a :: Field(s.next, a) == 0.0
  {
    Submission(AsPoint(form), InitialForm)
  }

  /** An edit leaves the form unchanged exactly when the named field
      already holds the typed value. */
  lemma EditThenRead(form: PointForm, name: Axis, v: real)
    ensures Edit(form, name, v) == form <==> Field(form, name) == v
  {
  }

  /** Whatever the form held, a second submission with no edits in between
      emits the origin. */
  lemma SecondSubmitEmitsOrigin(form: PointForm)
    ensures Submit(Submit(form).next).point == Origin
  {
  }
}
