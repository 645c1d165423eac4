/**
 The scene's list of points: seeded with the origin and the tips of the three
 axes, and only ever extended at the end. `Session` replays the point form's
 events against the list, as the application wires the form to `AddPoint`.
 */
module App {
  import opened Geometry
  import GraphControls

  /** The points shown before anything is added: the origin, then the tips
      of the z, x and y axes at distance 20. */
  const InitialPoints: seq<Point3> :=
    [ Point3(0.0, 0.0, 0.0),
      Point3(0.0, 0.0, 20.0),
      Point3(20.0, 0.0, 0.0),
      Point3(0.0, 20.0, 0.0) ]

  /** Adding a point puts it last and keeps every earlier point, in order. */
  function AddPoint(points: seq<Point3>, p: Point3): (next: seq<Point3>)
    ensures |next| == |points| + 1
    ensures next[|points|] == p
    ensures forall i :: 0 <= i < |points| ==> next[i] == points[i]
  {
    points + [p]
  }

  /** `AddPoint` applied to each point of `ps` in turn. */
  function AddPoints(points: seq<Point3>, ps: seq<Point3>): seq<Point3>
    decreases |ps|
  {
    if |ps| == 0 then points else AddPoints(AddPoint(points, ps[0]), ps[1..])
  }

  /** Adding points one at a time appends them all, in the order added. */
  lemma {:induction false} AddPointsAppends(points: seq<Point3>, ps: seq<Point3>)
    ensures AddPoints(points, ps) == points + ps
    decreases |ps|
  {
    if |ps| != 0 {
      AddPointsAppends(AddPoint(points, ps[0]), ps[1..]);
      assert AddPoint(points, ps[0]) + ps[1..] == points + ps;
    }
  }

  /** After N additions from the start, the scene holds 4 + N points: the
      four initial ones first, then the added ones in order. */
  lemma InitialThenAdded(ps: seq<Point3>)
    ensures |AddPoints(InitialPoints, ps)| == 4 + |ps|
    ensures AddPoints(InitialPoints, ps)[..4] == InitialPoints
    ensures AddPoints(InitialPoints, ps)[4..] == ps
  {
    AddPointsAppends(InitialPoints, ps);
  }

  /** What the user does with the point form. */
  datatype FormEvent = Type(name: Axis, value: real) | Press

  /** The form and the scene's points it feeds. */
  datatype Session = Session(form: GraphControls.PointForm, points: seq<Point3>)

  const InitialSession: Session := Session(GraphControls.InitialForm, InitialPoints)

  /** One event: typing edits the form; pressing the button submits the form
      and adds the emitted point to the scene. */
  function Step(s: Session, e: FormEvent): (r: Session)
    ensures e.Type? ==> r.points == s.points && r.form == GraphControls.Edit(s.form, e.name, e.value)
    ensures e.Press? ==> r.points == s.points + [GraphControls.AsPoint(s.form)] && r.form == GraphControls.InitialForm
  {
    match e
    case Type(name, v) => s.(form := GraphControls.Edit(s.form, name, v))
    case Press =>
      var sub := GraphControls.Submit(s.form);
      Session(sub.next, AddPoint(s.points, sub.point))
  }

  /** The session after the events `es`, in order. */
  function Run(s: Session, es: seq<FormEvent>): Session
    decreases |es|
  {
    if |es| == 0 then s else Run(Step(s, es[0]), es[1..])
  }

  /** The number of button presses in `es`. */
  function Presses(es: seq<FormEvent>): (n: nat)
    ensures n <= |es|
  {
    if |es| == 0 then 0 else (if es[0].Press? then 1 else 0) + Presses(es[1..])
  }

  /** Events never remove or change a point already in the scene, and each
      press adds exactly one. */
  lemma {:induction false} RunOnlyAppends(s: Session, es: seq<FormEvent>)
    ensures |Run(s, es).points| == |s.points| + Presses(es)
    ensures Run(s, es).points[..|s.points|] == s.points
    decreases |es|
  {
    if |es| != 0 {
      var s' := Step(s, es[0]);
      RunOnlyAppends(s', es[1..]);
      assert s'.points[..|s.points|] == s.points;
    }
  }

  /** From the start of the session, the scene holds the four initial
      points followed by one point per press. */
  lemma SessionPointCount(es: seq<FormEvent>)
    ensures |Run(InitialSession, es).points| == 4 + Presses(es)
    ensures Run(InitialSession, es).points[..4] == InitialPoints
  {
    RunOnlyAppends(InitialSession, es);
  }

  /** Typing x, y and z and pressing the button adds exactly that point, and
      leaves the form cleared. */
  lemma TypedPointIsAdded(s: Session, x: real, y: real, z: real)
    ensures Run(s, [Type(X, x), Type(Y, y), Type(Z, z), Press]) ==
            Session(GraphControls.InitialForm, s.points + [Point3(x, y, z)])
  {
    var es := [Type(X, x), Type(Y, y), Type(Z, z), Press];
    var s1 := Step(s, es[0]);
    var s2 := Step(s1, es[1]);
    var s3 := Step(s2, es[2]);
    assert s3.form == GraphControls.PointForm(x, y, z);
    assert Run(s, es) == Run(s1, es[1..]);
    assert Run(s1, es[1..]) == Run(s2, es[2..]);
    assert Run(s2, es[2..]) == Run(s3, es[3..]);
    assert Run(s3, es[3..]) == Run(Step(s3, Press), []);
  }
}
