/**
 Drag snapping in the grid sandbox: a dragged box follows the pointer's x and
 z, clamped to the grid, rounded to whole units and shifted by half a unit so
 that the box sits in the centre of a grid cell; its height never changes.
 */
module Bonus {
  import opened Geometry

  /** `Math.round`: the nearest integer, halves rounded up (towards positive
      infinity, so -2.5 rounds to -2). */
  function Round(v: real): (r: int)
    ensures v - 0.5 < r as real <= v + 0.5
  {
    (v + 0.5).Floor
  }

  /** `MathUtils.clamp(v, lo, hi)`, that is `max(lo, min(hi, v))`. */
  function Clamp(v: real, lo: real, hi: real): (r: real)
    ensures lo <= hi ==> lo <= r <= hi
    ensures lo <= v <= hi ==> r == v
    ensures v < lo ==> r == lo
    ensures lo <= hi < v ==> r == hi
  {
    var m := if v < hi then v else hi;
    if lo < m then m else lo
  }

  /** The grid bounds the pointer coordinate is clamped to. */
  const Low: real := -5.0
  const High: real := 4.0

  /** A cell centre of the grid: a half-integer in `[-4.5, 4.5]`. */
  predicate OnLattice(v: real) {
    -4.5 <= v <= 4.5 && IsInt(v - 0.5)
  }

  /** One snapped coordinate: clamp, round, then move to the cell centre. */
  function Snap(v: real): (r: real)
    ensures OnLattice(r)
  {
    Round(Clamp(v, Low, High)) as real + 0.5
  }

  /** `Math.round` picks the one integer in `(v - 1/2, v + 1/2]`: an
      integer `k` is the result exactly when it lies in that interval. */
  lemma RoundIsNearest(v: real, k: int)
    ensures Round(v) == k <==> v - 0.5 < k as real <= v + 0.5
  {
  }

  /** Which pointer coordinates land in which cell: the centre `k + 1/2` is
      chosen exactly for pointers in `[k - 1/2, k + 1/2)`, the end cells also
      taking everything beyond the grid. */
  lemma SnapCells(v: real, k: int)
    requires -5 <= k <= 4
    ensures Snap(v) == k as real + 0.5 <==>
              (k == -5 || k as real - 0.5 <= v) && (k == 4 || v < k as real + 0.5)
  {
    RoundIsNearest(Clamp(v, Low, High), k);
  }

  /** Beyond the grid the box stays in the outermost cell. */
  lemma SnapSaturates(v: real)
    ensures v >= High ==> Snap(v) == 4.5
    ensures v <= Low ==> Snap(v) == -4.5
  {
  }

  /** Dragging further along an axis never moves the box back. */
  lemma SnapMonotone(a: real, b: real)
    requires a <= b
    ensures Snap(a) <= Snap(b)
  {
    RoundIsNearest(Clamp(a, Low, High), Round(Clamp(a, Low, High)));
    RoundIsNearest(Clamp(b, Low, High), Round(Clamp(b, Low, High)));
  }

  /** Every cell centre of the grid is reached: the pointer at the integer
      `k` lands on the centre `k + 1/2`. */
  lemma SnapReachesEveryCell(k: int)
    requires -5 <= k <= 4
    ensures Snap(k as real) == k as real + 0.5
  {
  }

  /** The target position after a drag to pointer `(x, z)`: snapped x and z,
      and the box's own height `position.y`, whatever the pointer did. */
  function OnDrag(position: Point3, x: real, z: real): (target: Point3)
    ensures target.y == position.y
    ensures OnLattice(target.x) && OnLattice(target.z)
    ensures target.x == Snap(x) && target.z == Snap(z)
  {
    Point3(Snap(x), position.y, Snap(z))
  }

  /** The position a box takes when none is given. */
  const DefaultPosition: Point3 := Point3(0.5, 0.5, -0.5)

  /** The three boxes of the sandbox, where they start. */
  const StartPositions: seq<Point3> :=
    [ Point3(0.5, 1.0, -0.5),
      Point3(2.0 + 0.5, 0.5, 2.0 - 0.5),
      Point3(-2.0 + 0.5, 1.5, 2.0 + 0.5) ]

  /** Every starting position already sits on a cell centre inside the
      grid, and is a position a drag can produce: dragging the pointer to
      half a unit below it in x and z leaves the box where it is. */
  lemma StartPositionsOnLattice()
    ensures forall p :: p in StartPositions || p == DefaultPosition ==>
              OnLattice(p.x) && OnLattice(p.z) && OnDrag(p, p.x - 0.5, p.z - 0.5) == p
  {
    forall p | p in StartPositions || p == DefaultPosition
      ensures OnLattice(p.x) && OnLattice(p.z) && OnDrag(p, p.x - 0.5, p.z - 0.5) == p
    {
      SnapReachesEveryCell((p.x - 0.5).Floor);
      SnapReachesEveryCell((p.z - 0.5).Floor);
    }
  }
}
