/**
  The human-to-robot position mapping of ControlThread::run.

  A human palm position (x, y, z) becomes the commanded robot palm position
  dRot, written in the permuted order (z, x, y) and scaled by TF. An ordered
  cascade of per-axis range tests picks at most one component to replace by
  its scaled workspace limit; the first test that holds wins.
*/
module HumanToRobot {

  import opened Optional

  /** Scale from human workspace to robot workspace. */
  const TF: real := 0.60

  const XMax: real := 0.40
  const XMin: real := -XMax
  const YMax: real := 0.50
  const YMin: real := -YMax
  const ZMax: real := 0.40
  const ZMin: real := -ZMax

  datatype Point = Point(x: real, y: real, z: real)
  datatype Quaternion = Quaternion(x: real, y: real, z: real, w: real)

  /** One message of the human joint pose stream. */
  datatype PoseSample = PoseSample(position: Point, orientation: Quaternion)

  /** The cascade exactly as the source writes it, test by test. */
  function MapPosition(p: Point): (r: seq<real>)
  {
    if p.x <= XMax && p.x > 0.0 then
      [TF * p.z, TF * XMax, TF * p.y]
    else if p.x >= XMax && p.x < 0.0 then
      [TF * p.z, TF * XMin, TF * p.y]
    else if p.y <= YMax && p.y > 0.0 then
      [TF * p.z, TF * p.x, TF * YMax]
    else if p.y >= YMin && p.y < 0.0 then
      [TF * p.z, TF * p.x, TF * YMin]
    else if p.z <= ZMax && p.z > 0.0 then
      [TF * ZMax, TF * p.x, TF * p.y]
    else if p.z >= ZMin && p.z < 0.0 then
      [TF * ZMin, TF * p.x, TF * p.y]
    else
      [TF * p.z, TF * p.x, TF * p.y]
  }

  // ---------------------------------------------------------------------
  // A reference formulation: an ordered table of (axis, side) cases, each
  // with a range test and a clamp of one slot, evaluated first match wins.
  // ---------------------------------------------------------------------

  datatype Axis = X | Y | Z

  /** Range test on the positive or the negative side of one axis. */
  datatype Case = Case(axis: Axis, positive: bool)

  const Cascade: seq<Case> :=
    [Case(X, true), Case(X, false), Case(Y, true), Case(Y, false), Case(Z, true), Case(Z, false)]

  function Coord(p: Point, a: Axis): real
  {
    match a
    case X => p.x
    case Y => p.y
    case Z => p.z
  }

  function UpperLimit(a: Axis): real
  {
    match a
    case X => XMax
    case Y => YMax
    case Z => ZMax
  }

  function LowerLimit(a: Axis): real
  {
    match a
    case X => XMin
    case Y => YMin
    case Z => ZMin
  }

  /** The bound the negative-side test compares against. For x the source
      compares against the upper limit, not the lower one. */
  function NegativeTestBound(a: Axis): real
  {
    match a
    case X => XMax
    case Y => YMin
    case Z => ZMin
  }

  predicate Guard(c: Case, p: Point)
  {
    var v := Coord(p, c.axis);
    if c.positive then 0.0 < v <= UpperLimit(c.axis)
    else NegativeTestBound(c.axis) <= v < 0.0
  }

  /** Where an axis lands in dRot: (z, x, y). */
  function Slot(a: Axis): nat
  {
    match a
    case Z => 0
    case X => 1
    case Y => 2
  }

  /** The unclamped, scaled and permuted position. */
  function Passthrough(p: Point): (r: seq<real>)
  {
    [TF * p.z, TF * p.x, TF * p.y]
  }

  /** The pass-through position with the case's axis replaced by its scaled limit. */
  function Clamped(c: Case, p: Point): (r: seq<real>)
  {
    Passthrough(p)[Slot(c.axis) := TF * (if c.positive then UpperLimit(c.axis) else LowerLimit(c.axis))]
  }

  /** The index of the first case at or after `from` whose test holds. */
  function FirstMatch(cases: seq<Case>, p: Point, from: nat): (r: Option<nat>)
    requires from <= |cases|
    decreases |cases| - from
    ensures r.Some? ==> from <= r.value < |cases| && Guard(cases[r.value], p)
    ensures r.Some? ==> forall j :: from <= j < r.value ==> !Guard(cases[j], p)
    ensures r.None? <==> forall j :: from <= j < |cases| ==> !Guard(cases[j], p)
  {
    if from == |cases| then None
    else if Guard(cases[from], p) then Some(from)
    else FirstMatch(cases, p, from + 1)
  }

  /** The mapping as the ordered table describes it. */
  function CascadeTarget(p: Point): seq<real>
  {
    match FirstMatch(Cascade, p, 0)
    case Some(i) => Clamped(Cascade[i], p)
    case None => Passthrough(p)
  }

  // ---------------------------------------------------------------------
  // Lemmas
  // ---------------------------------------------------------------------

  /** First match wins: the index FirstMatch picks is the only one whose test
      holds while every earlier test fails. */
  lemma FirstMatchIsUnique(cases: seq<Case>, p: Point, from: nat, i: nat)
    requires from <= i < |cases|
    ensures FirstMatch(cases, p, from) == Some(i) <==>
              Guard(cases[i], p) && forall j :: from <= j < i ==> !Guard(cases[j], p)
  {
  }

  /** The source's if/else chain computes the ordered-table mapping. */
  lemma MapPositionFollowsCascade(p: Point)
    ensures MapPosition(p) == CascadeTarget(p)
  {
  }

  /** At most one component of the target differs from the scaled pass-through,
      and a differing component is a scaled workspace limit. */
  lemma AtMostOneComponentClamped(p: Point)
    ensures |MapPosition(p)| == 3
    ensures forall j, k :: 0 <= j < k < 3 ==>
              MapPosition(p)[j] == Passthrough(p)[j] || MapPosition(p)[k] == Passthrough(p)[k]
    ensures MapPosition(p)[0] in {TF * p.z, TF * ZMax, TF * ZMin}
    ensures MapPosition(p)[1] in {TF * p.x, TF * XMax, TF * XMin}
    ensures MapPosition(p)[2] in {TF * p.y, TF * YMax, TF * YMin}
  {
  }

  /** Case 1: x in (0, XMax] clamps x and passes z and y through. */
  lemma PositiveXClampsX(p: Point)
    requires 0.0 < p.x <= XMax
    ensures MapPosition(p) == [TF * p.z, TF * XMax, TF * p.y]
  {
  }

  /** Case 2 is dead: x >= XMax > 0 and x < 0 never hold together, so no
      sample selects it and none is clamped to XMin through it. */
  lemma NegativeXCaseNeverFires(p: Point)
    ensures !(p.x >= XMax && p.x < 0.0)
    ensures !Guard(Cascade[1], p)
    ensures FirstMatch(Cascade, p, 0) != Some(1)
  {
  }

  /** Because case 2 is dead, x is clamped only on the positive side: every
      other x, negative ones included, reaches dRot[1] merely scaled. */
  lemma XClampedOnlyWhenPositive(p: Point)
    ensures MapPosition(p)[1] == if 0.0 < p.x <= XMax then TF * XMax else TF * p.x
  {
  }

  /** Cases 3 and 4: with x outside (0, XMax], y in (0, YMax] or [YMin, 0)
      clamps y. */
  lemma YClampsWhenXOutOfRange(p: Point)
    requires !(0.0 < p.x <= XMax)
    ensures 0.0 < p.y <= YMax ==> MapPosition(p) == [TF * p.z, TF * p.x, TF * YMax]
    ensures YMin <= p.y < 0.0 ==> MapPosition(p) == [TF * p.z, TF * p.x, TF * YMin]
  {
  }

  /** Cases 5 and 6: with x and y outside their ranges, z in (0, ZMax] or
      [ZMin, 0) clamps z. */
  lemma ZClampsWhenXYOutOfRange(p: Point)
    requires !(0.0 < p.x <= XMax)
    requires !(0.0 < p.y <= YMax) && !(YMin <= p.y < 0.0)
    ensures 0.0 < p.z <= ZMax ==> MapPosition(p) == [TF * ZMax, TF * p.x, TF * p.y]
    ensures ZMin <= p.z < 0.0 ==> MapPosition(p) == [TF * ZMin, TF * p.x, TF * p.y]
  {
  }

  /** Default: when no range test holds, the sample passes through scaled. */
  lemma NoMatchPassesThrough(p: Point)
    requires FirstMatch(Cascade, p, 0).None?
    ensures MapPosition(p) == Passthrough(p)
  {
    MapPositionFollowsCascade(p);
  }

  /** Worked examples: a sample in the x range, the origin, and a sample far
      outside every range. */
  lemma Examples()
    ensures MapPosition(Point(0.20, 0.10, 0.05)) == [0.03, 0.24, 0.06]
    ensures MapPosition(Point(0.0, 0.0, 0.0)) == [0.0, 0.0, 0.0]
    ensures MapPosition(Point(5.0, 5.0, 5.0)) == [3.0, 3.0, 3.0]
  {
  }
}
