/**
  ControlThread of the arm imitator: a periodic thread that, on every tick,
  reads the robot palm pose for diagnostics, polls the human joint pose
  stream without blocking and, when a sample has arrived, maps it to a robot
  palm position and sends it to the cartesian controller with a zero
  orientation.
*/
module ArmImitator {

  import opened Optional
  import opened HumanToRobot
  import opened Cartesian

  /** The torso pitch may not lean forward past this many degrees. */
  const MaxTorsoPitch: int := 30

  /** The axis of the torso pitch joint. */
  const PitchAxis: nat := 0

  /** The orientation sent with every target: all four components zero. */
  const ZeroOrientation: seq<real> := [0.0, 0.0, 0.0, 0.0]

  /** The DOF vector with the three torso joints disabled and the arm joints as they were. */
  function TorsoDisabled(dof: seq<real>): (r: seq<real>)
    requires |dof| >= 3
    ensures |r| == |dof|
    ensures forall i :: 0 <= i < 3 ==> r[i] == 0.0
    ensures forall i :: 3 <= i < |dof| ==> r[i] == dof[i]
  {
    dof[0 := 0.0][1 := 0.0][2 := 0.0]
  }

  // ---------------------------------------------------------------------
  // One tick, and a run of ticks, as values
  // ---------------------------------------------------------------------

  /** What one tick leaves in dRot and the commands it sends. */
  datatype TickResult = TickResult(dRot: seq<real>, issued: seq<Command>)

  function Tick(dRot: seq<real>, poll: Option<PoseSample>): TickResult
  {
    match poll
    case None => TickResult(dRot, [])
    case Some(s) =>
      var target := MapPosition(s.position);
      TickResult(target, [GoToPose(target, ZeroOrientation)])
  }

  /** Ticks in order, each starting from the dRot the previous one left. */
  function Ticks(dRot: seq<real>, polls: seq<Option<PoseSample>>): TickResult
    decreases |polls|
  {
    if polls == [] then TickResult(dRot, [])
    else
      var first := Tick(dRot, polls[0]);
      var rest := Ticks(first.dRot, polls[1..]);
      TickResult(rest.dRot, first.issued + rest.issued)
  }

  /** The samples the polls delivered, in arrival order. */
  function Samples(polls: seq<Option<PoseSample>>): seq<PoseSample>
    decreases |polls|
  {
    if polls == [] then []
    else (if polls[0].Some? then [polls[0].value] else []) + Samples(polls[1..])
  }

  /** A tick with no sample sends nothing and leaves dRot alone; a tick with a
      sample sends exactly one command, the mapped position with a zero
      orientation, and leaves that position in dRot. */
  lemma TickSendsOneCommandPerSample(dRot: seq<real>, poll: Option<PoseSample>)
    ensures poll.None? ==> Tick(dRot, poll) == TickResult(dRot, [])
    ensures poll.Some? ==>
              Tick(dRot, poll).dRot == MapPosition(poll.value.position) &&
              Tick(dRot, poll).issued == [GoToPose(MapPosition(poll.value.position), ZeroOrientation)]
  {
  }

  /** The sample's orientation has no effect on a tick. */
  lemma TickIgnoresOrientation(dRot: seq<real>, s: PoseSample, q: Quaternion)
    ensures Tick(dRot, Some(s)) == Tick(dRot, Some(s.(orientation := q)))
  {
  }

  /** Over any run of ticks, the k-th command sent is the mapping of the k-th
      sample received, and nothing else is sent. */
  lemma {:induction false} TicksSendOneCommandPerSample(dRot: seq<real>, polls: seq<Option<PoseSample>>)
    ensures |Ticks(dRot, polls).issued| == |Samples(polls)|
    ensures forall k :: 0 <= k < |Samples(polls)| ==>
              Ticks(dRot, polls).issued[k] == GoToPose(MapPosition(Samples(polls)[k].position), ZeroOrientation)
    decreases |polls|
  {
    if polls != [] {
      var first := Tick(dRot, polls[0]);
      TicksSendOneCommandPerSample(first.dRot, polls[1..]);
    }
  }

  /** After any run of ticks, dRot holds the mapping of the latest sample, or
      its starting value when no sample arrived. */
  lemma {:induction false} TicksHoldLatestTarget(dRot: seq<real>, polls: seq<Option<PoseSample>>)
    ensures Ticks(dRot, polls).dRot ==
              if Samples(polls) == [] then dRot
              else MapPosition(Samples(polls)[|Samples(polls)| - 1].position)
    decreases |polls|
  {
    if polls != [] {
      var first := Tick(dRot, polls[0]);
      TicksHoldLatestTarget(first.dRot, polls[1..]);
    }
  }

  /** Ticks without a sample never command the arm. */
  lemma {:induction false} SilentTicksSendNothing(dRot: seq<real>, polls: seq<Option<PoseSample>>)
    requires forall k :: 0 <= k < |polls| ==> polls[k].None?
    ensures Ticks(dRot, polls) == TickResult(dRot, [])
    decreases |polls|
  {
    if polls != [] {
      SilentTicksSendNothing(dRot, polls[1..]);
    }
  }

  // ---------------------------------------------------------------------
  // The thread object
  // ---------------------------------------------------------------------

  class ControlThread {
    const icart: CartesianController
    /** Current robot palm position and orientation (diagnostic). */
    var cRot: seq<real>
    var cOrt: seq<real>
    /** Desired robot palm position and orientation. */
    var dRot: array<real>
    var dOrt: array<real>
    /** The outcome of the latest poll of the human joint pose stream. */
    var jointPose: Option<PoseSample>
    var subscribed: bool

    /** Set up by ThreadInit: dRot and dOrt sized, the controller usable. */
    ghost predicate Ready()
      reads this, icart
    {
      dRot.Length == 3 && dOrt.Length == 4 && icart.Valid()
    }

    constructor (device: CartesianController)
      ensures icart == device
      ensures dRot.Length == 0 && dOrt.Length == 0
      ensures cRot == [] && cOrt == [] && jointPose == None && !subscribed
    {
      icart := device;
      cRot, cOrt := [], [];
      dRot := new real[0];
      dOrt := new real[0];
      jointPose := None;
      subscribed := false;
    }

    /** Reconfigures the controller and sizes the target vectors. Only a valid
        device without a cartesian interface fails; an invalid device goes on
        to use the controller, and a failed subscription still reports success. */
    method ThreadInit(deviceValid: bool, viewOk: bool, subscribeOk: bool) returns (ok: bool)
      requires icart.Valid()
      modifies this, icart
      ensures ok == (!deviceValid || viewOk)
      ensures !ok ==> unchanged(this) && unchanged(icart)
      ensures ok ==> Ready() && fresh(dRot) && fresh(dOrt)
      ensures ok ==> subscribed == subscribeOk
      ensures ok ==> cRot == old(cRot) && cOrt == old(cOrt) && jointPose == old(jointPose)
      ensures ok ==> icart.dof == TorsoDisabled(old(icart.dof))
      ensures ok ==> (icart.limits ==
                old(icart.limits)[PitchAxis := Limits(old(icart.limits[PitchAxis].min), MaxTorsoPitch as real)])
      ensures ok ==> (icart.log == old(icart.log) + [
                SetLimits(PitchAxis, old(icart.limits[PitchAxis].min), MaxTorsoPitch as real),
                SetTrackingMode(true),
                SetDof(TorsoDisabled(old(icart.dof)))])
      ensures icart.position == old(icart.position) && icart.orientation == old(icart.orientation)
    {
      if deviceValid && !viewOk {
        return false;
      }

      var curDof := icart.GetDof();
      var newDof := new real[|curDof|](i requires 0 <= i < |curDof| => curDof[i]);
      newDof[0] := 0.0;
      newDof[1] := 0.0;
      newDof[2] := 0.0;
      assert newDof[..] == TorsoDisabled(curDof);

      LimitTorsoPitch();
      icart.SetTrackingModeTo(true);
      icart.SetDofTo(newDof[..]);

      dRot := new real[3];
      dOrt := new real[4];

      subscribed := subscribeOk;
      ok := true;
    }

    /** Keeps the pitch axis's lower limit and caps its upper limit. */
    method LimitTorsoPitch()
      requires icart.Valid()
      modifies icart
      ensures icart.Valid()
      ensures icart.limits ==
                old(icart.limits)[PitchAxis := Limits(old(icart.limits[PitchAxis].min), MaxTorsoPitch as real)]
      ensures forall a :: 0 <= a < |icart.limits| && a != PitchAxis ==> icart.limits[a] == old(icart.limits[a])
      ensures icart.log == old(icart.log) + [SetLimits(PitchAxis, old(icart.limits[PitchAxis].min), MaxTorsoPitch as real)]
      ensures icart.dof == old(icart.dof)
      ensures icart.position == old(icart.position) && icart.orientation == old(icart.orientation)
    {
      var min, max := icart.GetLimits(PitchAxis);
      icart.SetLimitsOf(PitchAxis, min, MaxTorsoPitch as real);
    }

    /** Stores the current robot palm pose. */
    method PrintICubPoseStatus()
      modifies this`cRot, this`cOrt
      ensures cRot == icart.position && cOrt == icart.orientation
    {
      cRot, cOrt := icart.GetPose();
    }

    /** Stores the outcome of a non-blocking read: None when no sample has arrived. */
    method GetHumanJointPose(poll: Option<PoseSample>)
      modifies this`jointPose
      ensures jointPose == poll
    {
      jointPose := poll;
    }

    /** One tick of the thread. */
    method Run(poll: Option<PoseSample>)
      requires Ready()
      modifies this`cRot, this`cOrt, this`jointPose, dRot, dOrt, icart
      ensures Ready()
      ensures cRot == old(icart.position) && cOrt == old(icart.orientation)
      ensures jointPose == poll
      ensures dOrt[..] == ZeroOrientation
      ensures dRot[..] == Tick(old(dRot[..]), poll).dRot
      ensures icart.log == old(icart.log) + Tick(old(dRot[..]), poll).issued
      ensures icart.dof == old(icart.dof) && icart.limits == old(icart.limits)
      ensures icart.position == old(icart.position) && icart.orientation == old(icart.orientation)
    {
      PrintICubPoseStatus();
      GetHumanJointPose(poll);

      forall i | 0 <= i < dOrt.Length {
        dOrt[i] := 0.0;
      }
      if jointPose.Some? {
        var target := MapPosition(jointPose.value.position);
        dRot[0], dRot[1], dRot[2] := target[0], target[1], target[2];
        icart.GoToPoseAsync(dRot[..], dOrt[..]);
      }
    }

    /** Closes the subscription and stops the controller. */
    method ThreadRelease()
      modifies this`subscribed, icart
      ensures !subscribed
      ensures icart.log == old(icart.log) + [StopControl]
      ensures icart.dof == old(icart.dof) && icart.limits == old(icart.limits)
      ensures icart.position == old(icart.position) && icart.orientation == old(icart.orientation)
    {
      subscribed := false;
      icart.Stop();
    }
  }
}
