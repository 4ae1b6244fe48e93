/**
  A recording stand-in for the cartesian controller client (ICartesianControl).

  The controller's own kinematics, trajectory generation and checks are not
  modelled: queries return the state held here, and every request the
  control thread issues is appended to a command log. The configuration
  requests also update the DOF vector and the limit table they address.
*/
module Cartesian {

  /** The (min, max) limits of one degree of freedom. */
  datatype Limits = Limits(min: real, max: real)

  datatype Command =
    | GoToPose(position: seq<real>, orientation: seq<real>)
    | SetLimits(axis: nat, min: real, max: real)
    | SetTrackingMode(on: bool)
    | SetDof(dof: seq<real>)
    | StopControl

  class CartesianController {
    /** The DOF vector: 1 for an enabled joint, 0 for a disabled one. */
    var dof: seq<real>
    var limits: seq<Limits>
    /** The current end-effector pose, as getPose reports it. */
    var position: seq<real>
    var orientation: seq<real>
    /** Every request issued to the controller, oldest first. */
    var log: seq<Command>

    /** The chain starts with the three torso joints, and each DOF has limits. */
    ghost predicate Valid()
      reads this
    {
      |dof| >= 3 && |limits| == |dof|
    }

    constructor (dof: seq<real>, limits: seq<Limits>, position: seq<real>, orientation: seq<real>)
      requires |dof| >= 3 && |limits| == |dof|
      ensures Valid()
      ensures this.dof == dof && this.limits == limits
      ensures this.position == position && this.orientation == orientation
      ensures log == []
    {
      this.dof := dof;
      this.limits := limits;
      this.position := position;
      this.orientation := orientation;
      log := [];
    }

    method GetDof() returns (d: seq<real>)
      ensures d == dof
    {
      d := dof;
    }

    method GetLimits(axis: nat) returns (min: real, max: real)
      requires axis < |limits|
      ensures Limits(min, max) == limits[axis]
    {
      min, max := limits[axis].min, limits[axis].max;
    }

    method GetPose() returns (p: seq<real>, o: seq<real>)
      ensures p == position && o == orientation
    {
      p, o := position, orientation;
    }

    method SetLimitsOf(axis: nat, min: real, max: real)
      requires Valid() && axis < |limits|
      modifies this
      ensures Valid()
      ensures limits == old(limits)[axis := Limits(min, max)]
      ensures log == old(log) + [SetLimits(axis, min, max)]
      ensures dof == old(dof) && position == old(position) && orientation == old(orientation)
    {
      limits := limits[axis := Limits(min, max)];
      log := log + [SetLimits(axis, min, max)];
    }

    method SetTrackingModeTo(on: bool)
      modifies this
      ensures log == old(log) + [SetTrackingMode(on)]
      ensures dof == old(dof) && limits == old(limits)
      ensures position == old(position) && orientation == old(orientation)
    {
      log := log + [SetTrackingMode(on)];
    }

    method SetDofTo(newDof: seq<real>)
      requires Valid() && |newDof| == |dof|
      modifies this
      ensures Valid()
      ensures dof == newDof
      ensures log == old(log) + [SetDof(newDof)]
      ensures limits == old(limits) && position == old(position) && orientation == old(orientation)
    {
      dof := newDof;
      log := log + [SetDof(newDof)];
    }

    method GoToPoseAsync(p: seq<real>, o: seq<real>)
      modifies this
      ensures log == old(log) + [GoToPose(p, o)]
      ensures dof == old(dof) && limits == old(limits)
      ensures position == old(position) && orientation == old(orientation)
    {
      log := log + [GoToPose(p, o)];
    }

    method Stop()
      modifies this
      ensures log == old(log) + [StopControl]
      ensures dof == old(dof) && limits == old(limits)
      ensures position == old(position) && orientation == old(orientation)
    {
      log := log + [StopControl];
    }
  }
}
