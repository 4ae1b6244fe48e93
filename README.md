# Arm imitator control thread, modelled in Dafny

The arm imitator drives the right arm of an iCub robot from a stream of human
palm poses. `ControlThread` is a periodic thread with a 500 ms period. At start-up it
reconfigures the cartesian controller: it disables the three torso joints and
caps the torso pitch at 30 degrees. On every tick it reads the robot palm pose
for diagnostics. It then polls the pose subscriber without blocking. When a
sample has arrived, it maps the sample's position to a robot palm target and
sends that target to the controller with a zero orientation.

The model has four modules:

- `Optional` (optional.dfy): the outcome of a non-blocking read.
- `HumanToRobot` (mapping.dfy): the position mapping. `MapPosition` follows the
  source's if/else chain test by test. `CascadeTarget` is a second, independent
  definition: an ordered table of (axis, side) cases, with a range test and a
  one-slot clamp for each, evaluated first match wins by `FirstMatch`. A lemma
  proves the two agree. The other lemmas give each branch's result and prove
  that the negative-x branch is dead.
- `Cartesian` (cartesian.dfy): a recording stand-in for the cartesian
  controller interface. Queries return its state. Each request is appended to
  a command log. `setLimits` and `setDOF` also update the limit table and the
  DOF vector.
- `ArmImitator` (control_thread.dfy): the class `ControlThread` with the
  source's fields (`cRot`, `cOrt`, `dRot`, `dOrt`, `jointPose`) and methods.
  It also holds a pure account of one tick (`Tick`) and of a run of ticks
  (`Ticks`). `Run` is proved against `Tick`. Lemmas about `Ticks` say what a
  sequence of ticks sends and leaves in `dRot`.

Positions, limits and the scale factor are `real`. The mapping uses only
comparisons and multiplication by constants, so no rounding behaviour
matters.

Points where the code and its design description disagree. The model follows
the code in each case:

- The second test of the cascade, `x >= x_limit_max && x < 0`, can never hold
  because `x_limit_max` is 0.40. The model keeps the test as written and proves
  the branch dead. Negative x is therefore never clamped. It reaches `dRot[1]`
  scaled, or it leads to a later y or z clamp.
- `threadInit` returns `-1` when the subscription fails. The return type is
  `bool`, so this becomes `true` and start-up goes on. `ThreadInit` returns
  `true` whatever the subscription outcome and records that outcome in
  `subscribed`.
- When the device driver is not valid, `threadInit` does not stop. It goes on
  to call the controller through `icart`, which was never set. `ThreadInit`
  models that path as continuing with the controller object. Only a valid
  driver that yields no cartesian interface makes it return `false`.
- The comments say the torso yaw and pitch are enabled. The code zeroes DOF
  entries 0, 1 and 2, which disables all three torso joints. The model
  follows the code.
- `threadRelease` is not guarded. Calling it twice sends a second stop request.

## Model

| member | source | states |
|---|---|---|
| HumanToRobot.FirstMatch | arm_imitator.cpp:125-169 | Returns the first case at or after `from` whose range test holds. Every earlier test fails. It returns none exactly when no test holds. |
| HumanToRobot.FirstMatchIsUnique | arm_imitator.cpp:125-169 | First match wins. Case i is chosen if and only if its test holds and every earlier test fails, so exactly one branch fires. |
| HumanToRobot.MapPositionFollowsCascade | arm_imitator.cpp:115-169 | The source's if/else chain equals the ordered-table mapping for every sample. A matching case clamps its own slot. If nothing matches, the sample passes through scaled and permuted to (z, x, y). |
| HumanToRobot.AtMostOneComponentClamped | arm_imitator.cpp:125-169 | At most one component of `dRot` differs from the scaled pass-through. Each component is either its scaled input or a scaled limit of its own axis. |
| HumanToRobot.PositiveXClampsX | arm_imitator.cpp:125-129 | For x in (0, 0.40], `dRot` is (0.6·z, 0.6·0.40, 0.6·y). |
| HumanToRobot.NegativeXCaseNeverFires | arm_imitator.cpp:116-135 | The test `x >= x_limit_max && x < 0` never holds. No sample selects the second case, so none is clamped to 0.6·x_limit_min through it. |
| HumanToRobot.XClampedOnlyWhenPositive | arm_imitator.cpp:125-169 | `dRot[1]` is 0.6·0.40 if x is in (0, 0.40]. Otherwise it is 0.6·x, for negative x too. |
| HumanToRobot.YClampsWhenXOutOfRange | arm_imitator.cpp:137-149 | If x is not in (0, 0.40], y in (0, 0.50] gives (0.6·z, 0.6·x, 0.6·0.50). y in [-0.50, 0) gives (0.6·z, 0.6·x, 0.6·(-0.50)). |
| HumanToRobot.ZClampsWhenXYOutOfRange | arm_imitator.cpp:151-163 | If x and y match no earlier test, z in (0, 0.40] gives `dRot[0]` = 0.6·0.40. z in [-0.40, 0) gives 0.6·(-0.40). In both cases `dRot[1]` is 0.6·x and `dRot[2]` is 0.6·y. |
| HumanToRobot.NoMatchPassesThrough | arm_imitator.cpp:165-169 | If no range test holds, `dRot` is (0.6·z, 0.6·x, 0.6·y), unclamped. |
| HumanToRobot.Examples | arm_imitator.cpp:115-169 | (0.20, 0.10, 0.05) maps to (0.03, 0.24, 0.06). The origin maps to (0, 0, 0). (5, 5, 5) maps to (3, 3, 3), unclamped. |
| ArmImitator.TorsoDisabled | arm_imitator.cpp:65-73 | The new DOF vector has the same length as the current one. Entries 0, 1 and 2 are 0, and every later entry is unchanged. |
| ArmImitator.TickSendsOneCommandPerSample | arm_imitator.cpp:123-182 | With no sample, a tick sends nothing and `dRot` keeps its value. With a sample, it sends exactly one go-to-pose: the mapped position with a zero orientation. |
| ArmImitator.TickIgnoresOrientation | arm_imitator.cpp:171-176 | The sample's orientation has no effect on what a tick sends or stores. |
| ArmImitator.TicksSendOneCommandPerSample | arm_imitator.cpp:107-182 | Over any run of ticks, the number of commands sent equals the number of samples received. The k-th command is the k-th sample's mapped position with a zero orientation. |
| ArmImitator.TicksHoldLatestTarget | arm_imitator.cpp:124-177 | After any run of ticks, `dRot` holds the latest sample's mapped position. If no sample arrived, it holds its starting value. |
| ArmImitator.SilentTicksSendNothing | arm_imitator.cpp:179-182 | Ticks that receive no sample send no command and leave `dRot` unchanged. |
| ArmImitator.ControlThread.constructor | arm_imitator.cpp:24-40 | A new thread uses the given controller. Its vectors are empty, no sample is held and no subscription is open. |
| ArmImitator.ControlThread.ThreadInit | arm_imitator.cpp:42-94 | Fails only for a valid driver without a cartesian interface, and then changes nothing. Otherwise it caps the pitch limit, turns tracking on, then sends the DOF vector with the torso disabled. It sizes `dRot` to 3 and `dOrt` to 4 and returns true, even if the subscription failed. |
| ArmImitator.ControlThread.LimitTorsoPitch | arm_imitator.cpp:191-204 | Axis 0's limits become (old minimum, 30). Every other axis and the DOF vector are unchanged. Exactly one set-limits request is logged. |
| ArmImitator.ControlThread.PrintICubPoseStatus | arm_imitator.cpp:206-211 | `cRot` and `cOrt` become the controller's current palm position and orientation. |
| ArmImitator.ControlThread.GetHumanJointPose | arm_imitator.cpp:213-224 | `jointPose` becomes the result of the non-blocking read. It is none when no sample has arrived. |
| ArmImitator.ControlThread.Run | arm_imitator.cpp:107-189 | One tick. It reads the palm pose, stores the poll, and zeroes all four entries of `dOrt`. `dRot` and the command log then change exactly as `Tick` says. The controller's configuration is unchanged. |
| ArmImitator.ControlThread.ThreadRelease | arm_imitator.cpp:96-105 | Closes the subscription and logs one stop request. Nothing else on the controller changes. |
| Cartesian.CartesianController.GetDof | arm_imitator.cpp:66 | Returns the controller's current DOF vector. |
| Cartesian.CartesianController.GetLimits | arm_imitator.cpp:202 | Returns the recorded (min, max) of the given axis. |
| Cartesian.CartesianController.SetLimitsOf | arm_imitator.cpp:203 | Replaces one axis's limits and logs the request. Every other axis is unchanged. |
| Cartesian.CartesianController.SetTrackingModeTo | arm_imitator.cpp:77 | Logs the tracking-mode request. It changes no configuration. |
| Cartesian.CartesianController.SetDofTo | arm_imitator.cpp:79 | Replaces the DOF vector and logs the request. |
| Cartesian.CartesianController.GoToPoseAsync | arm_imitator.cpp:176 | Logs one go-to-pose request. It does not wait for the motion. |
| Cartesian.CartesianController.GetPose | arm_imitator.cpp:207 | Returns the controller's current palm position and orientation. |
| Cartesian.CartesianController.Stop | arm_imitator.cpp:101 | Logs one stop request. |

## Left out

- YARP network bootstrap, `checkNetwork`, and the driver's open, view and close calls (arm_imitator.cpp:47-61, 102, 230-236). These are transport plumbing. `ThreadInit` takes their outcomes as the parameters `deviceValid` and `viewOk`.
- ROS node creation, topic opening and closing. The outcome of the topic open is the parameter `subscribeOk`. The non-blocking read is the parameter `poll` of `Run` and `GetHumanJointPose`.
- The `RateThread` schedule, `start`/`stop` and the busy-wait in `main`. They concern timing and threads. A run of ticks is modelled only as the pure fold `Ticks`.
- The cartesian controller's internals: kinematics, trajectories, and its own checks on requested limits or DOF. `CartesianController` only records requests, and it applies `setLimits` and `setDOF` as given. The second argument of `setDOF`, where the controller writes back the DOF it applied, is not modelled.
- Console output (`printf`, `cout`). It is diagnostic only.
- IEEE double rounding. Positions, limits and the scale factor are `real`.
- ArmImitator.ControlThread.ThreadInit: does not state the contents of `dRot` and `dOrt` after they are resized. Only their lengths, 3 and 4, are stated, because the resize contents depend on the vector library.
- ArmImitator.ControlThread.ThreadInit: the source's use of an unset `icart` when the driver is invalid is undefined behaviour. The model continues with the controller object instead.
