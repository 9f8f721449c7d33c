/**
 * The per-tick race logic of the driving game's GameView, on values.
 *
 * A `State` holds every field of the game view that the tick logic reads or
 * writes. Each step of the game loop (speed controller, zone check, steering,
 * wheel-effect activation, key handling, one whole frame) is a function from
 * the old state to the new one; the class in module Game is proved to follow
 * these functions, and the lemmas below state what the game promises of them.
 */
module RaceLogic {

  // Tuning constants; speeds are in pixels per tick of a 60 Hz reference rate.
  const PlayerMaxSpeed: real := 10.0
  const PlayerMinSpeed: real := 2.0
  const PlayerBurst: real := 0.3
  const PlayerDeceleration: real := 0.2
  const PlayerRotationSpeed: int := 5
  const SlowRoadFactor: real := 0.4

  /** Below this distance the current speed snaps onto the target speed. */
  const SnapTolerance: real := 0.1
  /** At or below this speed magnitude the car is not displaced at all. */
  const DeadZone: real := 0.1
  /** The tick rate the acceleration constants are tuned for. */
  const ReferenceRate: real := 60.0

  /** Particles each wheel emitter keeps alive. */
  const TrailMaintain: nat := 20
  /** Local offsets of the two rear wheels. */
  const WheelOffsets: seq<(int, int)> := [(25, -15), (-25, -15)]

  datatype Difficulty = Easy | Hard

  function MaxSpeedFor(d: Difficulty): real
  {
    match d
    case Easy => PlayerMaxSpeed * 0.8
    case Hard => PlayerMaxSpeed * 0.8
  }

  function BurstFor(d: Difficulty): real
  {
    match d
    case Easy => PlayerBurst * 0.7
    case Hard => PlayerBurst * 0.7
  }

  function MapFileFor(d: Difficulty): string
  {
    match d
    case Easy => "racefirst.tmx"
    case Hard => "racesec.tmx"
  }

  /** Both difficulties drive alike; they differ only by track. */
  lemma DifficultiesShareSpeeds(d: Difficulty)
    ensures MaxSpeedFor(d) == 8.0 && BurstFor(d) == 0.21
    ensures MapFileFor(Easy) != MapFileFor(Hard)
  {
  }

  /** What the game view fixes when it is created: speed parameters and which
      optional zone layers the loaded map has (a layer counts when it is non-empty). */
  datatype Config = Config(maxSpeed: real, burst: real, hasSlowRoad: bool, hasFinish: bool)

  function ConfigFor(d: Difficulty, hasSlowRoad: bool, hasFinish: bool): Config
  {
    Config(MaxSpeedFor(d), BurstFor(d), hasSlowRoad, hasFinish)
  }

  /** The four key-held flags. */
  datatype Inputs = Inputs(forward: bool, backward: bool, left: bool, right: bool)

  const NoInput := Inputs(false, false, false, false)

  /** A wheel-trail emitter: the wheel offset it is attached at and its particle count. */
  datatype Emitter = Emitter(offsetX: int, offsetY: int, maintain: nat)

  /** The fields of the game view that the tick logic reads and writes. `angle`
      is the sprite's heading, which only the physics engine changes. */
  datatype State = State(
    currentSpeed: real,
    targetSpeed: real,
    onSlowRoad: bool,
    finished: bool,
    raceTime: real,
    raceStartTime: real,
    isMoving: bool,
    emitters: seq<Emitter>,
    input: Inputs,
    angle: real,
    changeAngle: int,
    changeX: real,
    changeY: real)

  /** The state right after construction and setup at clock reading `now`. */
  function InitialState(spawnAngle: real, now: real): (r: State)
    ensures !r.finished && !r.isMoving && r.emitters == [] && r.input == NoInput && !r.onSlowRoad
    ensures r.targetSpeed == 0.0
    ensures r.currentSpeed == 0.0 && r.raceTime == 0.0 && r.raceStartTime == now && r.angle == spawnAngle
  {
    State(0.0, 0.0, false, false, 0.0, now, false, [], NoInput, spawnAngle, 0, 0.0, 0.0)
  }

  function Abs(x: real): real { if x < 0.0 then -x else x }

  function Min(a: real, b: real): real { if a <= b then a else b }

  function Max(a: real, b: real): real { if a >= b then a else b }

  /** x lies on the closed segment between a and b. */
  predicate Between(x: real, a: real, b: real)
  {
    Min(a, b) <= x <= Max(a, b)
  }

  // ---------------------------------------------------------------------------
  // Speed controller
  // ---------------------------------------------------------------------------

  /** The target speed the held keys ask for; forward wins over backward. */
  function SelectTarget(forward: bool, backward: bool, maxSpeed: real): (r: real)
    ensures maxSpeed > 0.0 ==> (r > 0.0 <==> forward) && (r < 0.0 <==> !forward && backward)
    ensures Abs(r) <= Abs(maxSpeed)
  {
    if forward then maxSpeed
    else if backward then -maxSpeed * 0.5
    else 0.0
  }

  lemma TargetSelection(forward: bool, backward: bool, maxSpeed: real)
    ensures forward ==> SelectTarget(forward, backward, maxSpeed) == maxSpeed
    ensures !forward && backward ==> SelectTarget(forward, backward, maxSpeed) == -maxSpeed * 0.5
    ensures !forward && !backward ==> SelectTarget(forward, backward, maxSpeed) == 0.0
  {
  }

  /** On slow road a target above the reduced maximum is lowered to it. */
  function CapOnSlowRoad(target: real, onSlowRoad: bool, maxSpeed: real): (r: real)
    ensures r <= target
    ensures onSlowRoad ==> r <= maxSpeed * SlowRoadFactor
    ensures r == target || r == maxSpeed * SlowRoadFactor
    ensures !onSlowRoad || target <= maxSpeed * SlowRoadFactor ==> r == target
  {
    if onSlowRoad && target > maxSpeed * SlowRoadFactor then maxSpeed * SlowRoadFactor else target
  }

  /** The speed change one tick of length dt allows: the burst rate when
      speeding up, the deceleration rate when slowing down. */
  function EaseStep(current: real, target: real, dt: real, burst: real): real
  {
    if target > current then burst * dt * ReferenceRate else PlayerDeceleration * dt * ReferenceRate
  }

  /** Moves the current speed toward the target by at most one step, never past it. */
  function Ease(current: real, target: real, dt: real, burst: real): (r: real)
    ensures Abs(target - current) < SnapTolerance ==> r == target
    ensures dt >= 0.0 && burst >= 0.0 ==> Between(r, current, target)
    ensures dt >= 0.0 && burst >= 0.0 && Abs(target - current) >= SnapTolerance ==>
      Abs(target - r) == Max(0.0, Abs(target - current) - EaseStep(current, target, dt, burst))
  {
    if Abs(target - current) < SnapTolerance then target
    else if target > current then
      var up := current + burst * dt * ReferenceRate;
      if up > target then target else up
    else if target < current then
      var down := current - PlayerDeceleration * dt * ReferenceRate;
      if down < target then target else down
    else current
  }

  /** While a non-zero target is asked for, a speed below the minimum jumps to
      the minimum, with the sign of the target. */
  function ApplyMinSpeed(current: real, target: real): (r: real)
    ensures target != 0.0 ==> Abs(r) >= PlayerMinSpeed
    ensures target == 0.0 || Abs(current) >= PlayerMinSpeed ==> r == current
    ensures r != current ==>
      Abs(current) < PlayerMinSpeed && r == (if target > 0.0 then PlayerMinSpeed else -PlayerMinSpeed)
  {
    if Abs(current) < PlayerMinSpeed && target != 0.0 then
      PlayerMinSpeed * (if target > 0.0 then 1.0 else -1.0)
    else current
  }

  /** The target speed of state s: held keys, capped on slow road. */
  function TargetOf(s: State, c: Config): real
  {
    CapOnSlowRoad(SelectTarget(s.input.forward, s.input.backward, c.maxSpeed), s.onSlowRoad, c.maxSpeed)
  }

  /** One call of the speed controller. */
  function SpeedUpdate(s: State, c: Config, dt: real): (r: State)
    ensures s.finished ==> r == s
    ensures r == s.(targetSpeed := r.targetSpeed, currentSpeed := r.currentSpeed)
    ensures !s.finished ==> r.targetSpeed == TargetOf(s, c)
  {
    if s.finished then s
    else
      var target := TargetOf(s, c);
      s.(targetSpeed := target, currentSpeed := ApplyMinSpeed(Ease(s.currentSpeed, target, dt, c.burst), target))
  }

  /** The speed controller sets exactly the two speeds. */
  lemma SpeedUpdateSets(s: State, c: Config, dt: real, target: real, current: real)
    requires !s.finished
    requires target == CapOnSlowRoad(SelectTarget(s.input.forward, s.input.backward, c.maxSpeed), s.onSlowRoad, c.maxSpeed)
    requires current == ApplyMinSpeed(Ease(s.currentSpeed, target, dt, c.burst), target)
    ensures SpeedUpdate(s, c, dt) == s.(targetSpeed := target, currentSpeed := current)
  {
  }

  /** Every target the controller picks is zero or at least the minimum speed in
      magnitude, once the maximum speed is at least 5 (it is 8). */
  lemma TargetMagnitude(s: State, c: Config)
    requires c.maxSpeed >= 5.0
    ensures TargetOf(s, c) == 0.0 || Abs(TargetOf(s, c)) >= PlayerMinSpeed
  {
  }

  /** Slow road lowers a forward target to 40% of the maximum and leaves a
      reverse or zero target alone. */
  lemma SlowRoadCap(s: State, c: Config, dt: real)
    requires !s.finished && s.onSlowRoad && c.maxSpeed >= 0.0
    ensures s.input.forward ==> SpeedUpdate(s, c, dt).targetSpeed == c.maxSpeed * SlowRoadFactor
    ensures !s.input.forward ==>
      SpeedUpdate(s, c, dt).targetSpeed == SelectTarget(false, s.input.backward, c.maxSpeed)
  {
  }

  /** After a speed update, a non-zero target means at least the minimum speed. */
  lemma MinSpeedAfterUpdate(s: State, c: Config, dt: real)
    requires !s.finished
    ensures var r := SpeedUpdate(s, c, dt); r.targetSpeed != 0.0 ==> Abs(r.currentSpeed) >= PlayerMinSpeed
  {
  }

  /** The new speed lies between the old speed and the target: the controller
      approaches its target and never overshoots it, the minimum-speed floor included. */
  lemma SpeedApproachesTarget(s: State, c: Config, dt: real)
    requires !s.finished && dt >= 0.0 && c.burst >= 0.0 && c.maxSpeed >= 5.0
    ensures var r := SpeedUpdate(s, c, dt); Between(r.currentSpeed, s.currentSpeed, r.targetSpeed)
  {
    TargetMagnitude(s, c);
  }

  /** The gap to the target closes by the smaller of the two rates each tick. */
  function ClosingRate(c: Config, dt: real): real
  {
    Min(c.burst, PlayerDeceleration) * dt * ReferenceRate
  }

  /** The closing rate is no larger than either easing step. */
  lemma ClosingRateBounds(c: Config, dt: real, current: real, target: real)
    requires dt >= 0.0 && c.burst >= 0.0
    ensures 0.0 <= ClosingRate(c, dt) <= EaseStep(current, target, dt, c.burst)
  {
    var m := Min(c.burst, PlayerDeceleration);
    assert m * dt >= 0.0;
    assert m * dt <= c.burst * dt;
    assert m * dt <= PlayerDeceleration * dt;
  }

  /** The minimum-speed floor only moves the speed toward a target of at least
      the minimum magnitude. */
  lemma FloorKeepsGap(e: real, target: real)
    requires target == 0.0 || Abs(target) >= PlayerMinSpeed
    ensures Abs(target - ApplyMinSpeed(e, target)) <= Abs(target - e)
  {
  }

  /** One tick shrinks the gap to the target by at least the closing rate. */
  lemma {:induction false} SpeedStepCloses(s: State, c: Config, dt: real)
    requires !s.finished && dt >= 0.0 && c.burst >= 0.0 && c.maxSpeed >= 5.0
    ensures var r := SpeedUpdate(s, c, dt);
      && !r.finished && r.targetSpeed == TargetOf(s, c) && TargetOf(r, c) == TargetOf(s, c)
      && Gap(r, c) <= Max(0.0, Gap(s, c) - ClosingRate(c, dt))
  {
    var t := TargetOf(s, c);
    var e := Ease(s.currentSpeed, t, dt, c.burst);
    TargetMagnitude(s, c);
    ClosingRateBounds(c, dt, s.currentSpeed, t);
    FloorKeepsGap(e, t);
    assert Abs(t - e) <= Max(0.0, Abs(t - s.currentSpeed) - ClosingRate(c, dt));
  }

  /** The speed controller applied n times with the same keys, zone flag and dt. */
  function SpeedAfter(s: State, c: Config, dt: real, n: nat): State
  {
    if n == 0 then s else SpeedUpdate(SpeedAfter(s, c, dt, n - 1), c, dt)
  }

  /** The distance from the speed of s to its target. */
  function Gap(s: State, c: Config): real
  {
    Abs(TargetOf(s, c) - s.currentSpeed)
  }

  /** How much gap n ticks are guaranteed to close. */
  function Budget(c: Config, dt: real, n: nat): real
  {
    if n == 0 then 0.0 else Budget(c, dt, n - 1) + ClosingRate(c, dt)
  }

  lemma {:induction false} BudgetIsLinear(c: Config, dt: real, n: nat)
    ensures Budget(c, dt, n) == n as real * ClosingRate(c, dt)
  {
    if n > 0 {
      BudgetIsLinear(c, dt, n - 1);
      assert (n - 1) as real * ClosingRate(c, dt) + ClosingRate(c, dt) == n as real * ClosingRate(c, dt);
    }
  }

  /** Holding the same keys, the gap to the target shrinks by at least the
      closing rate every tick until it is gone. */
  lemma {:induction false} SpeedConverges(s: State, c: Config, dt: real, n: nat)
    requires !s.finished && dt >= 0.0 && c.burst >= 0.0 && c.maxSpeed >= 5.0
    ensures var r := SpeedAfter(s, c, dt, n);
      && !r.finished && TargetOf(r, c) == TargetOf(s, c)
      && Gap(r, c) <= Max(0.0, Gap(s, c) - Budget(c, dt, n))
  {
    if n > 0 {
      SpeedConverges(s, c, dt, n - 1);
      var q := SpeedAfter(s, c, dt, n - 1);
      SpeedStepCloses(q, c, dt);
      ClosingRateBounds(c, dt, q.currentSpeed, TargetOf(q, c));
      GapChain(Gap(s, c), Gap(q, c), Gap(SpeedUpdate(q, c, dt), c), ClosingRate(c, dt), Budget(c, dt, n - 1));
    }
  }

  /** Enough ticks close the whole gap: after n ticks with n * rate at least the
      initial gap, the speed equals its target. */
  lemma SpeedReachesTarget(s: State, c: Config, dt: real, n: nat)
    requires !s.finished && dt >= 0.0 && c.burst >= 0.0 && c.maxSpeed >= 5.0
    requires n as real * ClosingRate(c, dt) >= Gap(s, c)
    ensures SpeedAfter(s, c, dt, n).currentSpeed == TargetOf(s, c)
  {
    SpeedConverges(s, c, dt, n);
    BudgetIsLinear(c, dt, n);
  }

  /** If one gap is within k of the start gap and the next is within one more
      rate of it, the next is within k + rate. */
  lemma GapChain(start: real, gap: real, next: real, rate: real, k: real)
    requires rate >= 0.0
    requires gap <= Max(0.0, start - k)
    requires next <= Max(0.0, gap - rate)
    ensures next <= Max(0.0, start - (k + rate))
  {
  }

  /** Once the speed equals its target the controller leaves it there. */
  lemma TargetIsFixedPoint(s: State, c: Config, dt: real)
    requires !s.finished && c.maxSpeed >= 5.0 && s.currentSpeed == TargetOf(s, c)
    ensures SpeedUpdate(s, c, dt).currentSpeed == s.currentSpeed
  {
    TargetMagnitude(s, c);
  }

  /** A speed within the maximum stays within it. */
  lemma SpeedStaysBounded(s: State, c: Config, dt: real)
    requires !s.finished && dt >= 0.0 && c.burst >= 0.0 && c.maxSpeed >= 5.0
    requires Abs(s.currentSpeed) <= c.maxSpeed
    ensures Abs(SpeedUpdate(s, c, dt).currentSpeed) <= c.maxSpeed
  {
    SpeedApproachesTarget(s, c, dt);
  }

  /** From rest, pressing forward for one 60 Hz tick: 0 eases to 0.21, which the
      floor lifts to 2.0. */
  lemma StartFromRest(s: State, d: Difficulty, hasSlowRoad: bool, hasFinish: bool)
    requires !s.finished && !s.onSlowRoad && s.currentSpeed == 0.0 && s.input.forward
    ensures var r := SpeedUpdate(s, ConfigFor(d, hasSlowRoad, hasFinish), 1.0 / 60.0);
      r.targetSpeed == 8.0 && r.currentSpeed == 2.0
  {
    assert Ease(0.0, 8.0, 1.0 / 60.0, 0.21) == 0.21;
  }

  /** On slow road, forward asks for 3.2. */
  lemma SlowRoadScenario(s: State, d: Difficulty, hasSlowRoad: bool, hasFinish: bool, dt: real)
    requires !s.finished && s.onSlowRoad && s.input.forward
    ensures SpeedUpdate(s, ConfigFor(d, hasSlowRoad, hasFinish), dt).targetSpeed == 3.2
  {
  }

  // ---------------------------------------------------------------------------
  // Zone check and race state
  // ---------------------------------------------------------------------------

  /** The finish fires on this check: the race is running, the map has a finish
      layer and the car overlaps one of its tiles. */
  predicate FinishFires(s: State, c: Config, finishHit: bool)
  {
    !s.finished && c.hasFinish && finishHit
  }

  /** One zone check. The overlap queries of the two layers are the inputs
      slowHit and finishHit; now is the clock reading taken when the finish fires. */
  function ZoneCheck(s: State, c: Config, now: real, slowHit: bool, finishHit: bool): (r: State)
    ensures s.finished ==> r == s
    ensures r == s.(onSlowRoad := r.onSlowRoad, finished := r.finished, raceTime := r.raceTime)
    ensures s.finished ==> r.finished
  {
    if s.finished then s
    else
      var s1 := s.(onSlowRoad := c.hasSlowRoad && slowHit);
      if c.hasFinish && !s1.finished && finishHit then
        s1.(finished := true, raceTime := now - s1.raceStartTime)
      else s1
  }

  /** Each check recomputes the slow-road flag from scratch and changes nothing
      but the flag, the finished state and the race time. */
  lemma ZoneFlagRecomputed(s: State, c: Config, now: real, slowHit: bool, finishHit: bool)
    requires !s.finished
    ensures var r := ZoneCheck(s, c, now, slowHit, finishHit);
      && (r.onSlowRoad <==> c.hasSlowRoad && slowHit)
      && r == s.(onSlowRoad := r.onSlowRoad, finished := r.finished, raceTime := r.raceTime)
  {
  }

  /** The finish fires exactly when FinishFires says, and then captures the
      elapsed time once; otherwise the race state is untouched. */
  lemma FinishCapturesTime(s: State, c: Config, now: real, slowHit: bool, finishHit: bool)
    ensures var r := ZoneCheck(s, c, now, slowHit, finishHit);
      && (r.finished <==> s.finished || FinishFires(s, c, finishHit))
      && (FinishFires(s, c, finishHit) ==> r.raceTime == now - s.raceStartTime)
      && (!FinishFires(s, c, finishHit) ==> r.raceTime == s.raceTime)
  {
  }

  // ---------------------------------------------------------------------------
  // Steering and dead-zone
  // ---------------------------------------------------------------------------

  /** Rotation per tick: left wins when both turn keys are held. */
  function ChangeAngleFor(left: bool, right: bool): (r: int)
    ensures r == -PlayerRotationSpeed || r == 0 || r == PlayerRotationSpeed
  {
    if left then -PlayerRotationSpeed else if right then PlayerRotationSpeed else 0
  }

  lemma SteeringSign(left: bool, right: bool)
    ensures ChangeAngleFor(left, right) < 0 <==> left
    ensures ChangeAngleFor(left, right) > 0 <==> !left && right
    ensures ChangeAngleFor(left, right) == 0 <==> !left && !right
  {
  }

  /** Sets the rotation and the displacement the physics engine will apply.
      sinDeg and cosDeg stand for sine and cosine of an angle given in degrees. */
  function Steer(s: State, sinDeg: real -> real, cosDeg: real -> real): (r: State)
    ensures r == s.(changeAngle := r.changeAngle, changeX := r.changeX, changeY := r.changeY)
    ensures r.changeAngle == ChangeAngleFor(s.input.left, s.input.right)
    ensures Abs(s.currentSpeed) > DeadZone ==>
      (r.changeX == 0.0 <==> sinDeg(s.angle) == 0.0) && (r.changeY == 0.0 <==> cosDeg(s.angle) == 0.0)
  {
    var angle := ChangeAngleFor(s.input.left, s.input.right);
    if Abs(s.currentSpeed) > DeadZone then
      s.(changeAngle := angle, changeX := sinDeg(s.angle) * s.currentSpeed, changeY := cosDeg(s.angle) * s.currentSpeed)
    else
      s.(changeAngle := angle, changeX := 0.0, changeY := 0.0)
  }

  /** In the dead-zone the displacement is exactly zero, whatever the heading. */
  lemma DeadZoneStill(s: State, sinDeg: real -> real, cosDeg: real -> real)
    requires Abs(s.currentSpeed) <= DeadZone
    ensures Steer(s, sinDeg, cosDeg).changeX == 0.0 && Steer(s, sinDeg, cosDeg).changeY == 0.0
  {
  }

  // ---------------------------------------------------------------------------
  // Wheel effects
  // ---------------------------------------------------------------------------

  function TrailFor(offset: (int, int)): Emitter
  {
    Emitter(offset.0, offset.1, TrailMaintain)
  }

  /** One emitter per wheel offset, in order. */
  function TrailsFor(offsets: seq<(int, int)>): (r: seq<Emitter>)
    ensures |r| == |offsets|
    ensures forall k :: 0 <= k < |r| ==> r[k] == TrailFor(offsets[k])
  {
    if offsets == [] then [] else TrailsFor(offsets[..|offsets| - 1]) + [TrailFor(offsets[|offsets| - 1])]
  }

  /** Wheel effects start once: only while not moving and without emitters. */
  function StartWheel(s: State): (r: State)
    ensures r == s.(isMoving := r.isMoving, emitters := r.emitters)
    ensures s.emitters <= r.emitters
    ensures r.isMoving || |r.emitters| > 0
    ensures s.isMoving ==> r == s
  {
    if !s.isMoving && |s.emitters| == 0 then
      s.(isMoving := true, emitters := s.emitters + TrailsFor(WheelOffsets))
    else s
  }

  lemma WheelStartIdempotent(s: State)
    ensures StartWheel(StartWheel(s)) == StartWheel(s)
    ensures StartWheel(s) == s.(isMoving := StartWheel(s).isMoving, emitters := StartWheel(s).emitters)
  {
  }

  /** The first start attaches one emitter per wheel offset. */
  lemma WheelFirstStart(s: State)
    requires !s.isMoving && s.emitters == []
    ensures var r := StartWheel(s);
      && r.isMoving
      && |r.emitters| == |WheelOffsets| == 2
      && forall k :: 0 <= k < 2 ==> r.emitters[k] == Emitter(WheelOffsets[k].0, WheelOffsets[k].1, 20)
  {
  }

  // ---------------------------------------------------------------------------
  // Keys
  // ---------------------------------------------------------------------------

  datatype Key = Up | W | Down | S | Left | A | Right | D | Escape | Other

  /** The key flags after pressing key: the key's own flag is set. */
  function PressInput(i: Inputs, key: Key): Inputs
  {
    if key == Up || key == W then i.(forward := true)
    else if key == Down || key == S then i.(backward := true)
    else if key == Left || key == A then i.(left := true)
    else if key == Right || key == D then i.(right := true)
    else i
  }

  /** The key flags after releasing key: the key's own flag is cleared. */
  function ReleaseInput(i: Inputs, key: Key): Inputs
  {
    if key == Up || key == W then i.(forward := false)
    else if key == Down || key == S then i.(backward := false)
    else if key == Left || key == A then i.(left := false)
    else if key == Right || key == D then i.(right := false)
    else i
  }

  /** The drive keys, which also start the wheel effects. */
  predicate IsDriveKey(key: Key)
  {
    key == Up || key == W || key == Down || key == S
  }

  /** A key press; ignored once the race is finished. */
  function KeyPressed(s: State, key: Key): (r: State)
    ensures s.finished ==> r == s
    ensures !s.finished ==> r.input == PressInput(s.input, key)
    ensures r == s.(input := r.input, isMoving := r.isMoving, emitters := r.emitters)
    ensures !IsDriveKey(key) ==> r.isMoving == s.isMoving && r.emitters == s.emitters
    ensures !s.finished && IsDriveKey(key) ==> r == StartWheel(s.(input := r.input))
    ensures !s.finished ==> r.input.forward == (s.input.forward || key == Up || key == W)
    ensures !s.finished ==> r.input.backward == (s.input.backward || key == Down || key == S)
    ensures !s.finished ==> r.input.left == (s.input.left || key == Left || key == A)
    ensures !s.finished ==> r.input.right == (s.input.right || key == Right || key == D)
  {
    if s.finished then s
    else
      var s1 := s.(input := PressInput(s.input, key));
      if IsDriveKey(key) then StartWheel(s1) else s1
  }

  /** Escape during the race leaves for the menu. */
  predicate LeavesToMenu(s: State, key: Key)
  {
    !s.finished && key == Escape
  }

  /** A key release clears its flag; it is not guarded by the finished state. */
  function KeyReleased(s: State, key: Key): (r: State)
    ensures r == s.(input := r.input)
    ensures r.input.forward == (s.input.forward && key != Up && key != W)
    ensures r.input.backward == (s.input.backward && key != Down && key != S)
    ensures r.input.left == (s.input.left && key != Left && key != A)
    ensures r.input.right == (s.input.right && key != Right && key != D)
    ensures (r.input.forward ==> s.input.forward) && (r.input.backward ==> s.input.backward)
    ensures (r.input.left ==> s.input.left) && (r.input.right ==> s.input.right)
  {
    s.(input := ReleaseInput(s.input, key))
  }

  // ---------------------------------------------------------------------------
  // One frame and runs of events
  // ---------------------------------------------------------------------------

  /** What one frame receives from outside: its length, its clock reading at the
      start, the second reading the zone check takes when the finish fires, and
      the two overlap queries. */
  datatype FrameInput = FrameInput(dt: real, now: real, finishNow: real, slowHit: bool, finishHit: bool)

  /** One frame: clock, speed controller, zone check, then steering, in this
      order. The zone check sees the car where it was before this frame's move,
      and a frame that finishes the race still sets its steering. */
  function Frame(s: State, c: Config, sinDeg: real -> real, cosDeg: real -> real, f: FrameInput): (r: State)
    ensures s.finished ==> r == s
    ensures r.input == s.input && r.angle == s.angle && r.isMoving == s.isMoving && r.emitters == s.emitters
    ensures r.raceStartTime == s.raceStartTime
  {
    if s.finished then s
    else
      var s1 := if s.raceStartTime != 0.0 then s.(raceTime := f.now - s.raceStartTime) else s;
      var s2 := SpeedUpdate(s1, c, f.dt);
      var s3 := ZoneCheck(s2, c, f.finishNow, f.slowHit, f.finishHit);
      Steer(s3, sinDeg, cosDeg)
  }

  /** A frame of a running race is its four steps in sequence. */
  lemma FrameSteps(s: State, c: Config, sinDeg: real -> real, cosDeg: real -> real, f: FrameInput,
                   s1: State, s2: State, s3: State)
    requires !s.finished
    requires s1 == if s.raceStartTime != 0.0 then s.(raceTime := f.now - s.raceStartTime) else s
    requires s2 == SpeedUpdate(s1, c, f.dt)
    requires s3 == ZoneCheck(s2, c, f.finishNow, f.slowHit, f.finishHit)
    ensures Frame(s, c, sinDeg, cosDeg, f) == Steer(s3, sinDeg, cosDeg)
  {
  }

  /** The speed controller of a frame uses the slow-road flag of the previous
      frame's zone check, not this frame's query. */
  lemma FrameUsesPreviousZone(s: State, c: Config, sinDeg: real -> real, cosDeg: real -> real, f: FrameInput)
    requires !s.finished
    ensures var r := Frame(s, c, sinDeg, cosDeg, f);
      && r.targetSpeed == TargetOf(s, c)
      && (r.onSlowRoad <==> c.hasSlowRoad && f.slowHit)
  {
  }

  /** A frame either finishes the race, capturing the time of the zone check, or
      refreshes the race time from the clock. */
  lemma FrameRaceTime(s: State, c: Config, sinDeg: real -> real, cosDeg: real -> real, f: FrameInput)
    requires !s.finished
    ensures var r := Frame(s, c, sinDeg, cosDeg, f);
      && (r.finished <==> FinishFires(s, c, f.finishHit))
      && (FinishFires(s, c, f.finishHit) ==> r.raceTime == f.finishNow - s.raceStartTime)
      && (!FinishFires(s, c, f.finishHit) && s.raceStartTime != 0.0 ==> r.raceTime == f.now - s.raceStartTime)
  {
  }

  /** Displacement is exactly zero in the dead-zone, in the finishing frame too. */
  lemma FrameDeadZone(s: State, c: Config, sinDeg: real -> real, cosDeg: real -> real, f: FrameInput)
    requires !s.finished
    ensures var r := Frame(s, c, sinDeg, cosDeg, f);
      && r.changeAngle == ChangeAngleFor(s.input.left, s.input.right)
      && (Abs(r.currentSpeed) <= DeadZone ==> r.changeX == 0.0 && r.changeY == 0.0)
  {
  }

  /** A car at rest with no drive key held stays at rest and is not displaced. */
  lemma StationaryStaysStill(s: State, c: Config, sinDeg: real -> real, cosDeg: real -> real, f: FrameInput)
    requires !s.finished && s.currentSpeed == 0.0 && !s.input.forward && !s.input.backward
    requires c.maxSpeed >= 0.0
    ensures var r := Frame(s, c, sinDeg, cosDeg, f);
      r.currentSpeed == 0.0 && r.targetSpeed == 0.0 && r.changeX == 0.0 && r.changeY == 0.0
  {
  }

  datatype Event = Press(key: Key) | Release(key: Key) | Tick(frame: FrameInput)

  function Apply(s: State, c: Config, sinDeg: real -> real, cosDeg: real -> real, e: Event): State
  {
    match e
    case Press(k) => KeyPressed(s, k)
    case Release(k) => KeyReleased(s, k)
    case Tick(f) => Frame(s, c, sinDeg, cosDeg, f)
  }

  function Run(s: State, c: Config, sinDeg: real -> real, cosDeg: real -> real, evs: seq<Event>): State
    decreases |evs|
  {
    if evs == [] then s else Run(Apply(s, c, sinDeg, cosDeg, evs[0]), c, sinDeg, cosDeg, evs[1..])
  }

  /** The number of frames in a run in which the finish fires. */
  function FinishCount(s: State, c: Config, sinDeg: real -> real, cosDeg: real -> real, evs: seq<Event>): nat
    decreases |evs|
  {
    if evs == [] then 0
    else
      (if evs[0].Tick? && FinishFires(s, c, evs[0].frame.finishHit) then 1 else 0)
      + FinishCount(Apply(s, c, sinDeg, cosDeg, evs[0]), c, sinDeg, cosDeg, evs[1..])
  }

  /** b differs from a at most in key flags, and those only went from held to released. */
  predicate FrozenSince(a: State, b: State)
  {
    && b == a.(input := b.input)
    && (b.input.forward ==> a.input.forward)
    && (b.input.backward ==> a.input.backward)
    && (b.input.left ==> a.input.left)
    && (b.input.right ==> a.input.right)
  }

  /** Once finished, no event changes the race: speeds, zone flag, race time,
      steering and wheel effects stay as they were; key releases may still
      clear key flags. */
  lemma {:induction false} FrozenAfterFinish(s: State, c: Config, sinDeg: real -> real, cosDeg: real -> real, evs: seq<Event>)
    requires s.finished
    ensures FrozenSince(s, Run(s, c, sinDeg, cosDeg, evs))
    decreases |evs|
  {
    if evs != [] {
      var s1 := Apply(s, c, sinDeg, cosDeg, evs[0]);
      assert FrozenSince(s, s1);
      FrozenAfterFinish(s1, c, sinDeg, cosDeg, evs[1..]);
    }
  }

  /** Once the wheel effects run, no later event stops them or changes the
      emitters: every later call to start them finds them started. */
  lemma {:induction false} WheelEffectsPersist(s: State, c: Config, sinDeg: real -> real, cosDeg: real -> real, evs: seq<Event>)
    requires s.isMoving
    ensures var r := Run(s, c, sinDeg, cosDeg, evs);
      r.isMoving && r.emitters == s.emitters && StartWheel(r) == r
    decreases |evs|
  {
    if evs != [] {
      WheelEffectsPersist(Apply(s, c, sinDeg, cosDeg, evs[0]), c, sinDeg, cosDeg, evs[1..]);
    }
  }

  /** The finish fires at most once in any run, and never after the race is over. */
  lemma {:induction false} FinishFiresAtMostOnce(s: State, c: Config, sinDeg: real -> real, cosDeg: real -> real, evs: seq<Event>)
    ensures FinishCount(s, c, sinDeg, cosDeg, evs) <= if s.finished then 0 else 1
    decreases |evs|
  {
    if evs != [] {
      var s1 := Apply(s, c, sinDeg, cosDeg, evs[0]);
      assert s1.finished <==> s.finished || (evs[0].Tick? && FinishFires(s, c, evs[0].frame.finishHit));
      FinishFiresAtMostOnce(s1, c, sinDeg, cosDeg, evs[1..]);
    }
  }
}
