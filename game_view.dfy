/**
 * The game view as an object: the fields the race logic updates in place and
 * one method per handler of secproject.py's GameView. Each method changes the
 * fields step by step as the handler does, and its postcondition ties the new
 * fields to the step function of module RaceLogic applied to the old ones.
 */
module Game {
  import opened RaceLogic

  class GameView {
    const difficulty: Difficulty
    const maxSpeed: real
    const burst: real
    /** The loaded map has a non-empty "slowroad" layer. */
    const hasSlowRoad: bool
    /** The loaded map has a non-empty "finish" layer. */
    const hasFinish: bool
    /** Sine and cosine of an angle in degrees, left uninterpreted. */
    const sinDeg: real -> real
    const cosDeg: real -> real

    var currentSpeed: real
    var targetSpeed: real
    var onSlowRoad: bool
    var finished: bool
    var raceTime: real
    var raceStartTime: real
    var isMoving: bool
    var wheelEmitters: seq<Emitter>
    var moveForward: bool
    var moveBackward: bool
    var turnLeft: bool
    var turnRight: bool
    /** The player sprite's heading and the per-tick changes handed to the physics engine. */
    var angle: real
    var changeAngle: int
    var changeX: real
    var changeY: real

    function Configuration(): Config
    {
      Config(maxSpeed, burst, hasSlowRoad, hasFinish)
    }

    function Snapshot(): State
      reads this
    {
      State(currentSpeed, targetSpeed, onSlowRoad, finished, raceTime, raceStartTime,
                      isMoving, wheelEmitters, Inputs(moveForward, moveBackward, turnLeft, turnRight),
                      angle, changeAngle, changeX, changeY)
    }

    /** Creates the view for a difficulty and runs its setup at clock reading now. */
    constructor (difficulty: Difficulty, hasSlowRoad: bool, hasFinish: bool, spawnAngle: real,
                 sinDeg: real -> real, cosDeg: real -> real, now: real)
      ensures Configuration() == ConfigFor(difficulty, hasSlowRoad, hasFinish)
      ensures this.difficulty == difficulty && this.sinDeg == sinDeg && this.cosDeg == cosDeg
      ensures Snapshot() == InitialState(spawnAngle, now)
    {
      this.difficulty := difficulty;
      this.hasSlowRoad := hasSlowRoad;
      this.hasFinish := hasFinish;
      this.sinDeg := sinDeg;
      this.cosDeg := cosDeg;
      currentSpeed := 0.0;
      targetSpeed := 0.0;
      onSlowRoad := false;
      finished := false;
      raceTime := 0.0;
      raceStartTime := 0.0;
      wheelEmitters := [];
      isMoving := false;
      moveForward, moveBackward, turnLeft, turnRight := false, false, false, false;
      match difficulty {
        case Easy =>
          maxSpeed := PlayerMaxSpeed * 0.8;
          burst := PlayerBurst * 0.7;
        case Hard =>
          maxSpeed := PlayerMaxSpeed * 0.8;
          burst := PlayerBurst * 0.7;
      }
      angle := spawnAngle;
      changeAngle, changeX, changeY := 0, 0.0, 0.0;
      new;
      Setup(now);
    }

    /** The race reset of setup: speed, finished flag and race clock. */
    method Setup(now: real)
      modifies this
      ensures Snapshot() == old(Snapshot()).(currentSpeed := 0.0, finished := false, raceStartTime := now, raceTime := 0.0)
    {
      currentSpeed := 0.0;
      finished := false;
      raceStartTime := now;
      raceTime := 0.0;
    }

    method StartWheelEffects()
      modifies this
      ensures Snapshot() == StartWheel(old(Snapshot()))
    {
      if !isMoving && |wheelEmitters| == 0 {
        ghost var s0 := Snapshot();
        isMoving := true;
        for i := 0 to |WheelOffsets|
          invariant wheelEmitters == s0.emitters + TrailsFor(WheelOffsets[..i])
          invariant Snapshot() == s0.(isMoving := true, emitters := wheelEmitters)
        {
          var (offsetX, offsetY) := WheelOffsets[i];
          assert WheelOffsets[..i + 1][..i] == WheelOffsets[..i];
          wheelEmitters := wheelEmitters + [Emitter(offsetX, offsetY, TrailMaintain)];
        }
        assert WheelOffsets[..|WheelOffsets|] == WheelOffsets;
      }
    }

    /** Handles a key press; returns whether the view leaves for the menu. */
    method OnKeyPress(key: Key) returns (toMenu: bool)
      modifies this
      ensures Snapshot() == KeyPressed(old(Snapshot()), key)
      ensures toMenu == LeavesToMenu(old(Snapshot()), key)
    {
      toMenu := false;
      if finished {
        return;
      }
      ghost var s0 := Snapshot();
      if key == Up || key == W {
        moveForward := true;
        assert Snapshot() == s0.(input := PressInput(s0.input, key));
        StartWheelEffects();
      } else if key == Down || key == S {
        moveBackward := true;
        assert Snapshot() == s0.(input := PressInput(s0.input, key));
        StartWheelEffects();
      } else if key == Left || key == A {
        turnLeft := true;
      } else if key == Right || key == D {
        turnRight := true;
      } else if key == Escape {
        toMenu := true;
      }
    }

    method OnKeyRelease(key: Key)
      modifies this
      ensures Snapshot() == KeyReleased(old(Snapshot()), key)
    {
      if key == Up || key == W {
        moveForward := false;
      } else if key == Down || key == S {
        moveBackward := false;
      } else if key == Left || key == A {
        turnLeft := false;
      } else if key == Right || key == D {
        turnRight := false;
      }
    }

    /** The zone check; returns whether the view switches to the results screen. */
    method CheckZones(now: real, slowHit: bool, finishHit: bool) returns (showResults: bool)
      modifies this
      ensures Snapshot() == ZoneCheck(old(Snapshot()), Configuration(), now, slowHit, finishHit)
      ensures showResults == FinishFires(old(Snapshot()), Configuration(), finishHit)
    {
      showResults := false;
      if finished {
        return;
      }
      onSlowRoad := false;
      if hasSlowRoad {
        onSlowRoad := slowHit;
      }
      if hasFinish && !finished {
        if finishHit {
          finished := true;
          raceTime := now - raceStartTime;
          showResults := true;
        }
      }
    }

    /** The speed controller: pick the target, ease toward it, apply the floor.
        The three stanzas of the handler are the three helper methods below. */
    method UpdateSpeed(dt: real)
      modifies this
      ensures Snapshot() == SpeedUpdate(old(Snapshot()), Configuration(), dt)
    {
      if finished {
        return;
      }
      ghost var s0 := Snapshot();
      ChooseTarget();
      EaseTowardTarget(dt);
      ApplySpeedFloor();
      SpeedUpdateSets(s0, Configuration(), dt, targetSpeed, currentSpeed);
    }

    /** Target from the held keys, capped on slow road. */
    method ChooseTarget()
      modifies this
      ensures targetSpeed == CapOnSlowRoad(SelectTarget(moveForward, moveBackward, maxSpeed), onSlowRoad, maxSpeed)
      ensures Snapshot() == old(Snapshot()).(targetSpeed := targetSpeed)
    {
      if moveForward {
        targetSpeed := maxSpeed;
      } else if moveBackward {
        targetSpeed := -maxSpeed * 0.5;
      } else {
        targetSpeed := 0.0;
      }

      var effectiveMaxSpeed := maxSpeed;
      if onSlowRoad {
        effectiveMaxSpeed := maxSpeed * SlowRoadFactor;
        if targetSpeed > effectiveMaxSpeed {
          targetSpeed := effectiveMaxSpeed;
        }
      }
    }

    /** Snap onto the target when close, else one clamped step toward it. */
    method EaseTowardTarget(dt: real)
      modifies this
      ensures currentSpeed == Ease(old(currentSpeed), targetSpeed, dt, burst)
      ensures Snapshot() == old(Snapshot()).(currentSpeed := currentSpeed)
    {
      if Abs(targetSpeed - currentSpeed) < SnapTolerance {
        currentSpeed := targetSpeed;
      } else if targetSpeed > currentSpeed {
        currentSpeed := currentSpeed + burst * dt * ReferenceRate;
        if currentSpeed > targetSpeed {
          currentSpeed := targetSpeed;
        }
      } else if targetSpeed < currentSpeed {
        currentSpeed := currentSpeed - PlayerDeceleration * dt * ReferenceRate;
        if currentSpeed < targetSpeed {
          currentSpeed := targetSpeed;
        }
      }
    }

    /** The minimum-speed floor while a non-zero target is asked for. */
    method ApplySpeedFloor()
      modifies this
      ensures currentSpeed == ApplyMinSpeed(old(currentSpeed), targetSpeed)
      ensures Snapshot() == old(Snapshot()).(currentSpeed := currentSpeed)
    {
      if Abs(currentSpeed) < PlayerMinSpeed && targetSpeed != 0.0 {
        currentSpeed := PlayerMinSpeed * (if targetSpeed > 0.0 then 1.0 else -1.0);
      }
    }

    /** One frame. now is the clock reading at its start, finishNow the one the
        zone check takes; returns whether the view switches to the results screen. */
    method OnUpdate(dt: real, now: real, finishNow: real, slowHit: bool, finishHit: bool) returns (showResults: bool)
      modifies this
      ensures Snapshot() == Frame(old(Snapshot()), Configuration(), sinDeg, cosDeg, FrameInput(dt, now, finishNow, slowHit, finishHit))
      ensures showResults == FinishFires(old(Snapshot()), Configuration(), finishHit)
    {
      showResults := false;
      if finished {
        return;
      }
      ghost var s0 := Snapshot();
      if raceStartTime != 0.0 {
        raceTime := now - raceStartTime;
      }
      ghost var s1 := Snapshot();
      UpdateSpeed(dt);
      ghost var s2 := Snapshot();
      showResults := CheckZones(finishNow, slowHit, finishHit);
      ghost var s3 := Snapshot();
      SetSteering();
      FrameSteps(s0, Configuration(), sinDeg, cosDeg, FrameInput(dt, now, finishNow, slowHit, finishHit), s1, s2, s3);
    }

    /** Rotation from the turn keys and displacement outside the dead-zone. */
    method SetSteering()
      modifies this
      ensures Snapshot() == Steer(old(Snapshot()), sinDeg, cosDeg)
    {
      if turnLeft {
        changeAngle := -PlayerRotationSpeed;
      } else if turnRight {
        changeAngle := PlayerRotationSpeed;
      } else {
        changeAngle := 0;
      }

      if Abs(currentSpeed) > DeadZone {
        changeX := sinDeg(angle) * currentSpeed;
        changeY := cosDeg(angle) * currentSpeed;
      } else {
        changeX := 0.0;
        changeY := 0.0;
      }
    }
  }

  /** A short race driven through the object: from rest, forward is pressed and
      one 60 Hz frame runs while the car sits on the finish line. */
  method FinishOnFirstFrame(sinDeg: real -> real, cosDeg: real -> real)
    returns (speed: real, finished: bool, raceTime: real, again: bool, laterRaceTime: real)
    ensures speed == 2.0 && finished && raceTime == 1.5
    ensures !again && laterRaceTime == 1.5
  {
    var view := new GameView(Easy, false, true, 0.0, sinDeg, cosDeg, 100.0);
    var toMenu := view.OnKeyPress(W);
    assert view.Snapshot().input.forward;
    StartFromRest(view.Snapshot(), Easy, false, true);
    var shown := view.OnUpdate(1.0 / 60.0, 101.0, 101.5, false, true);
    speed, finished, raceTime := view.currentSpeed, view.finished, view.raceTime;
    again := view.OnUpdate(1.0 / 60.0, 102.0, 102.5, false, true);
    laterRaceTime := view.raceTime;
  }
}
