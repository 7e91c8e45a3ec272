/**
 * The state of the bicycle scene and the event handlers that change it:
 * the keyboard and arrow-key handlers, the mouse button and drag handlers,
 * the per-frame update, the wheelie timer callback and the reset.
 *
 * The trigonometric functions and the square root of the C library are
 * parameters of the handlers that use them; the timer service and the
 * process exit are reported as an `Effect` returned to the event loop.
 */
module Simulation {
  import opened Angles
  import opened Controls

  /** Wheelbase of the bicycle, the denominator of the steering model. */
  const CYCLE_LENGTH: real := 3.3
  const RADIUS_WHEEL: real := 1.0
  /** Distance one arrow-key press moves the camera. */
  const CAMERA_STEP: real := 0.1
  /** Rotation in degrees per pixel of mouse drag. */
  const DRAG_SCALE: real := 0.5

  /** Key codes of the arrow keys, as the windowing toolkit numbers them. */
  const KEY_LEFT: int := 100
  const KEY_UP: int := 101
  const KEY_RIGHT: int := 102
  const KEY_DOWN: int := 103

  const ESCAPE: char := 27 as char

  datatype ButtonState = Down | Up
  datatype MouseButton = LeftButton | MiddleButton | RightButton

  /** What a handler asks of the event loop besides changing the state. */
  datatype Effect =
    | NoEffect
    | Quit
    | ScheduleWheelieReset(delayMs: int)

  /** The bicycle: pose, speed, handlebar, pedals and the wheelie trick. */
  datatype Vehicle = Vehicle(
    pedalAngle: real, speed: real, steering: real,
    xpos: real, zpos: real, direction: real,
    wheelieAngle: real, wheelieActive: bool, wheelieTimer: int)

  /** The camera: its offset and the three orbit angles in degrees. */
  datatype Camera = Camera(
    camx: real, camy: real, camz: real,
    anglex: real, angley: real, anglez: real)

  /** The last pointer position and the state of the left button. */
  datatype Pointer = Pointer(prevx: int, prevy: int, mouse: ButtonState)

  predicate InTurn(a: real) {
    0.0 <= a < FULL_TURN
  }

  /**
   * What every handler preserves of the bicycle: speed and handlebar within
   * their limits, pedals and heading within one turn, and the wheelie angle
   * raised exactly while a wheelie is active.
   */
  predicate VehicleOk(v: Vehicle) {
    && SpeedInRange(v.speed)
    && SteeringInRange(v.steering)
    && InTurn(v.pedalAngle) && InTurn(v.direction)
    && v.wheelieAngle == (if v.wheelieActive then WHEELIE_ANGLE else 0.0)
    && (!v.wheelieActive ==> v.wheelieTimer == 0)
  }

  /** The orbit angles stay within one turn. */
  predicate CameraOk(c: Camera) {
    InTurn(c.anglex) && InTurn(c.angley) && InTurn(c.anglez)
  }

  const DEFAULT_VEHICLE: Vehicle := Vehicle(0.0, 0.0, 0.0, 0.0, 0.0, 0.0, 0.0, false, 0)
  const DEFAULT_CAMERA: Camera := Camera(0.0, 2.0, 5.0, 0.0, 0.0, 0.0)

  lemma DefaultsAreOk()
    ensures VehicleOk(DEFAULT_VEHICLE) && CameraOk(DEFAULT_CAMERA)
  {
    assert OnSteeringGrid(0.0);
  }

  /** The wheelie angle is raised only while a wheelie is active. */
  lemma WheelieNeedsActive(v: Vehicle)
    requires VehicleOk(v)
    ensures v.wheelieAngle != 0.0 ==> v.wheelieActive
  {
  }

  /** One component of a step of `speed` along `heading` degrees; `trig` is cosine or sine. */
  function Component(speed: real, heading: real, trig: real -> real): (r: real)
    ensures speed == 0.0 ==> r == 0.0
    ensures trig(Radians(heading)) == 0.0 ==> r == 0.0
  {
    speed * trig(Radians(heading))
  }

  /** Heading change of one frame under the single-track steering model. */
  function TurnRate(speed: real, steering: real,
                    sin: real -> real, cos: real -> real, atan2: (real, real) -> real): (r: real)
    ensures speed == 0.0 ==> r == atan2(0.0, CYCLE_LENGTH)
  {
    atan2(speed * sin(Radians(steering)), CYCLE_LENGTH + speed * cos(Radians(steering)))
  }

  /** Extra roll of the camera for a diagonal drag of (dx, dy) pixels. */
  function DragRoll(dx: int, dy: int, sqrt: real -> real): (r: real)
    ensures dx == 0 || dy == 0 ==> r == 0.0
    ensures dx != 0 && dy != 0 ==> r == DRAG_SCALE * sqrt((dx * dx + dy * dy) as real)
  {
    if dx != 0 && dy != 0 then DRAG_SCALE * sqrt((dx * dx + dy * dy) as real) else 0.0
  }

  /** The roll depends on the size of the drag, not on its direction. */
  lemma DragRollSymmetric(dx: int, dy: int, sqrt: real -> real)
    ensures DragRoll(dx, dy, sqrt) == DragRoll(dy, dx, sqrt)
    ensures DragRoll(dx, dy, sqrt) == DragRoll(-dx, dy, sqrt)
    ensures DragRoll(dx, dy, sqrt) == DragRoll(dx, -dy, sqrt)
  {
    assert dx * dx == (-dx) * (-dx);
    assert dy * dy == (-dy) * (-dy);
  }

  class Simulator {
    var vehicle: Vehicle
    var camera: Camera
    var pointer: Pointer

    ghost predicate Valid()
      reads this
    {
      VehicleOk(vehicle) && CameraOk(camera)
    }

    /** Program start: every global zero, then the reset that initialisation performs. */
    constructor ()
      ensures Valid()
      ensures vehicle == DEFAULT_VEHICLE && camera == DEFAULT_CAMERA
      ensures pointer == Pointer(0, 0, Up)
    {
      pointer := Pointer(0, 0, Down);
      new;
      Reset();
    }

    /** Puts the bicycle and the camera back where they started; the pointer position is kept. */
    method Reset()
      modifies this
      ensures Valid()
      ensures vehicle == DEFAULT_VEHICLE && camera == DEFAULT_CAMERA
      ensures pointer == old(pointer).(mouse := Up)
    {
      camera := camera.(anglex := 0.0, angley := 0.0, anglez := 0.0);
      vehicle := vehicle.(pedalAngle := 0.0, steering := 0.0);
      pointer := pointer.(mouse := Up);
      vehicle := vehicle.(speed := 0.0);
      camera := camera.(camx := 0.0, camy := 2.0, camz := 5.0);
      vehicle := vehicle.(xpos := 0.0, zpos := 0.0, direction := 0.0);
      vehicle := vehicle.(wheelieAngle := 0.0, wheelieActive := false, wheelieTimer := 0);
      DefaultsAreOk();
    }

    /** The timer callback that ends a wheelie; it does nothing when none is active. */
    method WheelieReset(value: int)
      requires Valid()
      modifies this`vehicle
      ensures Valid()
      ensures old(vehicle.wheelieActive) ==>
        vehicle == old(vehicle).(wheelieAngle := 0.0, wheelieActive := false, wheelieTimer := 0)
      ensures !old(vehicle.wheelieActive) ==> vehicle == old(vehicle)
    {
      if vehicle.wheelieActive {
        vehicle := vehicle.(wheelieAngle := 0.0, wheelieActive := false, wheelieTimer := 0);
      }
    }

    /** Arrow keys move the camera by one step; other keys do nothing. */
    method Special(key: int, x: int, y: int)
      requires Valid()
      modifies this`camera
      ensures Valid()
      ensures key == KEY_UP ==> camera == old(camera).(camz := old(camera.camz) - CAMERA_STEP)
      ensures key == KEY_DOWN ==> camera == old(camera).(camz := old(camera.camz) + CAMERA_STEP)
      ensures key == KEY_LEFT ==> camera == old(camera).(camx := old(camera.camx) - CAMERA_STEP)
      ensures key == KEY_RIGHT ==> camera == old(camera).(camx := old(camera.camx) + CAMERA_STEP)
      ensures !(KEY_LEFT <= key <= KEY_DOWN) ==> camera == old(camera)
    {
      if key == KEY_UP {
        camera := camera.(camz := camera.camz - CAMERA_STEP);
      } else if key == KEY_DOWN {
        camera := camera.(camz := camera.camz + CAMERA_STEP);
      } else if key == KEY_LEFT {
        camera := camera.(camx := camera.camx - CAMERA_STEP);
      } else if key == KEY_RIGHT {
        camera := camera.(camx := camera.camx + CAMERA_STEP);
      }
    }

    /**
     * The keyboard handler. `now` is the elapsed time in milliseconds when
     * the key arrives; the result tells the event loop to schedule the
     * wheelie timer or to quit.
     */
    method Keyboard(key: char, now: int) returns (effect: Effect)
      requires Valid()
      modifies this
      ensures Valid()
      ensures key !in "rR" ==> camera == old(camera) && pointer == old(pointer)
      ensures key in "wW" ==> vehicle == old(vehicle).(speed := Forward(old(vehicle.speed))) && effect == NoEffect
      ensures key in "sS" ==> vehicle == old(vehicle).(speed := Backward(old(vehicle.speed))) && effect == NoEffect
      ensures key in "aA" ==> vehicle == old(vehicle).(steering := SteerLeft(old(vehicle.steering))) && effect == NoEffect
      ensures key in "dD" ==> vehicle == old(vehicle).(steering := SteerRight(old(vehicle.steering))) && effect == NoEffect
      ensures key == '+' ==> vehicle == old(vehicle).(speed := Faster(old(vehicle.speed))) && effect == NoEffect
      ensures key == '-' ==> vehicle == old(vehicle).(speed := Slower(old(vehicle.speed))) && effect == NoEffect
      ensures key in "qQ" && old(vehicle.wheelieActive) ==> vehicle == old(vehicle) && effect == NoEffect
      ensures key in "qQ" && !old(vehicle.wheelieActive) ==>
        && vehicle == old(vehicle).(wheelieAngle := WHEELIE_ANGLE, wheelieActive := true, wheelieTimer := now)
        && effect == ScheduleWheelieReset(WHEELIE_DURATION)
      ensures key in "rR" ==>
        && vehicle == DEFAULT_VEHICLE && camera == DEFAULT_CAMERA
        && pointer == old(pointer).(mouse := Up) && effect == NoEffect
      ensures key == ESCAPE ==> vehicle == old(vehicle) && effect == Quit
      ensures key !in "wWsSaAdD+-qQrR" && key != ESCAPE ==> vehicle == old(vehicle) && effect == NoEffect
    {
      effect := NoEffect;
      var speed := vehicle.speed;
      var steering := vehicle.steering;
      if key == 'w' || key == 'W' {
        if speed >= 0.0 {
          speed := speed + INC_SPEED;
        } else {
          speed := -speed;
          speed := speed + INC_SPEED;
        }
        if speed > MAX_SPEED {
          speed := MAX_SPEED;
        }
        vehicle := vehicle.(speed := speed);
      } else if key == 's' || key == 'S' {
        if speed <= 0.0 {
          speed := speed - INC_SPEED;
        } else {
          speed := -speed;
          speed := speed - INC_SPEED;
        }
        if speed < MIN_SPEED {
          speed := MIN_SPEED;
        }
        vehicle := vehicle.(speed := speed);
      } else if key == 'a' || key == 'A' {
        SteeringStaysInRange(steering);
        if steering < HANDLE_LIMIT {
          steering := steering + INC_STEERING;
        }
        vehicle := vehicle.(steering := steering);
      } else if key == 'd' || key == 'D' {
        SteeringStaysInRange(steering);
        if steering > -HANDLE_LIMIT {
          steering := steering - INC_STEERING;
        }
        vehicle := vehicle.(steering := steering);
      } else if key == '+' {
        if speed >= 0.0 {
          speed := speed + INC_SPEED;
          if speed > MAX_SPEED {
            speed := MAX_SPEED;
          }
        } else {
          speed := speed - INC_SPEED;
          if speed < MIN_SPEED {
            speed := MIN_SPEED;
          }
        }
        vehicle := vehicle.(speed := speed);
      } else if key == '-' {
        if speed >= 0.0 {
          speed := speed - INC_SPEED;
          if speed < 0.0 {
            speed := 0.0;
          }
        } else {
          speed := speed + INC_SPEED;
          if speed > 0.0 {
            speed := 0.0;
          }
        }
        vehicle := vehicle.(speed := speed);
      } else if key == 'q' || key == 'Q' {
        if !vehicle.wheelieActive {
          vehicle := vehicle.(wheelieAngle := WHEELIE_ANGLE, wheelieActive := true, wheelieTimer := now);
          effect := ScheduleWheelieReset(WHEELIE_DURATION);
        }
      } else if key == 'r' || key == 'R' {
        Reset();
      } else if key == ESCAPE {
        effect := Quit;
      }
    }

    /** The left button starts or ends a camera drag; other buttons are ignored. */
    method Mouse(button: MouseButton, state: ButtonState, x: int, y: int)
      requires Valid()
      modifies this`pointer
      ensures Valid()
      ensures button == LeftButton && state == Down ==> pointer == Pointer(x, y, Down)
      ensures button == LeftButton && state == Up ==> pointer == old(pointer).(mouse := Up)
      ensures button != LeftButton ==> pointer == old(pointer)
    {
      if button == LeftButton {
        if state == Down {
          pointer := Pointer(x, y, Down);
        } else {
          pointer := pointer.(mouse := Up);
        }
      }
    }

    /**
     * Pointer motion. While the left button is held, the drag since the
     * last position turns the camera orbit; the position is always recorded.
     */
    method Motion(x: int, y: int, sqrt: real -> real)
      requires Valid()
      modifies this`camera, this`pointer
      ensures Valid()
      ensures pointer == old(pointer).(prevx := x, prevy := y)
      ensures old(pointer.mouse) == Up ==> camera == old(camera)
      ensures old(pointer.mouse) == Down ==>
        camera == old(camera).(
          anglex := Normalize(old(camera.anglex) + DRAG_SCALE * (old(pointer.prevx) - x) as real, FULL_TURN),
          angley := Normalize(old(camera.angley) + DRAG_SCALE * (old(pointer.prevy) - y) as real, FULL_TURN),
          anglez := Normalize(old(camera.anglez) + DragRoll(old(pointer.prevx) - x, old(pointer.prevy) - y, sqrt), FULL_TURN))
      ensures (old(pointer.prevx) == x || old(pointer.prevy) == y) ==> camera.anglez == old(camera.anglez)
    {
      if pointer.mouse == Down {
        var deltax := pointer.prevx - x;
        var deltay := pointer.prevy - y;
        var anglex := camera.anglex + DRAG_SCALE * deltax as real;
        var angley := camera.angley + DRAG_SCALE * deltay as real;
        var anglez := camera.anglez + DragRoll(deltax, deltay, sqrt);
        anglex := Wrap(anglex, FULL_TURN);
        angley := Wrap(angley, FULL_TURN);
        anglez := Wrap(anglez, FULL_TURN);
        NormalizeInRange(camera.anglez, FULL_TURN);
        camera := camera.(anglex := anglex, angley := angley, anglez := anglez);
      }
      pointer := pointer.(prevx := x, prevy := y);
    }

    /**
     * One frame of motion: friction on the speed, then, unless the bicycle
     * stands still, a step along heading plus handlebar, the pedals turned
     * with the wheel and the heading turned by the steering model.
     */
    method Tick(sin: real -> real, cos: real -> real, atan2: (real, real) -> real)
      requires Valid()
      modifies this`vehicle
      ensures Valid()
      ensures vehicle.speed == Decay(old(vehicle.speed))
      ensures old(vehicle.speed) == 0.0 ==> vehicle == old(vehicle)
      ensures Abs(vehicle.speed) < MOVE_THRESHOLD ==> vehicle == old(vehicle).(speed := vehicle.speed)
      ensures Abs(vehicle.speed) >= MOVE_THRESHOLD ==>
        var v, speed := old(vehicle), vehicle.speed;
        vehicle == v.(
          speed := speed,
          xpos := v.xpos + Component(speed, v.direction + v.steering, cos),
          zpos := v.zpos - Component(speed, v.direction + v.steering, sin),
          pedalAngle := Degrees(Normalize(Radians(v.pedalAngle) + speed / RADIUS_WHEEL, TWO_PI)),
          direction := Degrees(Normalize(Radians(v.direction) + TurnRate(speed, v.steering, sin, cos, atan2), TWO_PI)))
    {
      var v := vehicle;
      var speed := v.speed;
      if Abs(speed) > 0.0 && Abs(speed) < MOVE_THRESHOLD {
        speed := 0.0;
      } else if speed != 0.0 {
        speed := speed - (if speed > 0.0 then DECELERATION else -DECELERATION);
        if Abs(speed) < DECELERATION {
          speed := 0.0;
        }
      }

      if Abs(speed) < MOVE_THRESHOLD {
        vehicle := v.(speed := speed);
        return;
      }

      var xDelta := Component(speed, v.direction + v.steering, cos);
      var zDelta := Component(speed, v.direction + v.steering, sin);
      var pedal := AngleSum(Radians(v.pedalAngle), speed / RADIUS_WHEEL);
      var rotation := TurnRate(speed, v.steering, sin, cos, atan2);
      var heading := AngleSum(Radians(v.direction), rotation);
      vehicle := v.(
        speed := speed,
        xpos := v.xpos + xDelta,
        zpos := v.zpos - zDelta,
        pedalAngle := Degrees(pedal),
        direction := Degrees(heading));
    }
  }

  /**
   * The wheelie timer is not tied to the wheelie it was armed for. A wheelie
   * raised at time 0, a reset, and a second wheelie at 500 ms: the callback
   * armed by the first, due at 1000 ms, ends the second after only 500 ms.
   */
  method StaleTimerClearsLaterWheelie() returns (first: Effect, second: Effect, started: int, active: bool)
    ensures first == ScheduleWheelieReset(WHEELIE_DURATION)
    ensures second == ScheduleWheelieReset(WHEELIE_DURATION)
    ensures started == 500 && started < WHEELIE_DURATION
    ensures !active
  {
    var sim := new Simulator();
    first := sim.Keyboard('q', 0);
    var _ := sim.Keyboard('r', 200);
    second := sim.Keyboard('q', 500);
    started := sim.vehicle.wheelieTimer;
    sim.WheelieReset(0);
    active := sim.vehicle.wheelieActive;
  }
}
