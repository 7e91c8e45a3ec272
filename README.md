# Bicycle simulator: state and control logic

`projectxedap.cpp` is an OpenGL/GLUT program that shows a bicycle the user rides
around a scene. Almost all of it is drawing. Underneath the drawing is a small state
machine over a handful of globals:

- the bicycle: speed, handlebar angle, pedal phase, position, heading, and a timed "wheelie";
- the camera: its offset and three orbit angles;
- the pointer: the last mouse position and whether the left button is held.

The window toolkit's callbacks change this state:

- the keyboard handler: throttle, steering, wheelie, reset and quit;
- the arrow-key handler: moves the camera;
- the mouse-button and drag handlers: the drag orbits the camera;
- the idle callback, which advances one frame;
- the timer callback, which ends a wheelie.

This project models that state machine in Dafny and proves what each handler
does to the state.

The model has three modules:

- `Angles` (`angles.dfy`) holds the absolute value, the degree/radian conversions and
  the reduction of an angle into one turn. `Normalize` is the mathematical
  definition. `Wrap` is the program's pair of loops, which subtract and add the
  period, and it is proved equal to `Normalize`. `AngleSum` is `angleSum`.
- `Controls` (`controls.dfy`) holds the tuning constants (lines 44-50 and the
  `DECELERATION` of line 125). Each key's effect on speed and handlebar is a pure
  function with its guarantees: clamping, sign preservation, never crossing zero,
  and the steering grid. The per-frame friction is `Decay`. `Coast` is repeated
  friction, and the lemmas about it show the bicycle stops within ten frames.
- `Simulation` (`simulation.dfy`) holds the class `Simulator`. Its fields are the
  globals, grouped into three records: `Vehicle`, `Camera` and `Pointer`. It has
  one method per handler, plus `Tick` for `updateScene` and a constructor for
  program start.
  - Every method keeps the class invariant `Valid()`:
    - speed within its limits;
    - handlebar within its limit and on the grid of steering increments;
    - pedal phase, heading and the three orbit angles within [0, 360);
    - the wheelie angle raised exactly while a wheelie is active, and the timer zero otherwise.
  - Every method states its whole new state.

The numbers are exact reals. `cos`, `sin`, `atan2` and `sqrt` are function
parameters of the handlers that use them, passed in uninterpreted. When a key asks
to schedule the wheelie timer or to exit, the handler returns that request as an
`Effect` value.

## Model

| member | source | states |
|---|---|---|
| `Angles.Abs` | projectxedap.cpp:767-770 | the result is non-negative and is `a` or `-a`, and is `a` itself when `a` is non-negative |
| `Angles.Degrees` | projectxedap.cpp:772-775 | an angle in [0, 2π) converts into [0, 360), and the sign is kept both ways |
| `Angles.Radians` | projectxedap.cpp:777-780 | an angle in [0, 360) converts into [0, 2π), and the sign is kept both ways |
| `Angles.DegreesRadiansInverse` | projectxedap.cpp:772-780 | `degrees(radians(x)) == x` and `radians(degrees(x)) == x` |
| `Angles.Normalize` | projectxedap.cpp:152-158 | the reduced angle lies in [0, period) |
| `Angles.NormalizeUnique` | projectxedap.cpp:152-158 | the only value in [0, period) that differs from `x` by whole periods is the reduced angle |
| `Angles.NormalizeOffset` | projectxedap.cpp:152-158 | the reduced angle differs from `x` by a whole number of periods |
| `Angles.NormalizeShift` | projectxedap.cpp:942-947 | adding whole turns to an angle does not change its reduced form |
| `Angles.NormalizeInRange` | projectxedap.cpp:942-947 | an angle already in [0, period) is left as it is by the wrapping loops |
| `Angles.Wrap` | projectxedap.cpp:155-156 | subtracting the period while at least one period, then adding it while negative, yields exactly the reduced angle |
| `Angles.AngleSum` | projectxedap.cpp:152-158 | `angleSum(a, b)` lies in [0, 2π), is the reduced `a + b`, and differs from `a + b` by whole turns |
| `Controls.Forward` | projectxedap.cpp:842-852 | after 'W' the speed is positive and at most `MAX_SPEED`, and in fact exactly `MAX_SPEED`, because `INC_SPEED == MAX_SPEED` |
| `Controls.Backward` | projectxedap.cpp:853-863 | after 'S' the speed is negative and at least `MIN_SPEED`, and in fact exactly `MIN_SPEED` |
| `Controls.Faster` | projectxedap.cpp:872-881 | '+' keeps the sign class of the speed both ways, keeps the speed within [`MIN_SPEED`, `MAX_SPEED`] and never lowers its magnitude within that range; the new magnitude is the old one plus `INC_SPEED`, capped at `MAX_SPEED`, which, since `INC_SPEED == MAX_SPEED`, always lands exactly on `MAX_SPEED` or `MIN_SPEED` |
| `Controls.Slower` | projectxedap.cpp:882-891 | '-' moves the speed toward zero by exactly `INC_SPEED` or to zero, never crosses zero, and keeps a speed in range in range |
| `Controls.SteerLeft` | projectxedap.cpp:864-867 | 'A' raises the handlebar angle by at most one increment, leaves it alone exactly when it is at or beyond `HANDLE_LIMIT`, and from below the limit ends below limit plus increment (the grid guarantee is `SteeringStaysInRange`) |
| `Controls.SteerRight` | projectxedap.cpp:868-871 | 'D' lowers the handlebar angle by at most one increment, leaves it alone exactly when it is at or beyond `-HANDLE_LIMIT`, and from above the limit ends above minus limit minus increment (the grid guarantee is `SteeringStaysInRange`) |
| `Controls.SteerLeftRightInverse` | projectxedap.cpp:864-871 | away from the limits, 'D' undoes 'A' and 'A' undoes 'D' |
| `Controls.SteeringStaysInRange` | projectxedap.cpp:864-871 | from a handlebar angle on the grid of increments within ±`HANDLE_LIMIT`, both 'A' and 'D' stay on the grid and within the limit |
| `Controls.SteerLeftNeedsGrid` | projectxedap.cpp:866 | without the grid condition the guard does not suffice: an angle within the limit (69) ends beyond it after 'A' |
| `Controls.Decay` | projectxedap.cpp:125-132 | friction never raises the magnitude of the speed and never flips its sign; any nonzero speed below `INC_SPEED/10` becomes exactly 0; a result below `INC_SPEED/10` is 0; the magnitude drops by `DECELERATION`, or to 0 once below twice that |
| `Controls.Coast` | projectxedap.cpp:127-132 | the speed after `n` frames of friction: its magnitude never grows and its sign never flips |
| `Controls.CoastBound` | projectxedap.cpp:127-132 | after `n` frames without input the magnitude of the speed is at most its start minus `n` decelerations, and at most 0 once that is used up |
| `Controls.StopsWithinTenFrames` | projectxedap.cpp:127-134 | from any speed within the limits, the bicycle stands still after ten frames without input |
| `Simulation.DefaultsAreOk` | projectxedap.cpp:820-834 | the state `reset` establishes satisfies the invariant |
| `Simulation.WheelieNeedsActive` | projectxedap.cpp:61-63 | under the invariant a raised wheelie angle implies an active wheelie |
| `Simulation.Component` | projectxedap.cpp:136-137 | one displacement component, speed times the uninterpreted `cos` or `sin` of heading plus handlebar in radians; zero at zero speed or where the trig value is zero |
| `Simulation.TurnRate` | projectxedap.cpp:143-145 | the heading change, the uninterpreted `atan2` of the steering model; at zero speed it does not depend on the handlebar angle |
| `Simulation.DragRoll` | projectxedap.cpp:939-940 | the roll added by a drag: zero unless both deltas are nonzero, otherwise half the uninterpreted `sqrt` of the squared drag length |
| `Simulation.DragRollSymmetric` | projectxedap.cpp:939-940 | the roll does not change when the deltas are swapped or either is negated |
| `Simulation.Simulator.constructor` | projectxedap.cpp:689-696 | program start: all globals zero, then `reset`; the state is the default one, the pointer at (0, 0) with the button up |
| `Simulation.Simulator.Reset` | projectxedap.cpp:820-834 | every bicycle field and orbit angle is zero, the camera is at (0, 2, 5), the button is up and the last pointer position is kept |
| `Simulation.Simulator.WheelieReset` | projectxedap.cpp:794-801 | an active wheelie is cleared (angle, flag and timer zero); with none active nothing changes |
| `Simulation.Simulator.Special` | projectxedap.cpp:806-815 | up/down move the camera by ∓0.1 in z, left/right by ∓0.1 in x, and any other key changes nothing |
| `Simulation.Simulator.Keyboard` | projectxedap.cpp:839-910 | each key's exact effect on the bicycle, given by the `Controls` functions; 'Q' raises the wheelie and asks for the timer only when no wheelie is active; 'R' is `reset`; Escape asks to quit; other keys change nothing; only 'R' touches camera and pointer; the invariant is kept |
| `Simulation.Simulator.Mouse` | projectxedap.cpp:915-927 | a left-button press records the position and holds the button, a release lets it go and keeps the position, other buttons change nothing; the invariant is kept |
| `Simulation.Simulator.Motion` | projectxedap.cpp:932-952 | the position is always recorded; with the button up the camera is unchanged; with it held, each orbit angle is the reduced sum of its old value and half the drag, and the roll changes only on a diagonal drag; all angles stay in [0, 360) |
| `Simulation.StaleTimerClearsLaterWheelie` | projectxedap.cpp:794-801 | 'Q' at 0 ms, 'R', 'Q' at 500 ms: both presses ask for a 1000 ms timer, and the first timer's callback ends the wheelie that started at 500 ms |
| `Simulation.Simulator.Tick` | projectxedap.cpp:120-147 | the speed decays as `Decay` says; a standing bicycle does not move, turn or pedal, whatever its handlebar; otherwise it steps along heading plus handlebar, turns its pedals by speed over wheel radius, and turns its heading by the steering model, with pedals and heading ending in [0, 360) |

## Left out

- Drawing: all OpenGL/GLUT rendering, window set-up, the help text and `main`, and every `glutPostRedisplay` call, which only requests a redraw.
- `cos`, `sin`, `atan2` and `sqrt` are uninterpreted function parameters, so nothing is proved about their values: not about the displacement, not about the turn rate, not about the roll increment.
- `GLfloat` rounding: every value is an exact real, so the model does not capture float rounding. That rounding includes the small errors of `degrees(radians(x))` and of the repeated adding of 0.2 and 0.02. `PI` is the literal of line 21.
- Timer plumbing: `glutGet(GLUT_ELAPSED_TIME)` is the parameter `now` of `Keyboard`. `glutTimerFunc(WHEELIE_DURATION, wheelieReset, 0)` is the returned `ScheduleWheelieReset(1000)`. The event loop that later calls `WheelieReset` is not modelled.
- `exit(0)` on Escape is the returned `Quit`; the process ending is not modelled.
- The mouse handler's `x`/`y` and the arrow handler's pointer coordinates are ints as in the source. `motion`'s `deltax * deltax + deltay * deltay` is computed on unbounded integers, so an `int` overflow for drags beyond about 32 000 pixels is not modelled.
- The globals are grouped into three records (`Vehicle`, `Camera`, `Pointer`) held in three fields rather than eighteen separate fields. Each handler writes whole records, so the intermediate states between the source's single-field assignments are not observable in the model.
- `Simulation.Simulator.Motion` runs the subtracting and adding loops variable by variable. The source runs the three subtracting loops first and then the three adding loops. The variables are independent, so the results agree.
- `Angles.Normalize`, `Angles.Wrap`: the period is restricted to the two the program uses, 2π and 360, and is not an arbitrary positive number.
- The "auto-move" behaviour and the alternative speed constants of another variant of the program do not exist in this file and are not modelled.
- The wheelie timer is not tied to the wheelie it was armed for. Consider 'Q', then 'R', then 'Q' again within one second. The first callback clears the second wheelie early, because `wheelieReset` tests only the active flag. The model reproduces this: `WheelieReset` ignores its argument and the stored start time, as the source does. `Simulation.StaleTimerClearsLaterWheelie` plays the sequence through.
