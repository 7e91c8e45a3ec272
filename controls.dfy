/**
 * The tuning constants of the bicycle and the arithmetic each control
 * applies to the speed and the handlebar angle: the throttle keys, the
 * steering keys and the per-frame deceleration.
 */
module Controls {
  import opened Angles

  const HANDLE_LIMIT: real := 70.0
  const INC_STEERING: real := 2.0
  const INC_SPEED: real := 0.2
  const MAX_SPEED: real := 0.2
  const MIN_SPEED: real := -0.2
  const WHEELIE_ANGLE: real := 30.0
  /** Milliseconds after which the wheelie is cleared. */
  const WHEELIE_DURATION: int := 1000
  /** Speed lost to friction in every frame. */
  const DECELERATION: real := 0.02
  /** Below this magnitude the bicycle counts as standing still. */
  const MOVE_THRESHOLD: real := INC_SPEED / 10.0

  predicate SpeedInRange(s: real) {
    MIN_SPEED <= s <= MAX_SPEED
  }

  /** The handlebar angle is a whole number of steering increments. */
  predicate OnSteeringGrid(st: real) {
    st == (st / INC_STEERING).Floor as real * INC_STEERING
  }

  predicate SteeringInRange(st: real) {
    OnSteeringGrid(st) && -HANDLE_LIMIT <= st <= HANDLE_LIMIT
  }

  /** Key 'W': ride forward, reversing first if the bicycle rolls backward. */
  function Forward(s: real): (r: real)
    ensures 0.0 < r <= MAX_SPEED
    ensures r == MAX_SPEED
  {
    var t := if s >= 0.0 then s + INC_SPEED else -s + INC_SPEED;
    if t > MAX_SPEED then MAX_SPEED else t
  }

  /** Key 'S': ride backward, reversing first if the bicycle rolls forward. */
  function Backward(s: real): (r: real)
    ensures MIN_SPEED <= r < 0.0
    ensures r == MIN_SPEED
  {
    var t := if s <= 0.0 then s - INC_SPEED else -s - INC_SPEED;
    if t < MIN_SPEED then MIN_SPEED else t
  }

  /** Key '+': more speed in the current direction, within the limits. */
  function Faster(s: real): (r: real)
    ensures s >= 0.0 <==> r >= 0.0
    ensures SpeedInRange(r)
    ensures SpeedInRange(s) ==> Abs(s) <= Abs(r)
    ensures Abs(r) == if Abs(s) + INC_SPEED > MAX_SPEED then MAX_SPEED else Abs(s) + INC_SPEED
    ensures r == if s >= 0.0 then MAX_SPEED else MIN_SPEED
  {
    if s >= 0.0 then
      if s + INC_SPEED > MAX_SPEED then MAX_SPEED else s + INC_SPEED
    else
      if s - INC_SPEED < MIN_SPEED then MIN_SPEED else s - INC_SPEED
  }

  /** Key '-': less speed in the current direction, stopping at zero. */
  function Slower(s: real): (r: real)
    ensures s >= 0.0 ==> 0.0 <= r <= s
    ensures s < 0.0 ==> s < r <= 0.0
    ensures Abs(r) == if Abs(s) > INC_SPEED then Abs(s) - INC_SPEED else 0.0
    ensures SpeedInRange(s) ==> SpeedInRange(r)
  {
    if s >= 0.0 then
      if s - INC_SPEED < 0.0 then 0.0 else s - INC_SPEED
    else
      if s + INC_SPEED > 0.0 then 0.0 else s + INC_SPEED
  }

  /** Key 'A': turn the handlebar one increment left unless it is at the limit. */
  function SteerLeft(st: real): (r: real)
    ensures st <= r <= st + INC_STEERING
    ensures r == st <==> st >= HANDLE_LIMIT
    ensures st < HANDLE_LIMIT ==> r < HANDLE_LIMIT + INC_STEERING
  {
    if st < HANDLE_LIMIT then st + INC_STEERING else st
  }

  /** Key 'D': turn the handlebar one increment right unless it is at the limit. */
  function SteerRight(st: real): (r: real)
    ensures st - INC_STEERING <= r <= st
    ensures r == st <==> st <= -HANDLE_LIMIT
    ensures st > -HANDLE_LIMIT ==> r > -HANDLE_LIMIT - INC_STEERING
  {
    if st > -HANDLE_LIMIT then st - INC_STEERING else st
  }

  /**
   * Both steering keys keep the handlebar within the limit and on the
   * grid of increments; the limit is itself a multiple of the increment.
   */
  lemma SteeringStaysInRange(st: real)
    requires SteeringInRange(st)
    ensures SteeringInRange(SteerLeft(st))
    ensures SteeringInRange(SteerRight(st))
  {
    var k := (st / INC_STEERING).Floor;
    assert st == k as real * INC_STEERING;
    assert -35 <= k <= 35;
    assert (st + INC_STEERING) / INC_STEERING == (k + 1) as real;
    assert (st - INC_STEERING) / INC_STEERING == (k - 1) as real;
  }

  /** Away from the limits, one 'D' undoes one 'A' and the other way round. */
  lemma SteerLeftRightInverse(st: real)
    ensures -HANDLE_LIMIT <= st < HANDLE_LIMIT ==> SteerRight(SteerLeft(st)) == st
    ensures -HANDLE_LIMIT < st <= HANDLE_LIMIT ==> SteerLeft(SteerRight(st)) == st
  {
  }

  /**
   * The steering guard is tested before the increment is added, so an angle
   * off the grid of increments can end beyond the limit.
   */
  lemma SteerLeftNeedsGrid()
    ensures exists st :: -HANDLE_LIMIT <= st <= HANDLE_LIMIT && SteerLeft(st) > HANDLE_LIMIT
  {
    assert SteerLeft(69.0) == 71.0;
  }

  /** The friction applied to the speed at the start of every frame. */
  function Decay(s: real): (r: real)
    ensures Abs(r) <= Abs(s)
    ensures s >= 0.0 ==> r >= 0.0
    ensures s <= 0.0 ==> r <= 0.0
    ensures 0.0 < Abs(s) < MOVE_THRESHOLD ==> r == 0.0
    ensures Abs(r) < MOVE_THRESHOLD <==> r == 0.0
    ensures Abs(r) == if Abs(s) >= 2.0 * DECELERATION then Abs(s) - DECELERATION else 0.0
  {
    if Abs(s) > 0.0 && Abs(s) < MOVE_THRESHOLD then 0.0
    else if s != 0.0 then
      var t := s - (if s > 0.0 then DECELERATION else -DECELERATION);
      if Abs(t) < DECELERATION then 0.0 else t
    else s
  }

  /** The speed after `n` frames without input. */
  function Coast(s: real, n: nat): (r: real)
    ensures Abs(r) <= Abs(s)
    ensures s >= 0.0 ==> r >= 0.0
    ensures s <= 0.0 ==> r <= 0.0
    decreases n
  {
    if n == 0 then s else Coast(Decay(s), n - 1)
  }

  /** Every frame without input takes at least one deceleration off the speed, down to zero. */
  lemma {:induction false} CoastBound(s: real, n: nat)
    ensures Abs(Coast(s, n)) <= if Abs(s) > n as real * DECELERATION then Abs(s) - n as real * DECELERATION else 0.0
    decreases n
  {
    if n > 0 {
      CoastBound(Decay(s), n - 1);
    }
  }

  /** From any speed within the limits, the bicycle stands still after ten frames without input. */
  lemma StopsWithinTenFrames(s: real)
    requires SpeedInRange(s)
    ensures Coast(s, 10) == 0.0
  {
    CoastBound(s, 10);
  }
}
