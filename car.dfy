/**
 * The vehicles of src/car.ts. A car advances one tick at a time: its speed
 * goes through acceleration, a clamp and friction, it steers only while
 * moving, and it stops for good once it touches a border or another car. A
 * smart car also tracks how long it has been standing still and feeds its
 * sensor readings to its network, whose outputs become its controls.
 *
 * The first half states one tick on values; the class Car is the in-place
 * implementation, proved against it.
 */
module Cars {
  import opened Utils
  import opened Network
  import opened Controls

  // ---------------------------------------------------------------------------
  // Specification on values
  // ---------------------------------------------------------------------------

  /** The constants every car constructor sets. */
  const Acceleration: real := 0.1
  const Friction: real := 0.02
  const TurningSpeed: real := 0.01

  /** The hidden layer and output layer every smart car's network has. */
  function SmartNetCounts(rayCount: nat): seq<nat>
  {
    [rayCount, 6, 4]
  }

  /** Draws `new NNetwork(counts)` consumes: one per weight and bias of every level. */
  function NetDraws(counts: seq<nat>): nat
    requires |counts| >= 1
  {
    DrawsBeforeLevel(counts, |counts| - 1)
  }

  /** The fields of a car that no method changes after construction. */
  datatype Physics = Physics(
    width: real, height: real, maxSpeed: real,
    acceleration: real, friction: real, turningSpeed: real)

  /** What kind of car the source's class hierarchy makes it. */
  datatype Kind = Plain | Traffic | Smart(rayCount: nat)

  /** The fields a tick changes, and the flags the car drives by. */
  datatype CarState = CarState(
    x: real, y: real, speed: real, angle: real,
    polygon: seq<Point>, damaged: bool, stoppedAt: Option<real>, flags: Flags)

  /** Lines 67-72 of `move`: the forward and reverse pedals. */
  function Accelerated(speed: real, acceleration: real, f: Flags): (r: real)
    ensures f.forward == f.reverse ==> r == speed
    ensures f.forward && !f.reverse ==> r == speed + acceleration
    ensures f.reverse && !f.forward ==> r == speed - acceleration
  {
    var s := if f.forward then speed + acceleration else speed;
    if f.reverse then s - acceleration else s
  }

  /** Lines 73-78 of `move`: the clamp to [-maxSpeed/4, maxSpeed]. */
  function Clamped(speed: real, maxSpeed: real): (r: real)
    ensures maxSpeed >= 0.0 ==> -maxSpeed / 4.0 <= r <= maxSpeed
    ensures -maxSpeed / 4.0 <= speed <= maxSpeed ==> r == speed
  {
    var s := if speed > maxSpeed then maxSpeed else speed;
    if s < -maxSpeed / 4.0 then -maxSpeed / 4.0 else s
  }

  /** Lines 79-89 of `move`: friction towards zero, then the snap to zero. */
  function Braked(speed: real, friction: real): (r: real)
    ensures friction >= 0.0 && Abs(speed) <= friction ==> r == 0.0
    ensures friction >= 0.0 && speed >= 2.0 * friction ==> r == speed - friction
    ensures friction >= 0.0 && speed <= -2.0 * friction ==> r == speed + friction
  {
    var s := if speed > 0.0 then speed - friction else speed;
    var s' := if s < 0.0 then s + friction else s;
    if Abs(s') < friction then 0.0 else s'
  }

  /** The speed one call of `move` leaves. */
  function NextSpeed(speed: real, body: Physics, f: Flags): (r: real)
    ensures !f.forward && !f.reverse && -body.maxSpeed / 4.0 <= speed <= body.maxSpeed ==>
      r == Braked(speed, body.friction)
  {
    Braked(Clamped(Accelerated(speed, body.acceleration, f), body.maxSpeed), body.friction)
  }

  /** Lines 90-99 of `move`: steering, given the speed after friction. */
  function Steered(angle: real, speed: real, turningSpeed: real, f: Flags): (r: real)
    ensures r == angle || r == angle + turningSpeed || r == angle - turningSpeed
  {
    if speed != 0.0 then
      var flip := if speed > 0.0 then 1.0 else -1.0;
      var a := if f.left then angle + turningSpeed * flip else angle;
      if f.right then a - turningSpeed * flip else a
    else
      angle
  }

  /** The point at distance `rad` from (x, y) in direction `theta`, as `createPolygon` places a corner. */
  function Corner(x: real, y: real, theta: real, rad: real, env: Env): Point
  {
    Point(x - env.sin(theta) * rad, y - env.cos(theta) * rad)
  }

  /**
   * `createPolygon`: the four corners of a width × height box centred on
   * (x, y) and turned by `angle`, with trigonometry left abstract.
   */
  function Outline(x: real, y: real, angle: real, width: real, height: real, env: Env): (ps: seq<Point>)
    ensures |ps| == 4
  {
    var rad := env.hypot(width, height) / 2.0;
    var alpha := env.atan2(width, height);
    [ Corner(x, y, angle - alpha, rad, env),
      Corner(x, y, angle + alpha, rad, env),
      Corner(x, y, env.pi + angle - alpha, rad, env),
      Corner(x, y, env.pi + angle + alpha, rad, env) ]
  }

  /** The polygon touches some road border or some traffic car. */
  predicate Collides(polygon: seq<Point>, borders: seq<seq<Point>>, traffic: seq<seq<Point>>, env: Env)
    ensures borders == [] && traffic == [] ==> !Collides(polygon, borders, traffic, env)
  {
    || (exists k :: 0 <= k < |borders| && env.polygonsIntersect(polygon, borders[k]))
    || (exists k :: 0 <= k < |traffic| && env.polygonsIntersect(polygon, traffic[k]))
  }

  /** Lines 102-103 of `move`: the point `speed` away from (x, y) along the heading `angle`. */
  function Stepped(x: real, y: real, angle: real, speed: real, env: Env): Point
  {
    Point(x - env.sin(angle) * speed, y - env.cos(angle) * speed)
  }

  /** `move`: the new speed, then the new heading, then one step of that speed along it. */
  function Moved(s: CarState, body: Physics, env: Env): (r: CarState)
    ensures r.polygon == s.polygon && r.damaged == s.damaged && r.stoppedAt == s.stoppedAt && r.flags == s.flags
  {
    var speed := NextSpeed(s.speed, body, s.flags);
    var angle := Steered(s.angle, speed, body.turningSpeed, s.flags);
    var p := Stepped(s.x, s.y, angle, speed, env);
    s.(speed := speed, angle := angle, x := p.x, y := p.y)
  }

  /** `Car.update`: a car that is not damaged moves, redraws its outline and checks for a crash. */
  function Driven(s: CarState, body: Physics, borders: seq<seq<Point>>, traffic: seq<seq<Point>>, env: Env): (r: CarState)
    ensures s.damaged ==> r == s
    ensures r.stoppedAt == s.stoppedAt && r.flags == s.flags
  {
    if s.damaged then s
    else
      var m := Moved(s, body, env);
      var polygon := Outline(m.x, m.y, m.angle, body.width, body.height, env);
      m.(polygon := polygon, damaged := Collides(polygon, borders, traffic, env))
  }

  /** Lines 206-210 of `SmartCar.update`: when the car last came (nearly) to a stop. */
  function StallClock(stoppedAt: Option<real>, speed: real, now: real): (r: Option<real>)
    ensures r.Some? ==> r.value == now || r == stoppedAt
  {
    if speed > 0.5 then None
    else if stoppedAt.None? then Some(now)
    else stoppedAt
  }

  /** Lines 213-214 of `SmartCar.update`: a reading becomes the network input `1 - offset`, or 0 if absent. */
  function SensorInputs(readings: seq<Option<real>>): (inputs: seq<real>)
    ensures |inputs| == |readings|
  {
    seq(|readings|, i requires 0 <= i < |readings| =>
      if readings[i].None? then 0.0 else 1.0 - readings[i].value)
  }

  /** A sensor with one reading per ray gives the network one input per ray. */
  lemma OneInputPerRay(env: Env, rayCount: nat, x: real, y: real, angle: real,
      borders: seq<seq<Point>>, traffic: seq<seq<Point>>)
    requires env.SensesRays(rayCount)
    ensures |SensorInputs(env.sense(x, y, angle, borders, traffic))| == rayCount
  {
  }

  /** A smart car's network fits its sensor, and the sensor gives one reading per ray. */
  ghost predicate Drivable(kind: Kind, ps: seq<LevelParams>, env: Env)
  {
    kind.Smart? ==>
      |ps| >= 1 && Chained(ps) && ps[0].InputSize() == kind.rayCount && env.SensesRays(kind.rayCount)
  }

  /**
   * One `update` of a car of the given kind, whose network (for a smart car)
   * has parameters `ps`: the base update, then for a smart car the stall
   * clock and the flags its network derives from the new sensor readings.
   */
  ghost function Ticked(s: CarState, body: Physics, kind: Kind, ps: seq<LevelParams>,
                        borders: seq<seq<Point>>, traffic: seq<seq<Point>>, now: real, env: Env): (r: CarState)
    requires Drivable(kind, ps, env)
    ensures var d := Driven(s, body, borders, traffic, env);
      r.(stoppedAt := d.stoppedAt, flags := d.flags) == d
    ensures !kind.Smart? ==> r.stoppedAt == s.stoppedAt && r.flags == s.flags
  {
    var d := Driven(s, body, borders, traffic, env);
    if kind.Smart? then
      var readings := env.sense(d.x, d.y, d.angle, borders, traffic);
      d.(stoppedAt := StallClock(d.stoppedAt, d.speed, now),
         flags := NeuralFlags(NetOutputs(ps, SensorInputs(readings))))
    else
      d
  }

  // ---------------------------------------------------------------------------
  // Properties of a tick
  // ---------------------------------------------------------------------------

  /** Friction never flips the sign of the speed and never makes it larger. */
  lemma BrakedTowardsZero(speed: real, friction: real)
    requires friction >= 0.0
    ensures speed >= 0.0 ==> 0.0 <= Braked(speed, friction) <= speed
    ensures speed <= 0.0 ==> speed <= Braked(speed, friction) <= 0.0
  {
  }

  /** After friction the speed is exactly zero or at least `friction` in size. */
  lemma BrakedSnaps(speed: real, friction: real)
    ensures Braked(speed, friction) == 0.0 || Abs(Braked(speed, friction)) >= friction
  {
  }

  /** Whatever the speed was before, `move` leaves it within [-maxSpeed/4, maxSpeed]. */
  lemma SpeedWithinLimits(speed: real, body: Physics, f: Flags)
    requires body.friction >= 0.0 && body.maxSpeed >= 0.0
    ensures -body.maxSpeed / 4.0 <= NextSpeed(speed, body, f) <= body.maxSpeed
  {
    var c := Clamped(Accelerated(speed, body.acceleration, f), body.maxSpeed);
    assert -body.maxSpeed / 4.0 <= c <= body.maxSpeed;
    BrakedTowardsZero(c, body.friction);
  }

  /**
   * After `move` the speed is 0 or at least `friction` in size, and it has the
   * sign the clamped speed had: friction slows the car but never reverses it.
   */
  lemma SpeedSnapsAndKeepsSign(speed: real, body: Physics, f: Flags)
    requires body.friction >= 0.0
    ensures var v := NextSpeed(speed, body, f);
      v == 0.0 || Abs(v) >= body.friction
    ensures var c := Clamped(Accelerated(speed, body.acceleration, f), body.maxSpeed);
      (c >= 0.0 ==> 0.0 <= NextSpeed(speed, body, f) <= c) &&
      (c <= 0.0 ==> c <= NextSpeed(speed, body, f) <= 0.0)
  {
    var c := Clamped(Accelerated(speed, body.acceleration, f), body.maxSpeed);
    BrakedSnaps(c, body.friction);
    BrakedTowardsZero(c, body.friction);
  }

  /** Pressing forward and reverse together is the same as pressing neither. */
  lemma PedalsCancel(speed: real, body: Physics, f: Flags)
    requires f.forward && f.reverse
    ensures NextSpeed(speed, body, f) == NextSpeed(speed, body, f.(forward := false, reverse := false))
  {
  }

  /** From rest, one tick on the forward pedal with the default constants gives speed 0.08. */
  lemma FirstForwardTick(maxSpeed: real)
    requires maxSpeed >= Acceleration
    ensures NextSpeed(0.0, Physics(30.0, 50.0, maxSpeed, Acceleration, Friction, TurningSpeed),
                      Flags(true, false, false, false)) == 0.08
  {
  }

  /**
   * The angle changes only while the speed after friction is non-zero; then
   * left turns by +turningSpeed when going forward and by -turningSpeed when
   * reversing, and right the opposite way.
   */
  lemma SteeringOnlyWhileMoving(angle: real, speed: real, turningSpeed: real, f: Flags)
    ensures speed == 0.0 ==> Steered(angle, speed, turningSpeed, f) == angle
    ensures f.left && !f.right && speed > 0.0 ==> Steered(angle, speed, turningSpeed, f) == angle + turningSpeed
    ensures f.left && !f.right && speed < 0.0 ==> Steered(angle, speed, turningSpeed, f) == angle - turningSpeed
    ensures f.right && !f.left && speed > 0.0 ==> Steered(angle, speed, turningSpeed, f) == angle - turningSpeed
    ensures f.right && !f.left && speed < 0.0 ==> Steered(angle, speed, turningSpeed, f) == angle + turningSpeed
  {
  }

  /** Steering left and right together leaves the angle as it was. */
  lemma SteeringCancels(angle: real, speed: real, turningSpeed: real, f: Flags)
    requires f.left && f.right
    ensures Steered(angle, speed, turningSpeed, f) == angle
  {
  }

  /**
   * `move` changes only the speed, the heading and the position; a car whose
   * speed after friction is 0 keeps its heading and stays where it was,
   * whatever sin and cos are.
   */
  lemma MoveOnlyDrives(s: CarState, body: Physics, env: Env)
    ensures var m := Moved(s, body, env);
      m.polygon == s.polygon && m.damaged == s.damaged && m.stoppedAt == s.stoppedAt && m.flags == s.flags
    ensures NextSpeed(s.speed, body, s.flags) == 0.0 ==>
      var m := Moved(s, body, env);
      m.speed == 0.0 && m.x == s.x && m.y == s.y && m.angle == s.angle
  {
  }

  /** A car with StaticControl at rest stays at rest (given non-negative friction and maximum speed). */
  lemma StaticCarStaysAtRest(body: Physics)
    requires body.friction >= 0.0 && body.maxSpeed >= 0.0
    ensures NextSpeed(0.0, body, StaticControl()) == 0.0
  {
  }

  /** A car whose maximum speed is 0 never moves, whatever its pedals say. */
  lemma ZeroMaxSpeedNeverMoves(speed: real, body: Physics, f: Flags)
    requires body.maxSpeed == 0.0 && body.friction >= 0.0
    ensures NextSpeed(speed, body, f) == 0.0
  {
  }

  /**
   * `damaged` is sticky: a damaged car keeps its position, angle, speed,
   * outline and damage through an update; only a smart car's stall clock and
   * flags still change.
   */
  lemma DamageIsSticky(s: CarState, body: Physics, kind: Kind, ps: seq<LevelParams>,
                       borders: seq<seq<Point>>, traffic: seq<seq<Point>>, now: real, env: Env)
    requires Drivable(kind, ps, env) && s.damaged
    ensures var t := Ticked(s, body, kind, ps, borders, traffic, now, env);
      && t.x == s.x && t.y == s.y && t.angle == s.angle && t.speed == s.speed
      && t.polygon == s.polygon && t.damaged
    ensures !kind.Smart? ==> Ticked(s, body, kind, ps, borders, traffic, now, env) == s
  {
  }

  /** An undamaged car becomes damaged exactly when its new outline hits a border or a traffic car. */
  lemma DamageMeansCollision(s: CarState, body: Physics, kind: Kind, ps: seq<LevelParams>,
                             borders: seq<seq<Point>>, traffic: seq<seq<Point>>, now: real, env: Env)
    requires Drivable(kind, ps, env) && !s.damaged
    ensures var t := Ticked(s, body, kind, ps, borders, traffic, now, env);
      t.damaged <==> Collides(t.polygon, borders, traffic, env)
  {
  }

  /** Moving the centre moves every corner of the outline by the same offset. */
  lemma OutlineTranslates(x: real, y: real, dx: real, dy: real, angle: real, width: real, height: real, env: Env)
    ensures forall k :: 0 <= k < 4 ==>
      Outline(x + dx, y + dy, angle, width, height, env)[k] ==
        Point(Outline(x, y, angle, width, height, env)[k].x + dx, Outline(x, y, angle, width, height, env)[k].y + dy)
  {
  }

  /**
   * The stall rule: above 0.5 the clock is cleared; otherwise an earlier stop
   * time is kept, or the current time is taken if there was none.
   */
  lemma StallRule(stoppedAt: Option<real>, speed: real, now: real)
    ensures speed > 0.5 ==> StallClock(stoppedAt, speed, now) == None
    ensures speed <= 0.5 && stoppedAt.Some? ==> StallClock(stoppedAt, speed, now) == stoppedAt
    ensures speed <= 0.5 && stoppedAt.None? ==> StallClock(stoppedAt, speed, now) == Some(now)
    ensures StallClock(stoppedAt, speed, now).Some? <==> speed <= 0.5
  {
  }

  /**
   * Each sensor input is 1 - offset for a reading and 0 without one, so with
   * offsets in [0,1] every input is in [0,1], a nearer obstacle gives a larger
   * input, and no reading counts like an obstacle at the far end of the ray.
   */
  lemma SensorInputsMeaning(readings: seq<Option<real>>)
    ensures forall i :: 0 <= i < |readings| && readings[i].None? ==> SensorInputs(readings)[i] == 0.0
    ensures forall i :: 0 <= i < |readings| && readings[i].Some? ==> SensorInputs(readings)[i] == 1.0 - readings[i].value
    ensures (forall i :: 0 <= i < |readings| && readings[i].Some? ==> 0.0 <= readings[i].value <= 1.0) ==>
      forall i :: 0 <= i < |readings| ==> 0.0 <= SensorInputs(readings)[i] <= 1.0
    ensures SensorInputs([None]) == SensorInputs([Some(1.0)])
  {
  }

  /** Two readings, the nearer obstacle gives the larger input. */
  lemma NearerObstacleLargerInput(readings: seq<Option<real>>, i: nat, j: nat)
    requires i < |readings| && j < |readings| && readings[i].Some? && readings[j].Some?
    requires readings[i].value < readings[j].value
    ensures SensorInputs(readings)[i] > SensorInputs(readings)[j]
  {
  }

  // ---------------------------------------------------------------------------
  // The car object
  // ---------------------------------------------------------------------------

  /**
   * `Car`, `TrafficCar` and `SmartCar` in one class: `kind` says which
   * constructor built it, and `update` dispatches on it as the source's
   * override does.
   */
  class Car {
    var x: real
    var y: real
    const width: real
    const height: real
    const maxSpeed: real
    var controls: Control
    const acceleration: real
    var speed: real
    const friction: real
    var angle: real
    var polygon: seq<Point>
    var damaged: bool
    const turningSpeed: real
    const kind: Kind
    /** `SmartCar.stoppedAt`: when the car last came to a (near) stop; `null` is None. */
    var stoppedAt: Option<real>

    function Body(): Physics
    {
      Physics(width, height, maxSpeed, acceleration, friction, turningSpeed)
    }

    function State(): CarState
      reads this, controls.Objects()
    {
      CarState(x, y, speed, angle, polygon, damaged, stoppedAt, controls.Current())
    }

    /**
     * A smart car drives by a network whose first level takes one input per
     * ray; the other cars drive by fixed flags.
     */
    ghost predicate Valid()
      reads this
    {
      && (!kind.Smart? ==> controls.Fixed?)
      && (kind.Smart? ==>
        && controls.Neural?
        && controls.nn.ai.Valid()
        && |controls.nn.ai.levels| >= 1
        && controls.nn.ai.levels[0].inputs.Length == kind.rayCount)
    }

    /** The objects that make up the car: itself, its control and its network's arrays. */
    ghost function Repr(): set<object>
      reads this
    {
      {this} + controls.Objects() +
      (if controls.Neural? then controls.nn.ai.Signals + controls.nn.ai.ParamArrays else {})
    }

    /** The parameters of a smart car's network; a car without one has none. */
    ghost function Net(): (ps: seq<LevelParams>)
      requires Valid()
      reads this, Repr()
      ensures kind.Smart? ==> |ps| >= 1 && Chained(ps) && ps[0].InputSize() == kind.rayCount
    {
      if controls.Neural? then controls.nn.ai.Params() else []
    }

    /** `new Car(x, y, width, height, maxSpeed)`: at rest, undamaged, with StaticControl. */
    constructor (x: real, y: real, width: real, height: real, maxSpeed: real, env: Env)
      ensures Valid() && kind == Plain && fresh(Repr())
      ensures Body() == Physics(width, height, maxSpeed, Acceleration, Friction, TurningSpeed)
      ensures State() == CarState(x, y, 0.0, 0.0, Outline(x, y, 0.0, width, height, env), false, None, StaticControl())
    {
      this.x := x;
      this.y := y;
      this.width := width;
      this.height := height;
      this.maxSpeed := maxSpeed;
      controls := Fixed(StaticControl());
      speed := 0.0;
      acceleration := Acceleration;
      friction := Friction;
      angle := 0.0;
      damaged := false;
      turningSpeed := TurningSpeed;
      kind := Plain;
      stoppedAt := None;
      new;
      polygon := CreatePolygon(env);
    }

    /** `new TrafficCar(x, y, width, height, maxSpeed)`: as a plain car, but always driving forward. */
    constructor Traffic(x: real, y: real, width: real, height: real, maxSpeed: real, env: Env)
      ensures Valid() && kind == Kind.Traffic && fresh(Repr())
      ensures Body() == Physics(width, height, maxSpeed, Acceleration, Friction, TurningSpeed)
      ensures State() == CarState(x, y, 0.0, 0.0, Outline(x, y, 0.0, width, height, env), false, None, AlwaysForwardControls())
    {
      this.x := x;
      this.y := y;
      this.width := width;
      this.height := height;
      this.maxSpeed := maxSpeed;
      controls := Fixed(AlwaysForwardControls());
      speed := 0.0;
      acceleration := Acceleration;
      friction := Friction;
      angle := 0.0;
      damaged := false;
      turningSpeed := TurningSpeed;
      kind := Kind.Traffic;
      stoppedAt := None;
      new;
      polygon := CreatePolygon(env);
    }

    /**
     * `new SmartCar(x, y, width, height, maxSpeed, rayCount)` at time `now`:
     * stopped since now, driven by a fresh network of shape [rayCount, 6, 4]
     * built from the draws starting at `start`.
     */
    constructor Smart(x: real, y: real, width: real, height: real, maxSpeed: real, rayCount: nat,
                      now: real, draw: Draws, start: nat, env: Env)
      ensures Valid() && kind == Kind.Smart(rayCount) && fresh(Repr())
      ensures Body() == Physics(width, height, maxSpeed, Acceleration, Friction, TurningSpeed)
      ensures State() == CarState(x, y, 0.0, 0.0, Outline(x, y, 0.0, width, height, env), false, Some(now), StaticControl())
      ensures Net() == RandomizedNet(SmartNetCounts(rayCount), draw, start)
    {
      this.x := x;
      this.y := y;
      this.width := width;
      this.height := height;
      this.maxSpeed := maxSpeed;
      stoppedAt := Some(now);
      var nn := NewBrain(rayCount, draw, start);
      controls := Neural(nn);
      speed := 0.0;
      acceleration := Acceleration;
      friction := Friction;
      angle := 0.0;
      damaged := false;
      turningSpeed := TurningSpeed;
      kind := Kind.Smart(rayCount);
      new;
      polygon := CreatePolygon(env);
      assert Repr() == {this, nn} + nn.ai.Signals + nn.ai.ParamArrays;
    }

    /** Lines 186-188 of the `SmartCar` constructor: a fresh network of shape [rayCount, 6, 4] and its control. */
    static method NewBrain(rayCount: nat, draw: Draws, start: nat) returns (nn: NNControl)
      ensures fresh(nn) && fresh(nn.ai.Signals) && fresh(nn.ai.ParamArrays)
      ensures nn.ai.Valid() && |nn.ai.levels| >= 1 && nn.ai.levels[0].inputs.Length == rayCount
      ensures nn.ai.Params() == RandomizedNet(SmartNetCounts(rayCount), draw, start)
      ensures nn.Current() == StaticControl()
    {
      var ai := new NNetwork(SmartNetCounts(rayCount), draw, start);
      nn := new NNControl(ai);
    }

    /**
     * `car.controls = new NNControl(...)`, as the breeding loop in src/main.ts
     * does: a smart car takes over another network control, of the same input
     * size; only the flags and the network change.
     */
    method Adopt(nn: NNControl)
      requires Valid() && kind.Smart?
      requires nn.ai.Valid() && |nn.ai.levels| >= 1 && nn.ai.levels[0].inputs.Length == kind.rayCount
      modifies this
      ensures Valid() && controls == Neural(nn)
      ensures Repr() == {this, nn} + nn.ai.Signals + nn.ai.ParamArrays
      ensures Net() == old(nn.ai.Params())
      ensures State() == old(State()).(flags := nn.Current())
    {
      controls := Neural(nn);
    }

    /** `move`: the pedals, the clamp, friction, steering, then the position. */
    method Move(env: Env)
      modifies this
      ensures State() == Moved(old(State()), Body(), env)
      ensures controls == old(controls)
    {
      var f := controls.Current();
      Throttle(f);
      Steer(f);
      Advance(env);
    }

    /** Lines 102-103 of `move`: drive `speed` along the heading. */
    method Advance(env: Env)
      modifies this
      ensures Point(x, y) == Stepped(old(x), old(y), angle, speed, env)
      ensures speed == old(speed) && angle == old(angle) && controls == old(controls)
      ensures polygon == old(polygon) && damaged == old(damaged) && stoppedAt == old(stoppedAt)
    {
      x := x - env.sin(angle) * speed;
      y := y - env.cos(angle) * speed;
    }

    /** Lines 67-89 of `move`: the pedals, the clamp and friction change the speed. */
    method Throttle(f: Flags)
      modifies this
      ensures speed == NextSpeed(old(speed), Body(), f)
      ensures x == old(x) && y == old(y) && angle == old(angle) && controls == old(controls)
      ensures polygon == old(polygon) && damaged == old(damaged) && stoppedAt == old(stoppedAt)
    {
      var v := speed;
      if f.forward {
        v := v + acceleration;
      }
      if f.reverse {
        v := v - acceleration;
      }
      if v > maxSpeed {
        v := maxSpeed;
      }
      if v < -maxSpeed / 4.0 {
        v := -maxSpeed / 4.0;
      }
      if v > 0.0 {
        v := v - friction;
      }
      if v < 0.0 {
        v := v + friction;
      }
      if Abs(v) < friction {
        v := 0.0;
      }
      speed := v;
    }

    /** Lines 90-99 of `move`: steer only while moving, the other way round when reversing. */
    method Steer(f: Flags)
      modifies this
      ensures angle == Steered(old(angle), speed, turningSpeed, f)
      ensures x == old(x) && y == old(y) && speed == old(speed) && controls == old(controls)
      ensures polygon == old(polygon) && damaged == old(damaged) && stoppedAt == old(stoppedAt)
    {
      if speed != 0.0 {
        var flip := if speed > 0.0 then 1.0 else -1.0;
        if f.left {
          angle := angle + turningSpeed * flip;
        }
        if f.right {
          angle := angle - turningSpeed * flip;
        }
      }
    }

    /** `createPolygon`: push the four corners in order. */
    method CreatePolygon(env: Env) returns (points: seq<Point>)
      ensures points == Outline(x, y, angle, width, height, env)
    {
      points := [];
      var rad := env.hypot(width, height) / 2.0;
      var alpha := env.atan2(width, height);
      points := points + [Corner(x, y, angle - alpha, rad, env)];
      points := points + [Corner(x, y, angle + alpha, rad, env)];
      points := points + [Corner(x, y, env.pi + angle - alpha, rad, env)];
      points := points + [Corner(x, y, env.pi + angle + alpha, rad, env)];
    }

    /** `assessDamage`: the first border, then the first traffic car, the outline touches. */
    method AssessDamage(borders: seq<seq<Point>>, traffic: seq<seq<Point>>, env: Env) returns (hit: bool)
      ensures hit == Collides(polygon, borders, traffic, env)
    {
      for k := 0 to |borders|
        invariant forall j :: 0 <= j < k ==> !env.polygonsIntersect(polygon, borders[j])
      {
        if env.polygonsIntersect(polygon, borders[k]) {
          return true;
        }
      }
      for k := 0 to |traffic|
        invariant forall j :: 0 <= j < k ==> !env.polygonsIntersect(polygon, traffic[j])
      {
        if env.polygonsIntersect(polygon, traffic[k]) {
          return true;
        }
      }
      return false;
    }

    /** `Car.update`: only an undamaged car moves, redraws its outline and checks for a crash. */
    method BaseUpdate(borders: seq<seq<Point>>, traffic: seq<seq<Point>>, env: Env)
      modifies this
      ensures State() == Driven(old(State()), Body(), borders, traffic, env)
      ensures controls == old(controls)
    {
      if !damaged {
        Move(env);
        polygon := CreatePolygon(env);
        damaged := AssessDamage(borders, traffic, env);
      }
    }

    /**
     * `SmartCar.update` at time `now`: the base update, the stall clock, then
     * the network turns the new sensor readings into the flags.
     */
    method SmartUpdate(borders: seq<seq<Point>>, traffic: seq<seq<Point>>, now: real, env: Env)
      requires Valid() && kind.Smart? && env.SensesRays(kind.rayCount)
      modifies Repr()
      ensures controls == old(controls)
      ensures Net() == old(Net())
      ensures State() == Ticked(old(State()), Body(), kind, old(Net()), borders, traffic, now, env)
    {
      BaseUpdate(borders, traffic, env);
      StallAndSteer(borders, traffic, now, env);
    }

    /** Lines 206-216 of `SmartCar.update`: the stall clock, then the flags from the sensor readings. */
    method StallAndSteer(borders: seq<seq<Point>>, traffic: seq<seq<Point>>, now: real, env: Env)
      requires Valid() && kind.Smart? && env.SensesRays(kind.rayCount)
      modifies Repr()
      ensures controls == old(controls)
      ensures Net() == old(Net())
      ensures State() == old(State()).(
        stoppedAt := StallClock(old(stoppedAt), old(speed), now),
        flags := NeuralFlags(NetOutputs(old(Net()), SensorInputs(env.sense(old(x), old(y), old(angle), borders, traffic)))))
    {
      ghost var ps := Net();
      var nn := controls.nn;
      assert nn.ai.Valid() && |nn.ai.levels| >= 1 && nn.ai.levels[0].inputs.Length == kind.rayCount;
      OneInputPerRay(env, kind.rayCount, x, y, angle, borders, traffic);
      if speed > 0.5 {
        stoppedAt := None;
      } else if stoppedAt == None {
        stoppedAt := Some(now);
      }
      var readings := env.sense(x, y, angle, borders, traffic);
      var offsets := SensorInputs(readings);
      assert Net() == ps;
      nn.Update(offsets);
    }

    /** `update`, dispatched on the kind of car. */
    method Update(borders: seq<seq<Point>>, traffic: seq<seq<Point>>, now: real, env: Env)
      requires Valid() && Drivable(kind, Net(), env)
      modifies Repr()
      ensures Valid() && controls == old(controls)
      ensures Net() == old(Net())
      ensures State() == Ticked(old(State()), Body(), kind, old(Net()), borders, traffic, now, env)
    {
      if kind.Smart? {
        SmartUpdate(borders, traffic, now, env);
      } else {
        BaseUpdate(borders, traffic, env);
      }
    }
  }
}
