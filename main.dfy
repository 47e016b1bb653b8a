/**
 * The simulation loop of src/main.ts: a population of smart cars on a
 * three-lane road, traffic spawned ahead of the leader, and a new generation
 * bred from the most distant car once every car has crashed or stalled.
 */
module Evolution {
  import opened Utils
  import opened Network
  import opened Controls
  import opened Roads
  import opened Cars

  // ---------------------------------------------------------------------------
  // Constants of the simulation
  // ---------------------------------------------------------------------------

  /** `lineCount`: the road has three lanes. */
  const LineCount: nat := 3
  /** `generateAICars(500)`: the size argument of every generation. */
  const PopulationSize: nat := 500
  /** Every smart car has ten sensor rays. */
  const RayCount: nat := 10
  /** How far the children's networks move towards fresh random values. */
  const MutationAmount: real := 0.5
  /** A car standing still for longer than this (in ms) is dropped. */
  const StallLimit: real := 2000.0
  /** Traffic is spawned at most once per this many ms. */
  const TrafficInterval: real := 1000.0
  /** Traffic appears this far ahead of the leader. */
  const TrafficLead: real := 4000.0

  /** `new Road(simCanvas.width * .5, simCanvas.width * .5, lineCount)` with a 350 px canvas. */
  function SimulationRoad(): (r: Road)
    ensures r.laneCount == LineCount
  {
    NewRoad(175.0, 175.0, LineCount)
  }

  /** The constant fields of every smart car: 30 × 50, maximum speed 6. */
  function SmartBody(): Physics
  {
    Physics(30.0, 50.0, 6.0, Acceleration, Friction, TurningSpeed)
  }

  /** A smart car as `generateAICars` builds it: at rest in the middle lane at y = 100, stopped since now. */
  function Newborn(now: real, env: Env): (s: CarState)
    ensures s.x == 175.0 && s.y == 100.0 && s.speed == 0.0 && !s.damaged
  {
    SimulationRoadMiddleLane();
    var x := SimulationRoad().LineCenter(1);
    CarState(x, 100.0, 0.0, 0.0, Outline(x, 100.0, 0.0, 30.0, 50.0, env), false, Some(now), StaticControl())
  }

  // ---------------------------------------------------------------------------
  // Lists of cars
  // ---------------------------------------------------------------------------

  /** No car occurs twice. */
  predicate Distinct(cs: seq<Car>)
  {
    forall i, j :: 0 <= i < j < |cs| ==> cs[i] != cs[j]
  }

  /** Cars i and j of the list, if they are two different positions, share no object. */
  ghost predicate ApartAt(cs: seq<Car>, i: int, j: int)
    reads cs
  {
    0 <= i < |cs| && 0 <= j < |cs| && i != j ==> cs[i].Repr() !! cs[j].Repr()
  }

  /**
   * Different cars share no object: updating one never disturbs another.
   * A proof names the pair it needs through `ApartAt` (see `SeparateAt`).
   */
  ghost predicate Separate(cs: seq<Car>)
    reads cs
  {
    forall i, j :: ApartAt(cs, i, j)
  }

  /** Two different positions of a separate list hold cars with no shared object. */
  lemma SeparateAt(cs: seq<Car>, i: int, j: int)
    requires Separate(cs) && 0 <= i < |cs| && 0 <= j < |cs| && i != j
    ensures cs[i].Repr() !! cs[j].Repr()
  {
    assert ApartAt(cs, i, j);
  }

  /** Every object of every listed car. */
  ghost function Footprint(cs: seq<Car>): set<object>
    reads set c | c in cs
  {
    set i, o | 0 <= i < |cs| && o in cs[i].Repr() :: o
  }

  /** A car has stood still (speed at most 0.5) for more than 2000 ms. */
  predicate Stalled(stoppedAt: Option<real>, now: real)
    ensures stoppedAt.None? || now <= stoppedAt.value + StallLimit ==> !Stalled(stoppedAt, now)
  {
    stoppedAt.Some? && now - stoppedAt.value > StallLimit
  }

  /** The three tests the loop filters its lists with. */
  datatype Sieve =
    | NotDamaged                         // `c => !c.damaged`
    | NotStalled(now: real)              // `c => !(c.stoppedAt != null && now - c.stoppedAt > 2000)`
    | NotLeftBehind(maxY: Option<real>)  // `t => t.y < Math.max(...ys)`; no ys is -Infinity

  predicate Passes(c: Car, t: Sieve)
    reads c
    ensures t == NotLeftBehind(None) ==> !Passes(c, t)
  {
    match t
    case NotDamaged => !c.damaged
    case NotStalled(now) => !Stalled(c.stoppedAt, now)
    case NotLeftBehind(maxY) => maxY.Some? && c.y < maxY.value
  }

  /** `cs.filter(...)`: the cars that pass, in their original order. */
  function Filter(cs: seq<Car>, t: Sieve): (r: seq<Car>)
    reads cs
    ensures forall c :: c in r ==> c in cs
    ensures forall c :: c in cs ==> (c in r <==> Passes(c, t))
    ensures |r| <= |cs|
  {
    if cs == [] then []
    else if Passes(cs[0], t) then [cs[0]] + Filter(cs[1..], t)
    else Filter(cs[1..], t)
  }

  /**
   * Filtering distributes over concatenation; with FilterSingle this pins
   * down the order `filter` keeps.
   */
  lemma {:induction false} FilterAppend(a: seq<Car>, b: seq<Car>, t: Sieve)
    ensures Filter(a + b, t) == Filter(a, t) + Filter(b, t)
  {
    if a == [] {
      assert a + b == b;
    } else {
      assert (a + b)[0] == a[0];
      assert (a + b)[1..] == a[1..] + b;
      FilterAppend(a[1..], b, t);
    }
  }

  /** A single car comes through exactly when it passes. */
  lemma FilterSingle(c: Car, t: Sieve)
    ensures Filter([c], t) == if Passes(c, t) then [c] else []
  {
    assert [c][1..] == [];
  }

  /** A list whose every car passes comes through unchanged. */
  lemma {:induction false} FilterKeepsAll(cs: seq<Car>, t: Sieve)
    requires forall c :: c in cs ==> Passes(c, t)
    ensures Filter(cs, t) == cs
  {
    if cs != [] {
      FilterKeepsAll(cs[1..], t);
    }
  }

  /** The survivors `updateCars` keeps: first the undamaged cars, then of those the ones not stalled. */
  function Survivors(cs: seq<Car>, now: real): (r: seq<Car>)
    reads set c | c in cs
    ensures forall c :: c in r ==> c in cs
    ensures forall c :: c in cs ==> (c in r <==> !c.damaged && !Stalled(c.stoppedAt, now))
  {
    var intact := Filter(cs, NotDamaged);
    Filter(intact, NotStalled(now))
  }

  /** `Math.max(...cs.map(c => c.y))`, with None for the empty list. */
  function MaxY(cs: seq<Car>): (m: Option<real>)
    reads cs
    ensures m.None? <==> cs == []
    ensures m.Some? ==> (forall c :: c in cs ==> c.y <= m.value) && exists c :: c in cs && c.y == m.value
  {
    if cs == [] then None
    else
      match MaxY(cs[1..])
      case None => Some(cs[0].y)
      case Some(m) => Some(if cs[0].y > m then cs[0].y else m)
  }

  /** `Math.min(...cs.map(c => c.y))`, with None for the empty list. */
  function MinY(cs: seq<Car>): (m: Option<real>)
    reads cs
    ensures m.None? <==> cs == []
    ensures m.Some? ==> (forall c :: c in cs ==> m.value <= c.y) && exists c :: c in cs && c.y == m.value
  {
    if cs == [] then None
    else
      match MinY(cs[1..])
      case None => Some(cs[0].y)
      case Some(m) => Some(if cs[0].y < m then cs[0].y else m)
  }

  /** The index `find(c => c.y == y)` stops at; |cs| when no car is at y. */
  function FirstAt(cs: seq<Car>, y: real): (i: nat)
    reads cs
    ensures i <= |cs|
    ensures i < |cs| ==> cs[i].y == y
    ensures forall j :: 0 <= j < i ==> cs[j].y != y
    ensures i == |cs| ==> forall c :: c in cs ==> c.y != y
  {
    if cs == [] then 0
    else if cs[0].y == y then 0
    else 1 + FirstAt(cs[1..], y)
  }

  /**
   * `findLongestSurvivor`: the first car furthest up the road (least y), or
   * None (the source's `undefined`) when no car is left.
   */
  function LongestSurvivor(cs: seq<Car>): (r: Option<Car>)
    reads cs
    ensures r.None? <==> cs == []
    ensures r.Some? ==> r.value in cs && forall c :: c in cs ==> r.value.y <= c.y
  {
    if cs == [] then None
    else Some(cs[FirstAt(cs, MinY(cs).value)])
  }

  /** Every car before the longest survivor is strictly further back. */
  lemma LongestSurvivorIsFirst(cs: seq<Car>, i: nat)
    requires i < |cs| && LongestSurvivor(cs) == Some(cs[i])
    requires Distinct(cs)
    ensures forall j :: 0 <= j < i ==> cs[j].y > cs[i].y
  {
    var k := FirstAt(cs, MinY(cs).value);
    assert cs[k] == cs[i];
  }

  /** Traffic is kept exactly while some car is still behind it. */
  lemma KeptWhileACarIsBehind(cs: seq<Car>, t: Car)
    ensures Passes(t, NotLeftBehind(MaxY(cs))) <==> exists c :: c in cs && t.y < c.y
  {
  }

  // ---------------------------------------------------------------------------
  // The seed of the next generation
  // ---------------------------------------------------------------------------

  /**
   * Line 30 of `animate` keeps the most distant car by reference, and that car
   * goes on driving: one that reverses after it became the seed is still the
   * seed a frame later, but further back. A smart car at y = 99.5 reversing at
   * 0.5 with nothing near it survives its next tick 0.58 further back, and
   * when it is also the leader `Simulation.Advance` keeps it as the seed,
   * since it is not strictly ahead of itself.
   */
  lemma SeedCanRecede(ps: seq<LevelParams>, now: real, env: Env)
    requires Drivable(Kind.Smart(RayCount), ps, env)
    requires env.sin(0.0) == 0.0 && env.cos(0.0) == 1.0
    ensures var s := CarState(175.0, 99.5, -0.5, 0.0, [], false, None, Flags(false, true, false, false));
      var t := Ticked(s, SmartBody(), Kind.Smart(RayCount), ps, [], [], now, env);
      && !t.damaged && !Stalled(t.stoppedAt, now)
      && t.y == s.y + 0.58
  {
  }

  /**
   * The seed as a record of the best value reached: the smallest y over the
   * start and the leaders' positions `ys` of successive frames.
   */
  function RecordY(start: real, ys: seq<real>): (b: real)
    ensures b <= start && (b == start || b in ys)
    ensures forall k :: 0 <= k < |ys| ==> b <= ys[k]
  {
    if ys == [] then start
    else
      var b := RecordY(start, ys[..|ys| - 1]);
      var y := ys[|ys| - 1];
      if y < b then y else b
  }

  /** A recorded seed never moves back: one more frame keeps it or moves it to the new leader, further up. */
  lemma RecordNeverRecedes(start: real, ys: seq<real>, y: real)
    ensures RecordY(start, ys + [y]) <= RecordY(start, ys)
    ensures RecordY(start, ys + [y]) == RecordY(start, ys) || RecordY(start, ys + [y]) == y < RecordY(start, ys)
  {
    assert (ys + [y])[..|ys|] == ys;
  }

  // ---------------------------------------------------------------------------
  // Spawning traffic
  // ---------------------------------------------------------------------------

  /** `Math.floor(Math.random() * lineCount)`: the lane a new traffic car takes. */
  function TrafficLane(r: real): (lane: int)
    ensures lane as real <= r * LineCount as real < lane as real + 1.0
  {
    (r * LineCount as real).Floor
  }

  /** `Math.floor(Math.random() * 2)`: the maximum speed of a new traffic car. */
  function TrafficMaxSpeed(r: real): (s: real)
    ensures 0.0 <= r < 1.0 ==> (s == 0.0 <==> r < 0.5) && (s == 1.0 <==> r >= 0.5)
  {
    (r * 2.0).Floor as real
  }

  /**
   * With a draw in [0, 1), as Math.random gives, the lane is one of the three
   * and its centre lies strictly inside the road.
   */
  lemma TrafficLaneOnRoad(r: real)
    requires 0.0 <= r < 1.0
    ensures 0 <= TrafficLane(r) < LineCount
    ensures var road := SimulationRoad(); road.left < road.LineCenter(TrafficLane(r)) < road.right
  {
    var k := TrafficLane(r);
    assert 0 <= k < 3;
    LaneCentreInside(175.0, 175.0, LineCount, k);
  }

  /**
   * With a draw in [0, 1) a traffic car's maximum speed is 0 or 1; half of
   * them, those with 0, never move however long they drive forward.
   */
  lemma TrafficSpeeds(r: real, speed: real)
    requires 0.0 <= r < 1.0
    ensures TrafficMaxSpeed(r) == 0.0 || TrafficMaxSpeed(r) == 1.0
    ensures TrafficMaxSpeed(r) == 0.0 ==>
      NextSpeed(speed, Physics(30.0, 50.0, 0.0, Acceleration, Friction, TurningSpeed), AlwaysForwardControls()) == 0.0
  {
    ZeroMaxSpeedNeverMoves(speed, Physics(30.0, 50.0, 0.0, Acceleration, Friction, TurningSpeed), AlwaysForwardControls());
  }

  // ---------------------------------------------------------------------------
  // Generations
  // ---------------------------------------------------------------------------

  /** The network shape of every smart car: 10 inputs, 6 hidden, 4 outputs. */
  function SmartCounts(): seq<nat>
  {
    SmartNetCounts(RayCount)
  }

  /** The draws one smart car's constructor spends on its network. */
  const SmartDraws: nat := 94

  /** Building a [10, 6, 4] network takes 10·6 + 6 + 6·4 + 4 = 94 draws. */
  lemma SmartNetDraws()
    ensures NetDraws(SmartCounts()) == SmartDraws
  {
    assert DrawsBeforeLevel(SmartCounts(), 1) == 66;
  }

  /** The parameters a child gets: fresh random ones, or the parent's mutated after those draws. */
  ghost function ChildNet(parent: Option<seq<LevelParams>>, draw: Draws, at: nat): seq<LevelParams>
    requires parent.Some? ==> Chained(parent.value)
  {
    match parent
    case None => RandomizedNet(SmartCounts(), draw, at)
    case Some(ps) => MutatedNet(ps, MutationAmount, draw, at + SmartDraws)
  }

  /** Draws one child consumes: its own random network, then, with a parent, the mutation of the clone. */
  ghost function Stride(parent: Option<seq<LevelParams>>): nat
  {
    match parent
    case None => SmartDraws
    case Some(ps) => SmartDraws + DrawsBefore(ps, |ps|)
  }

  /** A parent fit to breed from: a valid smart car with ten rays. */
  ghost predicate Breeder(parent: Option<Car>)
    reads if parent.Some? then {parent.value} else {}
  {
    parent.Some? ==> parent.value.Valid() && parent.value.kind == Kind.Smart(RayCount)
  }

  /** The parent's network parameters, if there is a parent. */
  ghost function ParentNet(parent: Option<Car>): (pp: Option<seq<LevelParams>>)
    requires Breeder(parent)
    reads if parent.Some? then {parent.value} + parent.value.Repr() else {}
    ensures pp.Some? <==> parent.Some?
    ensures pp.Some? ==> Chained(pp.value)
  {
    if parent.Some? then Some(parent.value.Net()) else None
  }

  /** A network a ten-ray smart car can adopt. */
  ghost predicate FitsSmartCar(ai: NNetwork)
  {
    ai.Valid() && |ai.levels| >= 1 && ai.levels[0].inputs.Length == RayCount
  }

  /** `parent.getAI()`, for a parent that may be missing. */
  function Brain(parent: Option<Car>): (ai: Option<NNetwork>)
    requires Breeder(parent)
    reads if parent.Some? then {parent.value} else {}
    ensures ai.Some? <==> parent.Some?
    ensures ai.Some? ==> FitsSmartCar(ai.value) && ai.value == parent.value.controls.nn.ai
  {
    if parent.Some? then Some(parent.value.controls.nn.ai) else None
  }

  /** The parent's network, read through `getAI()`, has the parent's parameters. */
  lemma BrainOfParent(parent: Option<Car>)
    requires Breeder(parent)
    ensures BrainNet(Brain(parent)) == ParentNet(parent)
  {
  }

  /** The parameters of a network that may be missing. */
  ghost function BrainNet(ai: Option<NNetwork>): (pp: Option<seq<LevelParams>>)
    requires ai.Some? ==> ai.value.Valid()
    reads if ai.Some? then ai.value.ParamArrays else {}
    ensures pp.Some? <==> ai.Some?
    ensures pp.Some? ==> Chained(pp.value)
  {
    if ai.Some? then Some(ai.value.Params()) else None
  }

  /**
   * One iteration of `generateAICars`: a new SmartCar (whose constructor draws
   * a random network), and with a parent network a mutated deep copy of it in
   * place of that one.
   */
  method NewChild(parent: Option<NNetwork>, now: real, draw: Draws, start: nat, env: Env) returns (car: Car, next: nat)
    requires parent.Some? ==> FitsSmartCar(parent.value)
    ensures fresh(car.Repr()) && car.Valid() && car.kind == Kind.Smart(RayCount)
    ensures car.Body() == SmartBody() && car.State() == Newborn(now, env)
    ensures car.Net() == ChildNet(old(BrainNet(parent)), draw, start)
    ensures next == start + Stride(old(BrainNet(parent)))
  {
    if parent.Some? {
      car, next := MutatedChild(parent.value, parent.value.Params(), now, draw, start, start + SmartDraws, env);
    } else {
      car := new Car.Smart(SimulationRoad().LineCenter(1), 100.0, 30.0, 50.0, 6.0, RayCount, now, draw, start, env);
      next := start + SmartDraws;
    }
  }

  /** A child of a parent network: a new SmartCar whose random network is replaced by the parent's, mutated. */
  method MutatedChild(ai: NNetwork, ghost pp: seq<LevelParams>, now: real, draw: Draws, start: nat, at: nat, env: Env)
      returns (car: Car, next: nat)
    requires FitsSmartCar(ai) && pp == ai.Params()
    ensures fresh(car.Repr())
    ensures car.Valid()
    ensures car.kind == Kind.Smart(RayCount)
    ensures car.Body() == SmartBody() && car.State() == Newborn(now, env)
    ensures car.Net() == MutatedNet(pp, MutationAmount, draw, at)
    ensures next == at + DrawsBefore(pp, |pp|)
  {
    car := Unbred(now, draw, start, env);
    assert car in car.Repr();
    label Born:
    next := Rebrain(car, ai, pp, draw, at);
    forall o | o in car.Repr() ensures fresh(o) {
      if o != car {
        assert !old@Born(allocated(o));
      }
    }
  }

  /**
   * Lines 61-63 of `generateAICars` on a car just built: its network becomes
   * a mutated deep copy of the parent's, in a new control, and nothing else
   * about the car changes.
   */
  method Rebrain(car: Car, ai: NNetwork, ghost pp: seq<LevelParams>, draw: Draws, at: nat) returns (next: nat)
    requires FitsSmartCar(ai) && pp == ai.Params()
    requires car.Valid() && car.kind == Kind.Smart(RayCount) && car.State().flags == StaticControl()
    modifies car
    ensures car.Valid() && car in car.Repr()
    ensures forall o :: o in car.Repr() ==> o == car || fresh(o)
    ensures car.State() == old(car.State())
    ensures car.Net() == MutatedNet(pp, MutationAmount, draw, at)
    ensures next == at + DrawsBefore(pp, |pp|)
  {
    var nn; ghost var fp;
    nn, next, fp := MutatedClone(ai, draw, at);
    car.Adopt(nn);
    forall o | o in car.Repr() ensures o == car || fresh(o) {
      if o != car {
        assert o in fp;
      }
    }
  }

  /** Line 59 of `generateAICars`, before the network is replaced: its random draws are spent all the same. */
  method Unbred(now: real, draw: Draws, start: nat, env: Env) returns (car: Car)
    ensures fresh(car.Repr()) && car.Valid() && car.kind == Kind.Smart(RayCount)
    ensures car.Body() == SmartBody() && car.State() == Newborn(now, env)
  {
    car := new Car.Smart(SimulationRoad().LineCenter(1), 100.0, 30.0, 50.0, 6.0, RayCount, now, draw, start, env);
  }

  /**
   * Lines 61-63 of `generateAICars`: a deep copy of the parent's network,
   * mutated by 0.5, in a new control whose flags start false.
   */
  method MutatedClone(ai: NNetwork, draw: Draws, start: nat) returns (nn: NNControl, next: nat, ghost fp: set<object>)
    requires ai.Valid()
    ensures fp == {nn} + nn.ai.Signals + nn.ai.ParamArrays && fresh(fp)
    ensures nn.ai.Valid() && |nn.ai.levels| == |ai.levels|
    ensures forall k :: 0 <= k < |ai.levels| ==> nn.ai.levels[k].inputs.Length == ai.levels[k].inputs.Length
    ensures nn.ai.Params() == MutatedNet(old(ai.Params()), MutationAmount, draw, start)
    ensures nn.Current() == StaticControl()
    ensures next == start + DrawsBefore(old(ai.Params()), |ai.levels|)
  {
    var clone := new NNetwork.Copy(ai);
    ghost var arrays: set<object> := clone.Signals + clone.ParamArrays;
    assert fresh(arrays);
    next := clone.Mutate(MutationAmount, draw, start);
    nn := new NNControl(clone);
    fp := {nn} + arrays;
    forall o | o in fp ensures fresh(o) {
      if o != nn {
        assert o in arrays;
      }
    }
  }

  /** The first draw of child j when every child takes `stride` draws from `start` on. */
  function Offset(start: nat, stride: nat, j: nat): nat
  {
    if j == 0 then start else Offset(start, stride, j - 1) + stride
  }

  lemma OffsetStep(start: nat, stride: nat, j: nat)
    ensures Offset(start, stride, j + 1) == Offset(start, stride, j) + stride
  {
  }

  /** Child j starts j strides past the first draw. */
  lemma {:induction false} OffsetIsLinear(start: nat, stride: nat, j: nat)
    ensures Offset(start, stride, j) == start + j * stride
  {
    if j > 0 {
      OffsetIsLinear(start, stride, j - 1);
      assert (j - 1) * stride + stride == j * stride;
    }
  }

  /** A car whose footprint is disjoint from every listed car's keeps the list separate when appended. */
  lemma SeparateAppend(cs: seq<Car>, car: Car)
    requires Separate(cs)
    requires forall i :: 0 <= i < |cs| ==> cs[i].Repr() !! car.Repr()
    ensures Separate(cs + [car])
  {
    var ds := cs + [car];
    forall i, j
      ensures ApartAt(ds, i, j)
    {
      if 0 <= i < |cs| && 0 <= j < |cs| && i != j {
        SeparateAt(cs, i, j);
      }
    }
  }

  /** A car disjoint from every listed car keeps the list separate when put in front. */
  lemma SeparatePrepend(car: Car, cs: seq<Car>)
    requires Separate(cs)
    requires forall i :: 0 <= i < |cs| ==> cs[i].Repr() !! car.Repr()
    ensures Separate([car] + cs)
  {
    var ds := [car] + cs;
    forall i, j
      ensures ApartAt(ds, i, j)
    {
      if 1 <= i < |ds| && 1 <= j < |ds| && i != j {
        SeparateAt(cs, i - 1, j - 1);
      }
    }
  }

  /** A car as child j of a generation is born: a valid ten-ray smart car at the start line with the given network. */
  ghost predicate Child(c: Car, net: seq<LevelParams>, now: real, env: Env)
    reads c, c.Repr()
  {
    && c.Valid() && c.kind == Kind.Smart(RayCount)
    && c.Body() == SmartBody() && c.State() == Newborn(now, env)
    && c.Net() == net
  }

  /**
   * The cars born in one generation: car j is a child with the network
   * drawn on the j-th stride from `start`.
   */
  ghost predicate Newborns(kids: seq<Car>, pp: Option<seq<LevelParams>>, draw: Draws, start: nat, now: real, env: Env)
    requires pp.Some? ==> Chained(pp.value)
    reads (set i | 0 <= i < |kids| :: kids[i]), Footprint(kids)
  {
    forall j :: 0 <= j < |kids| ==> Child(kids[j], ChildNet(pp, draw, Offset(start, Stride(pp), j)), now, env)
  }

  /**
   * `generateAICars(n, parent)`: n + 1 cars either way. With a parent it comes
   * first, unchanged, followed by n children; without one all n + 1 are new.
   * New car j consumes the j-th stride of draws.
   */
  method GenerateAICars(n: nat, parent: Option<Car>, now: real, draw: Draws, start: nat, env: Env)
      returns (cs: seq<Car>, next: nat)
    requires Breeder(parent)
    ensures |cs| == n + 1 && Fleet(cs, Kind.Smart(RayCount))
    ensures parent.Some? ==>
      && cs[0] == parent.value && fresh(Footprint(cs[1..]))
      && Newborns(cs[1..], old(ParentNet(parent)), draw, start, now, env)
      && next == Offset(start, Stride(old(ParentNet(parent))), n)
    ensures parent.None? ==>
      && fresh(Footprint(cs)) && Newborns(cs, None, draw, start, now, env)
      && next == Offset(start, Stride(None), n + 1)
  {
    if parent.Some? {
      cs, next := Offspring(n, parent.value, now, draw, start, env);
    } else {
      cs, next := Founders(n + 1, now, draw, start, env);
    }
  }

  /** `generateAICars` without a parent: n cars with random networks. */
  method Founders(n: nat, now: real, draw: Draws, start: nat, env: Env)
      returns (cs: seq<Car>, next: nat)
    ensures |cs| == n && Fleet(cs, Kind.Smart(RayCount))
    ensures fresh(Footprint(cs))
    ensures Newborns(cs, None, draw, start, now, env)
    ensures next == Offset(start, Stride(None), n)
  {
    cs, next := Children(n, None, {}, now, draw, start, env);
    NewbornsAreSmart(cs, None, draw, start, now, env);
  }

  /** `generateAICars(n, parent)` with a parent: the parent, then n children of its network. */
  method Offspring(n: nat, parent: Car, now: real, draw: Draws, start: nat, env: Env)
      returns (cs: seq<Car>, next: nat)
    requires Breeder(Some(parent))
    ensures |cs| == n + 1 && cs[0] == parent && Fleet(cs, Kind.Smart(RayCount))
    ensures fresh(Footprint(cs[1..]))
    ensures Newborns(cs[1..], old(ParentNet(Some(parent))), draw, start, now, env)
    ensures next == Offset(start, Stride(old(ParentNet(Some(parent)))), |cs| - 1)
  {
    var ai := Brain(Some(parent));
    BrainOfParent(Some(parent));
    ghost var pp := ParentNet(Some(parent));
    var kids;
    kids, next := Children(n, ai, parent.Repr(), now, draw, start, env);
    ParentFirst(parent, kids, pp, draw, start, now, env);
    cs := [parent] + kids;
    assert cs[1..] == kids;
  }

  /** A smart parent ahead of its newborns, none sharing an object with it, makes a fleet. */
  lemma ParentFirst(parent: Car, kids: seq<Car>, pp: Option<seq<LevelParams>>, draw: Draws, start: nat, now: real, env: Env)
    requires parent.Valid() && parent.kind == Kind.Smart(RayCount)
    requires Separate(kids) && Footprint(kids) !! parent.Repr()
    requires pp.Some? ==> Chained(pp.value)
    requires Newborns(kids, pp, draw, start, now, env)
    ensures Fleet([parent] + kids, Kind.Smart(RayCount))
  {
    NewbornsAreSmart(kids, pp, draw, start, now, env);
    FootprintApart(kids, parent.Repr());
    SeparatePrepend(parent, kids);
    var cs := [parent] + kids;
    forall i | 0 <= i < |cs|
      ensures cs[i].Valid() && cs[i].kind == Kind.Smart(RayCount)
    {
      if i > 0 {
        assert cs[i] == kids[i - 1];
      }
    }
  }

  /** Every newborn is a valid ten-ray smart car. */
  lemma NewbornsAreSmart(kids: seq<Car>, pp: Option<seq<LevelParams>>, draw: Draws, start: nat, now: real, env: Env)
    requires pp.Some? ==> Chained(pp.value)
    requires Newborns(kids, pp, draw, start, now, env)
    ensures forall i :: 0 <= i < |kids| ==> kids[i].Valid() && kids[i].kind == Kind.Smart(RayCount)
  {
    forall i | 0 <= i < |kids|
      ensures kids[i].Valid() && kids[i].kind == Kind.Smart(RayCount)
    {
      assert Child(kids[i], ChildNet(pp, draw, Offset(start, Stride(pp), i)), now, env);
    }
  }

  /** The networks of the first n children, child j on the j-th stride of draws. */
  ghost function Brood(pp: Option<seq<LevelParams>>, draw: Draws, start: nat, stride: nat, n: nat): (r: seq<seq<LevelParams>>)
    requires pp.Some? ==> Chained(pp.value)
    ensures |r| == n
  {
    if n == 0 then [] else Brood(pp, draw, start, stride, n - 1) + [ChildNet(pp, draw, Offset(start, stride, n - 1))]
  }

  lemma BroodStep(pp: Option<seq<LevelParams>>, draw: Draws, start: nat, stride: nat, n: nat)
    requires pp.Some? ==> Chained(pp.value)
    ensures Brood(pp, draw, start, stride, n + 1) == Brood(pp, draw, start, stride, n) + [ChildNet(pp, draw, Offset(start, stride, n))]
  {
  }

  lemma {:induction false} BroodAt(pp: Option<seq<LevelParams>>, draw: Draws, start: nat, stride: nat, n: nat, k: nat)
    requires pp.Some? ==> Chained(pp.value)
    requires k < n
    ensures Brood(pp, draw, start, stride, n)[k] == ChildNet(pp, draw, Offset(start, stride, k))
  {
    if k < n - 1 {
      BroodAt(pp, draw, start, stride, n - 1, k);
    }
  }

  /** Cars born with the networks of a brood carry the networks child by child. */
  lemma Relabel(kids: seq<Car>, nets: seq<seq<LevelParams>>, pp: Option<seq<LevelParams>>,
      draw: Draws, start: nat, now: real, env: Env)
    requires pp.Some? ==> Chained(pp.value)
    requires nets == Brood(pp, draw, start, Stride(pp), |kids|)
    requires Hatched(kids, nets, now, env)
    ensures Newborns(kids, pp, draw, start, now, env)
  {
    forall k | 0 <= k < |kids|
      ensures Child(kids[k], ChildNet(pp, draw, Offset(start, Stride(pp), k)), now, env)
    {
      BroodAt(pp, draw, start, Stride(pp), |kids|, k);
    }
  }

  /** The loop of `generateAICars`: `count` new children, each on its own stride of draws. */
  method Children(count: nat, parent: Option<NNetwork>, ghost elders: set<object>, now: real, draw: Draws, start: nat, env: Env)
      returns (kids: seq<Car>, next: nat)
    requires parent.Some? ==> FitsSmartCar(parent.value)
    ensures |kids| == count
    ensures Separate(kids)
    ensures fresh(Footprint(kids)) && Footprint(kids) !! elders
    ensures Newborns(kids, old(BrainNet(parent)), draw, start, now, env)
    ensures next == Offset(start, Stride(old(BrainNet(parent))), count)
  {
    ghost var pp := BrainNet(parent);
    ghost var nets, owned;
    kids, next, nets, owned := Hatch(count, parent, pp, elders, now, draw, start, env);
    Relabel(kids, nets, pp, draw, start, now, env);
  }

  /** The loop itself, with the networks it hands out and the objects it allocates. */
  method Hatch(count: nat, parent: Option<NNetwork>, ghost pp: Option<seq<LevelParams>>, ghost elders: set<object>,
      now: real, draw: Draws, start: nat, env: Env)
      returns (kids: seq<Car>, next: nat, ghost nets: seq<seq<LevelParams>>, ghost owned: set<object>)
    requires parent.Some? ==> FitsSmartCar(parent.value)
    requires BrainNet(parent) == pp
    ensures |kids| == count && nets == Brood(pp, draw, start, Stride(pp), count)
    ensures Separate(kids) && Hatched(kids, nets, now, env)
    ensures fresh(owned) && owned !! elders && Footprint(kids) <= owned
    ensures next == Offset(start, Stride(pp), count)
  {
    ghost var stride := Stride(pp);
    owned := {};
    nets := [];
    kids := [];
    next := start;
    while |kids| < count
      invariant |kids| <= count && nets == Brood(pp, draw, start, stride, |kids|)
      invariant Separate(kids) && Hatched(kids, nets, now, env)
      invariant fresh(owned) && owned !! elders && Footprint(kids) <= owned
      invariant next == Offset(start, stride, |kids|)
      invariant BrainNet(parent) == pp
    {
      ghost var before := owned;
      label Before:
      kids, next, nets, owned := Grow(kids, next, nets, owned, parent, pp, now, draw, start, env);
      forall o | o in owned
        ensures fresh(o)
      {
        if o !in before {
          assert !old@Before(allocated(o));
        }
      }
    }
  }

  /** Cars built so far, each a child with its own network. */
  ghost predicate Hatched(kids: seq<Car>, nets: seq<seq<LevelParams>>, now: real, env: Env)
    reads (set i | 0 <= i < |kids| :: kids[i]), Footprint(kids)
  {
    |nets| == |kids| && forall k :: 0 <= k < |kids| ==> Child(kids[k], nets[k], now, env)
  }

  lemma HatchedAppend(kids: seq<Car>, nets: seq<seq<LevelParams>>, car: Car, net: seq<LevelParams>, now: real, env: Env)
    requires Hatched(kids, nets, now, env) && Child(car, net, now, env)
    ensures Hatched(kids + [car], nets + [net], now, env)
  {
    assert forall k :: 0 <= k < |kids| ==> (kids + [car])[k] == kids[k] && (nets + [net])[k] == nets[k];
  }

  /** Every listed car's objects lie in the footprint. */
  lemma InFootprint(cs: seq<Car>, i: nat)
    requires i < |cs|
    ensures cs[i].Repr() <= Footprint(cs)
  {
  }

  /** `InFootprint`, in the state before a change. */
  twostate lemma InOldFootprint(cs: seq<Car>, new i: nat)
    requires i < |cs|
    ensures old(cs[i].Repr()) <= old(Footprint(cs))
  {
  }

  /** The footprint of a list is its head's objects and the footprint of the rest. */
  lemma FootprintHead(cs: seq<Car>)
    requires |cs| > 0
    ensures Footprint(cs) == cs[0].Repr() + Footprint(cs[1..])
  {
    var rest := cs[1..];
    forall o | o in Footprint(cs)
      ensures o in cs[0].Repr() + Footprint(rest)
    {
      var i :| 0 <= i < |cs| && o in cs[i].Repr();
      if i > 0 {
        assert rest[i - 1] == cs[i];
      }
    }
    forall o | o in cs[0].Repr() + Footprint(rest)
      ensures o in Footprint(cs)
    {
      if o !in cs[0].Repr() {
        var i :| 0 <= i < |rest| && o in rest[i].Repr();
        assert cs[i + 1] == rest[i];
      }
    }
  }

  /** The footprint grows by the footprint of the appended car. */
  lemma FootprintAppend(cs: seq<Car>, car: Car)
    ensures Footprint(cs + [car]) == Footprint(cs) + car.Repr()
  {
    var ds := cs + [car];
    forall o | o in Footprint(ds)
      ensures o in Footprint(cs) + car.Repr()
    {
      var i :| 0 <= i < |ds| && o in ds[i].Repr();
      if i < |cs| {
        assert ds[i] == cs[i];
      }
    }
    forall o | o in Footprint(cs) + car.Repr()
      ensures o in Footprint(ds)
    {
      if o in car.Repr() {
        assert ds[|cs|] == car;
      } else {
        var i :| 0 <= i < |cs| && o in cs[i].Repr();
        assert ds[i] == cs[i];
      }
    }
  }

  /** Cars whose footprint avoids a set each avoid it. */
  lemma FootprintApart(cs: seq<Car>, s: set<object>)
    requires Footprint(cs) !! s
    ensures forall i :: 0 <= i < |cs| ==> cs[i].Repr() !! s
  {
    forall i | 0 <= i < |cs|
      ensures cs[i].Repr() !! s
    {
      forall o | o in cs[i].Repr()
        ensures o in Footprint(cs)
      {
      }
    }
  }

  /** One pass of the loop: one more child, on the next stride of draws. */
  method Grow(kids: seq<Car>, next: nat, ghost nets: seq<seq<LevelParams>>, ghost owned: set<object>,
      parent: Option<NNetwork>, ghost pp: Option<seq<LevelParams>>, now: real, draw: Draws, ghost start: nat, env: Env)
      returns (kids': seq<Car>, next': nat, ghost nets': seq<seq<LevelParams>>, ghost owned': set<object>)
    requires parent.Some? ==> FitsSmartCar(parent.value)
    requires BrainNet(parent) == pp
    requires nets == Brood(pp, draw, start, Stride(pp), |kids|) && next == Offset(start, Stride(pp), |kids|)
    requires Separate(kids) && Hatched(kids, nets, now, env) && Footprint(kids) <= owned
    ensures |kids'| == |kids| + 1 && kids'[..|kids|] == kids
    ensures nets' == Brood(pp, draw, start, Stride(pp), |kids'|) && next' == Offset(start, Stride(pp), |kids'|)
    ensures Separate(kids') && Hatched(kids', nets', now, env) && Footprint(kids') <= owned'
    ensures owned <= owned' && fresh(owned' - owned)
    ensures BrainNet(parent) == pp
  {
    var car;
    label Start:
    car, next' := NewChild(parent, now, draw, next, env);
    BroodKept@Start(kids, nets, now, env);
    Extend(kids, nets, car, ChildNet(pp, draw, next), owned, now, env);
    OffsetStep(start, Stride(pp), |kids|);
    BroodStep(pp, draw, start, Stride(pp), |kids|);
    kids' := kids + [car];
    nets' := nets + [ChildNet(pp, draw, next)];
    owned' := owned + car.Repr();
  }

  /** Children built so far stay those children while no object that existed changes. */
  twostate lemma BroodKept(kids: seq<Car>, new nets: seq<seq<LevelParams>>, new now: real, new env: Env)
    requires old(Separate(kids)) && old(Hatched(kids, nets, now, env))
    requires forall o: object {:trigger old(allocated(o))} :: old(allocated(o)) ==> unchanged(o)
    ensures Separate(kids) && Hatched(kids, nets, now, env) && Footprint(kids) == old(Footprint(kids))
  {
    forall k | 0 <= k < |kids|
      ensures kids[k].Repr() == old(kids[k].Repr()) && Child(kids[k], nets[k], now, env)
    {
      forall o | o in old(kids[k].Repr())
        ensures unchanged(o)
      {
        assert old(allocated(o));
      }
    }
    forall i, j
      ensures ApartAt(kids, i, j)
    {
      assert old(ApartAt(kids, i, j));
    }
  }

  /** What appending one more child, allocated apart from the others, keeps of the loop's facts. */
  lemma Extend(kids: seq<Car>, nets: seq<seq<LevelParams>>, car: Car, net: seq<LevelParams>, owned: set<object>, now: real, env: Env)
    requires Separate(kids) && Hatched(kids, nets, now, env) && Footprint(kids) <= owned
    requires Child(car, net, now, env) && car !in kids && owned !! car.Repr()
    ensures Separate(kids + [car])
    ensures Hatched(kids + [car], nets + [net], now, env)
    ensures Footprint(kids + [car]) <= owned + car.Repr()
  {
    FootprintApart(kids, car.Repr());
    SeparateAppend(kids, car);
    HatchedAppend(kids, nets, car, net, now, env);
    FootprintAppend(kids, car);
  }

  // ---------------------------------------------------------------------------
  // Fleets of cars and their update loop
  // ---------------------------------------------------------------------------

  /** Valid cars of one kind, none listed twice and no two sharing an object. */
  ghost predicate Fleet(cs: seq<Car>, kind: Kind)
    reads cs
  {
    Separate(cs) && forall i :: 0 <= i < |cs| ==> cs[i].Valid() && cs[i].kind == kind
  }

  /** Every listed car can tick: it is valid, and a smart car's network fits its sensor. */
  ghost predicate Ready(cs: seq<Car>, env: Env)
    reads (set i | 0 <= i < |cs| :: cs[i]), Footprint(cs)
  {
    forall i :: 0 <= i < |cs| ==> cs[i].Valid() && Drivable(cs[i].kind, cs[i].Net(), env)
  }

  /** A fleet of ten-ray smart cars, or of cars without a network, is ready when the sensor gives ten readings. */
  lemma FleetReady(cs: seq<Car>, kind: Kind, env: Env)
    requires Fleet(cs, kind) && (kind.Smart? ==> env.SensesRays(kind.rayCount))
    ensures Ready(cs, env)
  {
  }

  /** Each car belongs to its own footprint, and so to the footprint of any list holding it. */
  lemma CarsInFootprint(cs: seq<Car>)
    ensures forall c :: c in cs ==> c in Footprint(cs)
  {
    forall c | c in cs
      ensures c in Footprint(cs)
    {
      var i :| 0 <= i < |cs| && cs[i] == c;
      assert c in cs[i].Repr();
    }
  }

  /** The only cars in a footprint are the listed cars themselves. */
  lemma CarOfFootprint(cs: seq<Car>, c: Car)
    requires c in Footprint(cs)
    ensures c in cs
  {
    var i :| 0 <= i < |cs| && c in cs[i].Repr();
    assert c == cs[i];
  }

  /** A smart car shares no object with traffic cars, each of which is made of itself alone. */
  lemma SmartApartFromTraffic(md: Car, ts: seq<Car>)
    requires Fleet(ts, Kind.Traffic) && Breeder(Some(md))
    ensures md.Repr() !! Footprint(ts)
  {
    forall o | o in Footprint(ts)
      ensures o !in md.Repr()
    {
      var i :| 0 <= i < |ts| && o in ts[i].Repr();
      assert o == ts[i];
    }
  }

  /** Any distinct selection from a fleet is a fleet, within the footprint of the whole. */
  lemma SubFleet(cs: seq<Car>, ds: seq<Car>, kind: Kind)
    requires Fleet(cs, kind) && Distinct(ds)
    requires forall c :: c in ds ==> c in cs
    ensures Fleet(ds, kind) && Footprint(ds) <= Footprint(cs)
  {
    forall i | 0 <= i < |ds|
      ensures exists a :: 0 <= a < |cs| && cs[a] == ds[i]
    {
      assert ds[i] in ds;
    }
    forall i, j | 0 <= i < |ds| && 0 <= j < |ds| && i != j
      ensures ds[i].Repr() !! ds[j].Repr()
    {
      var a :| 0 <= a < |cs| && cs[a] == ds[i];
      var b :| 0 <= b < |cs| && cs[b] == ds[j];
      SeparateAt(cs, a, b);
    }
    forall o | o in Footprint(ds)
      ensures o in Footprint(cs)
    {
      var i :| 0 <= i < |ds| && o in ds[i].Repr();
      var a :| 0 <= a < |cs| && cs[a] == ds[i];
    }
  }
  /** Cars that share no object are different cars: each car is one of its own objects. */
  lemma SeparateDistinct(cs: seq<Car>)
    requires Separate(cs)
    ensures Distinct(cs)
  {
    forall i, j | 0 <= i < j < |cs|
      ensures cs[i] != cs[j]
    {
      SeparateAt(cs, i, j);
      assert cs[i] in cs[i].Repr();
    }
  }

  /** Filtering a list without repeats gives a list without repeats. */
  lemma {:induction false} FilterDistinct(cs: seq<Car>, t: Sieve)
    requires Distinct(cs)
    ensures Distinct(Filter(cs, t))
  {
    if cs != [] {
      var tail := cs[1..];
      assert forall k :: 0 <= k < |tail| ==> tail[k] == cs[k + 1];
      FilterDistinct(tail, t);
      if Passes(cs[0], t) {
        var rest := Filter(tail, t);
        var r := [cs[0]] + rest;
        forall i, j | 0 <= i < j < |r|
          ensures r[i] != r[j]
        {
          assert r[j] == rest[j - 1] && r[j] in tail;
          if i > 0 {
            assert r[i] == rest[i - 1];
          }
        }
      }
    }
  }

  /** The cars a filter keeps from a fleet are a fleet, within the footprint of the whole. */
  lemma FilterFleet(cs: seq<Car>, t: Sieve, kind: Kind)
    requires Fleet(cs, kind)
    ensures Fleet(Filter(cs, t), kind) && Footprint(Filter(cs, t)) <= Footprint(cs)
  {
    SeparateDistinct(cs);
    FilterDistinct(cs, t);
    SubFleet(cs, Filter(cs, t), kind);
  }

  /** The survivors of a fleet are a fleet, within the footprint of the whole. */
  lemma SurvivorsFleet(cs: seq<Car>, now: real, kind: Kind)
    requires Fleet(cs, kind)
    ensures Fleet(Survivors(cs, now), kind) && Footprint(Survivors(cs, now)) <= Footprint(cs)
  {
    FilterFleet(cs, NotDamaged, kind);
    FilterFleet(Filter(cs, NotDamaged), NotStalled(now), kind);
  }


  /** The polygons of the traffic, which is all `update` reads of it. */
  function Polygons(ts: seq<Car>): (ps: seq<seq<Point>>)
    reads ts
    ensures |ps| == |ts| && forall i :: 0 <= i < |ts| ==> ps[i] == ts[i].polygon
  {
    if ts == [] then [] else [ts[0].polygon] + Polygons(ts[1..])
  }

  /**
   * `for (const car of cs) car.update(borders, traffic)`: every car ticks
   * once against the same borders and obstacles, keeping its objects and
   * its network; nothing outside the cars changes.
   */
  method UpdateAll(cs: seq<Car>, borders: seq<seq<Point>>, obstacles: seq<seq<Point>>, now: real, env: Env)
    requires Separate(cs) && Ready(cs, env)
    modifies Footprint(cs)
    ensures Separate(cs) && Ready(cs, env) && Footprint(cs) == old(Footprint(cs))
    ensures forall i :: 0 <= i < |cs| ==> cs[i].Repr() == old(cs[i].Repr()) && cs[i].Net() == old(cs[i].Net())
    ensures forall i :: 0 <= i < |cs| ==>
      cs[i].State() == Ticked(old(cs[i].State()), cs[i].Body(), cs[i].kind, old(cs[i].Net()), borders, obstacles, now, env)
  {
    ghost var reprs := seq(|cs|, i requires 0 <= i < |cs| reads cs => cs[i].Repr());
    ghost var nets := seq(|cs|, i requires 0 <= i < |cs| && cs[i].Valid() reads cs, Footprint(cs) => cs[i].Net());
    ghost var states := seq(|cs|, i requires 0 <= i < |cs|
      reads cs, (if 0 <= i < |cs| then cs[i].controls.Objects() else {}) => cs[i].State());
    ProgressAtStart(cs, reprs, nets, states, borders, obstacles, now, env);
    var k := 0;
    while k < |cs|
      invariant Progress(cs, k, reprs, nets, states, borders, obstacles, now, env)
    {
      UpdateOne(cs, k, reprs, nets, states, borders, obstacles, now, env);
      k := k + 1;
    }
    ProgressComplete(cs, reprs, nets, states, borders, obstacles, now, env);
  }

  /** All objects of a list of footprints. */
  ghost function Union(rs: seq<set<object>>): set<object>
  {
    set i, o | 0 <= i < |rs| && o in rs[i] :: o
  }

  /**
   * The loop after k cars: car i had objects reprs[i], network nets[i] and
   * state states[i] on entry; it keeps the objects and the network, and its
   * state is one tick on from states[i] exactly when i < k.
   */
  ghost predicate Progress(cs: seq<Car>, k: nat, reprs: seq<set<object>>, nets: seq<seq<LevelParams>>, states: seq<CarState>,
      borders: seq<seq<Point>>, obstacles: seq<seq<Point>>, now: real, env: Env)
    reads cs, Union(reprs)
  {
    && |cs| == |reprs| == |nets| == |states| && k <= |cs|
    && Apart(reprs)
    && (forall i :: 0 <= i < |cs| ==> cs[i].Repr() == reprs[i])
    && (forall i :: 0 <= i < |cs| ==> cs[i].Valid() && Drivable(cs[i].kind, nets[i], env) && cs[i].Net() == nets[i])
    && (forall i :: 0 <= i < k ==>
         cs[i].State() == Ticked(states[i], cs[i].Body(), cs[i].kind, nets[i], borders, obstacles, now, env))
    && (forall i :: k <= i < |cs| ==> cs[i].State() == states[i])
  }

  /** One iteration: car k ticks, and the loop moves on by one car. */
  method UpdateOne(cs: seq<Car>, k: nat, ghost reprs: seq<set<object>>, ghost nets: seq<seq<LevelParams>>, ghost states: seq<CarState>,
      borders: seq<seq<Point>>, obstacles: seq<seq<Point>>, now: real, env: Env)
    requires k < |cs| && Progress(cs, k, reprs, nets, states, borders, obstacles, now, env)
    modifies reprs[k]
    ensures Progress(cs, k + 1, reprs, nets, states, borders, obstacles, now, env)
  {
    label Before:
    cs[k].Update(borders, obstacles, now, env);
    OthersUntouched@Before(cs, k, reprs);
  }

  /** Before the loop no car has ticked yet. */
  lemma ProgressAtStart(cs: seq<Car>, reprs: seq<set<object>>, nets: seq<seq<LevelParams>>, states: seq<CarState>,
      borders: seq<seq<Point>>, obstacles: seq<seq<Point>>, now: real, env: Env)
    requires Separate(cs) && Ready(cs, env)
    requires |reprs| == |nets| == |states| == |cs|
    requires forall i :: 0 <= i < |cs| ==> reprs[i] == cs[i].Repr() && nets[i] == cs[i].Net() && states[i] == cs[i].State()
    ensures Progress(cs, 0, reprs, nets, states, borders, obstacles, now, env)
    ensures Union(reprs) == Footprint(cs)
  {
    forall i, j | 0 <= i < |reprs| && 0 <= j < |reprs| && i != j
      ensures reprs[i] !! reprs[j]
    {
      SeparateAt(cs, i, j);
    }
  }

  /** After the loop every car has ticked once, and the list still owns the same objects. */
  twostate lemma ProgressComplete(cs: seq<Car>, new reprs: seq<set<object>>, new nets: seq<seq<LevelParams>>, new states: seq<CarState>,
      new borders: seq<seq<Point>>, new obstacles: seq<seq<Point>>, new now: real, new env: Env)
    requires Progress(cs, |cs|, reprs, nets, states, borders, obstacles, now, env)
    requires old(Separate(cs)) && old(Ready(cs, env))
    requires forall i :: 0 <= i < |cs| ==>
      reprs[i] == old(cs[i].Repr()) && nets[i] == old(cs[i].Net()) && states[i] == old(cs[i].State())
    ensures Separate(cs) && Ready(cs, env) && Footprint(cs) == old(Footprint(cs))
    ensures forall i :: 0 <= i < |cs| ==> cs[i].Repr() == old(cs[i].Repr()) && cs[i].Net() == old(cs[i].Net())
    ensures forall i :: 0 <= i < |cs| ==>
      cs[i].State() == Ticked(old(cs[i].State()), cs[i].Body(), cs[i].kind, old(cs[i].Net()), borders, obstacles, now, env)
  {
    forall i, j
      ensures ApartAt(cs, i, j)
    {
      if 0 <= i < |cs| && 0 <= j < |cs| && i != j {
        assert reprs[i] !! reprs[j];
      }
    }
  }

  /** Sets no two of which share an element. */
  ghost predicate Apart(rs: seq<set<object>>)
  {
    forall i, j :: 0 <= i < |rs| && 0 <= j < |rs| && i != j ==> rs[i] !! rs[j]
  }

  /** Updating one car of a separate list in place leaves every other car as it was. */
  twostate lemma OthersUntouched(cs: seq<Car>, new k: nat, new reprs: seq<set<object>>)
    requires k < |cs| == |reprs| && Apart(reprs)
    requires forall i :: 0 <= i < |cs| ==> old(cs[i].Repr()) == reprs[i] && old(cs[i].Valid())
    requires forall o: object :: o !in reprs[k] && old(allocated(o)) ==> unchanged(o)
    ensures forall j :: 0 <= j < |cs| && j != k ==>
      && cs[j].controls == old(cs[j].controls) && cs[j].Repr() == reprs[j]
      && cs[j].Valid() && cs[j].Net() == old(cs[j].Net()) && cs[j].State() == old(cs[j].State())
  {
    forall j | 0 <= j < |cs| && j != k
      ensures cs[j].Repr() == reprs[j]
      ensures forall o :: o in reprs[j] ==> unchanged(o)
    {
      assert reprs[j] !! reprs[k];
      forall o | o in reprs[j]
        ensures unchanged(o)
      {
        assert old(allocated(o));
      }
    }
  }

  /**
   * `updateTraffic(traffic)`: the traffic cars some car is still behind are
   * kept, in order, and each ticks once against the borders and no other
   * car; the traffic left behind and everything else stays as it was.
   */
  method UpdateTraffic(traffic: seq<Car>, cars: seq<Car>, borders: seq<seq<Point>>, now: real, env: Env)
    returns (kept: seq<Car>)
    requires Fleet(traffic, Kind.Traffic)
    modifies Footprint(Filter(traffic, NotLeftBehind(MaxY(cars))))
    ensures kept == old(Filter(traffic, NotLeftBehind(MaxY(cars))))
    ensures Fleet(kept, Kind.Traffic) && Footprint(kept) == old(Footprint(kept)) <= old(Footprint(traffic))
    ensures forall t :: t in traffic && t in kept ==>
      t.State() == Ticked(old(t.State()), t.Body(), Kind.Traffic, [], borders, [], now, env)
  {
    kept := Filter(traffic, NotLeftBehind(MaxY(cars)));
    FilterFleet(traffic, NotLeftBehind(MaxY(cars)), Kind.Traffic);
    FleetReady(kept, Kind.Traffic, env);
    UpdateAll(kept, borders, [], now, env);
  }

  /**
   * `updateCars(cars)`: the cars neither damaged nor stalled are kept, in
   * order, and each ticks once against the borders and the traffic's
   * polygons; the cars dropped and everything else stay as they were.
   */
  method UpdateCars(cars: seq<Car>, traffic: seq<Car>, borders: seq<seq<Point>>, now: real, env: Env)
    returns (kept: seq<Car>)
    requires Fleet(cars, Kind.Smart(RayCount)) && env.SensesRays(RayCount)
    requires Fleet(traffic, Kind.Traffic) && Footprint(cars) !! Footprint(traffic)
    modifies Footprint(Survivors(cars, now))
    ensures kept == old(Survivors(cars, now))
    ensures Fleet(kept, Kind.Smart(RayCount)) && Footprint(kept) == old(Footprint(kept)) <= old(Footprint(cars))
    ensures Fleet(traffic, Kind.Traffic) && Footprint(traffic) == old(Footprint(traffic)) && unchanged(Footprint(traffic))
    ensures forall c :: c in kept ==>
      c.Net() == old(c.Net()) &&
      c.State() == Ticked(old(c.State()), c.Body(), c.kind, old(c.Net()), borders, old(Polygons(traffic)), now, env)
  {
    kept := Survivors(cars, now);
    SurvivorsFleet(cars, now, Kind.Smart(RayCount));
    FleetReady(kept, Kind.Smart(RayCount), env);
    label Entry:
    UpdateAll(kept, borders, Polygons(traffic), now, env);
    SideKept@Entry(traffic, Kind.Traffic);
  }

  // ---------------------------------------------------------------------------
  // The simulation
  // ---------------------------------------------------------------------------

  /**
   * The cars are ten-ray smart cars and the traffic plain traffic cars, each
   * list a fleet within `repr`, the two sharing nothing; the most distant
   * car is a smart car to breed from.
   */
  ghost predicate Sound(cs: seq<Car>, ts: seq<Car>, md: Car, repr: set<object>)
    reads cs, ts, md
  {
    && Footprint(cs) <= repr && Footprint(ts) <= repr && md.Repr() <= repr
    && Fleet(cs, Kind.Smart(RayCount)) && Fleet(ts, Kind.Traffic)
    && Footprint(cs) !! Footprint(ts)
    && Breeder(Some(md))
  }

  /** Any car of a sound list can stand in as the most distant car. */
  lemma SoundLeader(cs: seq<Car>, ts: seq<Car>, md: Car, c: Car, repr: set<object>)
    requires Sound(cs, ts, md, repr) && c in cs
    ensures Sound(cs, ts, c, repr)
  {
    var i :| 0 <= i < |cs| && cs[i] == c;
    InFootprint(cs, i);
  }

  /** A list of cars none of which changed keeps its footprint, and a fleet stays a fleet. */
  twostate lemma FleetKept(cs: seq<Car>, new kind: Kind)
    requires forall c :: c in cs ==> unchanged(c)
    ensures forall i :: 0 <= i < |cs| ==> cs[i].Repr() == old(cs[i].Repr())
    ensures Footprint(cs) == old(Footprint(cs))
    ensures old(Fleet(cs, kind)) ==> Fleet(cs, kind)
  {
    forall i | 0 <= i < |cs|
      ensures cs[i].Repr() == old(cs[i].Repr()) && cs[i].Valid() == old(cs[i].Valid())
    {
      assert cs[i] in cs;
    }
    if old(Fleet(cs, kind)) {
      forall i, j
        ensures ApartAt(cs, i, j)
      {
        assert old(ApartAt(cs, i, j));
      }
    }
  }

  /** Newborn cars none of whose objects changed are still the same newborns. */
  twostate lemma NewbornsKept(cs: seq<Car>, new born: nat, new pp: Option<seq<LevelParams>>, new draw: Draws, new start: nat, new now: real, new env: Env, new s: object)
    requires born <= |cs| && (pp.Some? ==> Chained(pp.value))
    requires old(Newborns(cs[born..], pp, draw, start, now, env))
    requires !old(allocated(s)) || s !in old(Footprint(cs[born..]))
    requires forall o: object {:trigger old(allocated(o))} :: o != s && old(allocated(o)) ==> unchanged(o)
    ensures Newborns(cs[born..], pp, draw, start, now, env)
  {
    var kids := cs[born..];
    forall j | 0 <= j < |kids|
      ensures Child(kids[j], ChildNet(pp, draw, Offset(start, Stride(pp), j)), now, env)
    {
      InFootprint(kids, j);
      ChildKept(kids[j], ChildNet(pp, draw, Offset(start, Stride(pp), j)), now, env, s);
    }
  }

  /** A child all of whose objects are kept is still that child. */
  twostate lemma ChildKept(c: Car, new net: seq<LevelParams>, new now: real, new env: Env, new s: object)
    requires old(Child(c, net, now, env)) && (!old(allocated(s)) || s !in old(c.Repr()))
    requires forall o: object {:trigger old(allocated(o))} :: o != s && old(allocated(o)) ==> unchanged(o)
    ensures Child(c, net, now, env)
  {
    if !old(allocated(s)) {
      assert s !in old(c.Repr());
    }
    forall o | o in old(c.Repr())
      ensures unchanged(o)
    {
      assert old(allocated(o));
    }
  }

  /** A fleet none of whose cars is the one changed object stays that fleet. */
  twostate lemma FleetFrame(cs: seq<Car>, new kind: Kind, new s: object)
    requires s !in cs
    requires forall o: object {:trigger old(allocated(o))} :: o != s && old(allocated(o)) ==> unchanged(o)
    ensures Footprint(cs) == old(Footprint(cs))
    ensures old(Fleet(cs, kind)) ==> Fleet(cs, kind)
  {
    forall c | c in cs
      ensures unchanged(c)
    {
      var o: object := c;
      assert old(allocated(o));
    }
    FleetKept(cs, kind);
  }

  /** The breeder stays the breeder while it is not the one changed object. */
  twostate lemma BreederFrame(md: Car, new s: object)
    requires s != md
    requires forall o: object {:trigger old(allocated(o))} :: o != s && old(allocated(o)) ==> unchanged(o)
    ensures md.Repr() == old(md.Repr())
    ensures old(Breeder(Some(md))) ==> Breeder(Some(md))
  {
    var m: object := md;
    assert old(allocated(m));
    BreederKept(md);
  }

  /**
   * Lines 11-21: the road, 500 + 1 fresh smart cars, no traffic, the
   * traffic clock started, and the first car as leader and most distant.
   */
  method Setup(now: real, random: Draws, env: Env) returns (sim: Simulation)
    ensures sim.Valid() && fresh(sim.Repr)
    ensures |sim.cars| == PopulationSize + 1 && Newborns(sim.cars, None, random, 0, now, env)
    ensures sim.traffic == [] && sim.previousTrafficTimestamp == now
    ensures sim.longestSurvivor == sim.cars[0] && sim.mostDistant == sim.cars[0]
    ensures sim.drawn == Offset(0, SmartDraws, |sim.cars|) && sim.random == random
  {
    var cs, next := GenerateAICars(PopulationSize, None, now, random, 0, env);
    FootprintHead(cs);
    ghost var fp := Footprint(cs);
    assert fresh(fp);
    label Born:
    sim := new Simulation(cs, next, now, random, fp);
    assert fresh(sim.Repr) by {
      forall o | o in sim.Repr
        ensures fresh(o)
      {
        assert o == sim || o in fp;
      }
    }
    FleetFrame@Born(cs, Kind.Smart(RayCount), sim);
    BreederFrame@Born(cs[0], sim);
    NewbornsKept@Born(cs, 0, None, random, 0, now, env, sim);
  }

  /**
   * A car none of whose objects changed keeps its objects, its validity,
   * its network and its state. The objects that may have changed are `s`
   * and those of `x`.
   */
  twostate lemma CarKept(c: Car, new s: object, new x: set<object>)
    requires s !in old(c.Repr()) && old(c.Repr()) !! x
    requires forall o: object {:trigger old(allocated(o))} :: o != s && o !in x && old(allocated(o)) ==> unchanged(o)
    ensures c.Repr() == old(c.Repr()) && c.State() == old(c.State())
    ensures old(c.Valid()) ==> c.Valid() && c.Net() == old(c.Net())
  {
    forall o | o in old(c.Repr())
      ensures unchanged(o)
    {
      assert old(allocated(o));
    }
  }

  /** The cars of a list none of whose objects changed keep theirs, and a fleet stays a fleet. */
  twostate lemma ListKept(cs: seq<Car>, new s: object, new x: set<object>)
    requires s !in old(Footprint(cs)) && old(Footprint(cs)) !! x
    requires forall o: object {:trigger old(allocated(o))} :: o != s && o !in x && old(allocated(o)) ==> unchanged(o)
    ensures forall i :: 0 <= i < |cs| ==> cs[i].Repr() == old(cs[i].Repr()) && cs[i].State() == old(cs[i].State())
    ensures forall i :: 0 <= i < |cs| && old(cs[i].Valid()) ==> cs[i].Valid() && cs[i].Net() == old(cs[i].Net())
    ensures Footprint(cs) == old(Footprint(cs)) && unchanged(Footprint(cs))
    ensures forall kind :: old(Fleet(cs, kind)) ==> Fleet(cs, kind)
  {
    forall i | 0 <= i < |cs|
      ensures cs[i].Repr() == old(cs[i].Repr()) && cs[i].State() == old(cs[i].State())
      ensures old(cs[i].Valid()) ==> cs[i].Valid() && cs[i].Net() == old(cs[i].Net())
    {
      InFootprint(cs, i);
      CarKept(cs[i], s, x);
    }
    forall o | o in old(Footprint(cs))
      ensures unchanged(o)
    {
      assert old(allocated(o));
    }
    if old(Separate(cs)) {
      forall i, j
        ensures ApartAt(cs, i, j)
      {
        assert old(ApartAt(cs, i, j));
      }
    }
  }

  /** Cars none of whose objects changed keep their states, their networks and their outlines. */
  twostate lemma StatesKept(cs: seq<Car>)
    requires forall o :: o in old(Footprint(cs)) ==> unchanged(o)
    ensures forall c :: c in cs ==>
      c.State() == old(c.State()) && (old(c.Valid()) ==> c.Valid() && c.Net() == old(c.Net()))
    ensures Polygons(cs) == old(Polygons(cs))
  {
    forall i | 0 <= i < |cs|
      ensures cs[i].State() == old(cs[i].State())
      ensures old(cs[i].Valid()) ==> cs[i].Valid() && cs[i].Net() == old(cs[i].Net())
    {
      InOldFootprint(cs, i);
    }
  }

  /** A list none of whose objects changed keeps its footprint, and a fleet stays a fleet. */
  twostate lemma SideKept(cs: seq<Car>, new kind: Kind)
    requires forall o :: o in old(Footprint(cs)) ==> unchanged(o)
    ensures Footprint(cs) == old(Footprint(cs)) && unchanged(Footprint(cs))
    ensures old(Fleet(cs, kind)) ==> Fleet(cs, kind)
  {
    forall i | 0 <= i < |cs|
      ensures cs[i].Repr() == old(cs[i].Repr()) && (old(cs[i].Valid()) ==> cs[i].Valid())
    {
      InOldFootprint(cs, i);
    }
    if old(Separate(cs)) {
      forall i, j
        ensures ApartAt(cs, i, j)
      {
        assert old(ApartAt(cs, i, j));
      }
    }
  }

  /** A car none of whose objects changed is still a car to breed from. */
  twostate lemma BreederKept(md: Car)
    requires unchanged(md)
    ensures md.Repr() == old(md.Repr()) && (old(Breeder(Some(md))) ==> Breeder(Some(md)))
  {
  }

  /** Cars none of which moved have the same longest survivor. */
  twostate lemma LeaderKept(cs: seq<Car>)
    requires forall c :: c in cs ==> unchanged(c)
    ensures LongestSurvivor(cs) == old(LongestSurvivor(cs))
  {
  }

  /** The simulation is none of the objects its cars are made of. */
  lemma NotACarObject(cs: seq<Car>, sim: Simulation)
    ensures sim !in Footprint(cs)
  {
    forall i | 0 <= i < |cs|
      ensures sim !in cs[i].Repr()
    {
    }
  }

  /**
   * The module-level state of src/main.ts and its animation frame. The
   * stream of Math.random values is `random`, of which `drawn` have been
   * used; Date.now() is the `now` each frame is given.
   */
  class Simulation {
    const road: Road
    const random: Draws
    var drawn: nat
    var cars: seq<Car>
    var traffic: seq<Car>
    var previousTrafficTimestamp: real
    var longestSurvivor: Car
    var mostDistant: Car
    ghost var Repr: set<object>

    /** The road is the simulation's, and the lists and the most distant car are sound within Repr. */
    ghost predicate Valid()
      reads this, cars, traffic, mostDistant
    {
      this in Repr && road == SimulationRoad() && Sound(cars, traffic, mostDistant, Repr)
    }

    /**
     * What `generateTraffic` leaves behind, from the traffic `ts`, the spawn
     * clock `at` and the next draw `k`, with the leader at height `y`: within
     * 1000 ms of the last spawn nothing changes; after that one more traffic
     * car stands 4000 ahead of the leader, in the lane and with the maximum
     * speed of the next two draws, and the clock restarts at `now`.
     */
    ghost predicate Spawned(ts: seq<Car>, at: real, k: nat, y: real, now: real, env: Env)
      reads this, traffic, set t, o | t in traffic && o in t.controls.Objects() :: o
    {
      if now - at <= TrafficInterval then
        traffic == ts && previousTrafficTimestamp == at && drawn == k
      else
        && previousTrafficTimestamp == now && drawn == k + 2
        && |traffic| == |ts| + 1 && traffic[..|ts|] == ts
        && var t := traffic[|ts|];
           var x := SimulationRoad().LineCenter(TrafficLane(random(k)));
           && t.Body() == Physics(30.0, 50.0, TrafficMaxSpeed(random(k + 1)), Acceleration, Friction, TurningSpeed)
           && t.State() == CarState(x, y - TrafficLead, 0.0, 0.0, Outline(x, y - TrafficLead, 0.0, 30.0, 50.0, env),
                                    false, None, AlwaysForwardControls())
    }

    /**
     * The state lines 11-21 leave behind, given the first generation: the
     * road, no traffic, the traffic clock started, and the first car as
     * leader and most distant.
     */
    constructor (cs: seq<Car>, next: nat, now: real, random: Draws, ghost fp: set<object>)
      requires |cs| > 0
      ensures road == SimulationRoad() && this.random == random && drawn == next
      ensures cars == cs && traffic == [] && previousTrafficTimestamp == now
      ensures longestSurvivor == cs[0] && mostDistant == cs[0] && Repr == {this} + fp
    {
      road := SimulationRoad();
      this.random := random;
      drawn := next;
      cars := cs;
      traffic := [];
      previousTrafficTimestamp := now;
      longestSurvivor := cs[0];
      mostDistant := cs[0];
      Repr := {this} + fp;
    }

    /**
     * Line 24 of `animate`: the traffic becomes what `updateTraffic` keeps;
     * the cars and the most distant car are untouched.
     */
    method TickTraffic(now: real, env: Env)
      requires Valid()
      modifies Repr
      ensures Valid() && Repr == old(Repr)
      ensures cars == old(cars) && unchanged(Footprint(cars))
      ensures forall c :: c in cars ==> c.Net() == old(c.Net()) && c.State() == old(c.State())
      ensures mostDistant == old(mostDistant) && longestSurvivor == old(longestSurvivor)
      ensures previousTrafficTimestamp == old(previousTrafficTimestamp) && drawn == old(drawn)
      ensures traffic == old(Filter(traffic, NotLeftBehind(MaxY(cars))))
      ensures forall t :: t in old(traffic) && t in traffic ==>
        t.State() == Ticked(old(t.State()), t.Body(), Kind.Traffic, [], road.borders, [], now, env)
      ensures mostDistant.State() == old(mostDistant.State())
    {
      NotACarObject(cars, this);
      NotACarObject(traffic, this);
      var kept := UpdateKeptTraffic(now, env);
      SetTraffic(kept);
    }

    /**
     * The right-hand side of line 24: `updateTraffic(traffic)` ticks the
     * traffic and keeps the cars not left behind, which with the cars and
     * the most distant car still make a sound state.
     */
    method UpdateKeptTraffic(now: real, env: Env) returns (kept: seq<Car>)
      requires Valid()
      modifies Footprint(traffic)
      ensures kept == old(Filter(traffic, NotLeftBehind(MaxY(cars))))
      ensures Sound(cars, kept, mostDistant, Repr)
      ensures unchanged(Footprint(cars))
      ensures forall c :: c in cars ==> c.Net() == old(c.Net()) && c.State() == old(c.State())
      ensures forall t :: t in old(traffic) && t in kept ==>
        t.State() == Ticked(old(t.State()), t.Body(), Kind.Traffic, [], road.borders, [], now, env)
      ensures mostDistant.State() == old(mostDistant.State())
    {
      NotACarObject(cars, this);
      NotACarObject(traffic, this);
      FilterFleet(traffic, NotLeftBehind(MaxY(cars)), Kind.Traffic);
      SmartApartFromTraffic(mostDistant, traffic);
      label Entry:
      kept := UpdateTraffic(traffic, cars, road.borders, now, env);
      SideKept@Entry(cars, Kind.Smart(RayCount));
      StatesKept(cars);
      BreederKept@Entry(mostDistant);
    }

    /** The assignment of line 24: the traffic list is replaced and nothing else changes. */
    method SetTraffic(ts: seq<Car>)
      requires this in Repr && road == SimulationRoad() && Sound(cars, ts, mostDistant, Repr)
      modifies this
      ensures Valid() && traffic == ts && Repr == old(Repr)
      ensures cars == old(cars) && mostDistant == old(mostDistant) && longestSurvivor == old(longestSurvivor)
      ensures previousTrafficTimestamp == old(previousTrafficTimestamp) && drawn == old(drawn)
      ensures Footprint(cars) == old(Footprint(cars)) && unchanged(Footprint(cars))
      ensures forall c :: c in cars ==> c.Net() == old(c.Net()) && c.State() == old(c.State())
      ensures forall t :: t in ts ==> t.State() == old(t.State())
      ensures mostDistant.State() == old(mostDistant.State())
    {
      NotACarObject(cars, this);
      NotACarObject(ts, this);
      label Before:
      traffic := ts;
      FleetFrame@Before(cars, Kind.Smart(RayCount), this);
      FleetFrame@Before(ts, Kind.Traffic, this);
      BreederFrame@Before(mostDistant, this);
      ListKept@Before(ts, this, {});
      StatesKept(cars);
    }

    /**
     * Line 26 of `animate`: the cars become what `updateCars` keeps; the
     * traffic is untouched.
     */
    method TickCars(now: real, env: Env)
      requires Valid() && env.SensesRays(RayCount)
      modifies Repr
      ensures Valid() && Repr == old(Repr)
      ensures traffic == old(traffic) && Polygons(traffic) == old(Polygons(traffic))
      ensures forall t :: t in traffic ==> t.State() == old(t.State())
      ensures mostDistant == old(mostDistant) && longestSurvivor == old(longestSurvivor)
      ensures previousTrafficTimestamp == old(previousTrafficTimestamp) && drawn == old(drawn)
      ensures cars == old(Survivors(cars, now))
      ensures forall c :: c in cars ==>
        c.Net() == old(c.Net()) &&
        c.State() == Ticked(old(c.State()), c.Body(), c.kind, old(c.Net()), road.borders, old(Polygons(traffic)), now, env)
      ensures old(Survivors(cars, now)) == [] ==> mostDistant.State() == old(mostDistant.State())
    {
      SurvivorsFleet(cars, now, Kind.Smart(RayCount));
      NotACarObject(Survivors(cars, now), this);
      var kept := UpdateKept(now, env);
      SetCars(kept);
    }

    /**
     * The right-hand side of line 26: `updateCars(cars)` ticks and keeps the
     * surviving cars, which with the traffic and the most distant car still
     * make a sound state.
     */
    method UpdateKept(now: real, env: Env) returns (kept: seq<Car>)
      requires Valid() && env.SensesRays(RayCount)
      modifies Footprint(Survivors(cars, now))
      ensures kept == old(Survivors(cars, now))
      ensures Sound(kept, traffic, mostDistant, Repr)
      ensures forall t :: t in old(traffic) ==> t.State() == old(t.State())
      ensures Polygons(traffic) == old(Polygons(traffic))
      ensures forall c :: c in kept ==>
        c.Net() == old(c.Net()) &&
        c.State() == Ticked(old(c.State()), c.Body(), c.kind, old(c.Net()), road.borders, old(Polygons(traffic)), now, env)
      ensures old(Survivors(cars, now)) == [] ==> mostDistant.State() == old(mostDistant.State())
    {
      NotACarObject(cars, this);
      NotACarObject(traffic, this);
      SurvivorsFleet(cars, now, Kind.Smart(RayCount));
      var inKept := mostDistant in Footprint(Survivors(cars, now));
      if inKept {
        CarOfFootprint(Survivors(cars, now), mostDistant);
      }
      label Entry:
      kept := UpdateCars(cars, traffic, road.borders, now, env);
      StatesKept(traffic);
      if !inKept {
        BreederKept@Entry(mostDistant);
      }
    }

    /** The assignment `cars = ...`: a sound list of cars becomes the simulation's. */
    method SetCars(cs: seq<Car>)
      requires this in Repr && road == SimulationRoad() && Sound(cs, traffic, mostDistant, Repr)
      modifies this
      ensures Valid() && cars == cs && Repr == old(Repr)
      ensures traffic == old(traffic) && mostDistant == old(mostDistant) && longestSurvivor == old(longestSurvivor)
      ensures previousTrafficTimestamp == old(previousTrafficTimestamp) && drawn == old(drawn)
      ensures Footprint(traffic) == old(Footprint(traffic)) && unchanged(Footprint(traffic))
      ensures forall t :: t in traffic ==> t.State() == old(t.State())
      ensures Polygons(traffic) == old(Polygons(traffic))
      ensures forall c :: c in cs ==> c.Valid() && c.Net() == old(c.Net()) && c.State() == old(c.State())
      ensures mostDistant.State() == old(mostDistant.State())
    {
      NotACarObject(cs, this);
      NotACarObject(traffic, this);
      label Before:
      cars := cs;
      FleetFrame@Before(cs, Kind.Smart(RayCount), this);
      FleetFrame@Before(traffic, Kind.Traffic, this);
      BreederFrame@Before(mostDistant, this);
      ListKept@Before(cs, this, {});
      StatesKept(traffic);
    }

    /**
     * Lines 29-31 of `animate`: the leader is the longest survivor, and the
     * most distant car becomes the leader once it is strictly further up.
     */
    method Advance(leader: Car)
      requires Valid() && leader in cars
      modifies this
      ensures Valid() && Repr == old(Repr)
      ensures cars == old(cars) && traffic == old(traffic) && drawn == old(drawn)
      ensures previousTrafficTimestamp == old(previousTrafficTimestamp)
      ensures longestSurvivor == leader
      ensures mostDistant == if leader.y < old(mostDistant.y) then leader else old(mostDistant)
      ensures mostDistant.y <= longestSurvivor.y
      ensures forall c :: c in cars ==> c.Net() == old(c.Net()) && c.State() == old(c.State())
      ensures forall t :: t in traffic ==> t.State() == old(t.State())
      ensures Polygons(traffic) == old(Polygons(traffic))
    {
      var md := if leader.y < mostDistant.y then leader else mostDistant;
      SoundLeader(cars, traffic, mostDistant, leader, Repr);
      assert Sound(cars, traffic, md, Repr);
      NotACarObject(cars, this);
      NotACarObject(traffic, this);
      longestSurvivor := leader;
      mostDistant := md;
      StatesKept(cars);
      StatesKept(traffic);
    }

    /**
     * `generateTraffic`: more than a second after the last spawn, a traffic
     * car appears 4000 ahead of the leader in a random lane with a random
     * maximum speed, and the clock restarts; otherwise nothing happens.
     */
    method GenerateTraffic(now: real, env: Env)
      requires Valid()
      modifies this
      ensures Valid() && fresh(Repr - old(Repr))
      ensures cars == old(cars) && mostDistant == old(mostDistant) && longestSurvivor == old(longestSurvivor)
      ensures Spawned(old(traffic), old(previousTrafficTimestamp), old(drawn), longestSurvivor.y, now, env)
      ensures now - old(previousTrafficTimestamp) > TrafficInterval ==> fresh(traffic[|old(traffic)|])
      ensures forall c :: c in cars ==> c.Net() == old(c.Net()) && c.State() == old(c.State())
      ensures forall t :: t in old(traffic) ==> t.State() == old(t.State())
      ensures Polygons(old(traffic)) == old(Polygons(traffic))
    {
      NotACarObject(cars, this);
      NotACarObject(traffic, this);
      if now - previousTrafficTimestamp > TrafficInterval {
        var lane := TrafficLane(random(drawn));
        var maxSpeed := TrafficMaxSpeed(random(drawn + 1));
        var t := new Car.Traffic(road.LineCenter(lane), longestSurvivor.y - TrafficLead, 30.0, 50.0, maxSpeed, env);
        AddTraffic(t, now);
      }
      StatesKept(cars);
      StatesKept(old(traffic));
    }

    /**
     * Lines 75-76 of `generateTraffic` with the assignment of its result:
     * the new car joins the end of the traffic, the clock restarts at `now`
     * and the two draws are spent.
     */
    method AddTraffic(t: Car, now: real)
      requires Valid() && t.Valid() && t.kind == Kind.Traffic && t.Repr() !! Repr
      modifies this
      ensures Valid() && Repr == old(Repr) + t.Repr()
      ensures traffic == old(traffic) + [t] && previousTrafficTimestamp == now && drawn == old(drawn) + 2
      ensures cars == old(cars) && mostDistant == old(mostDistant) && longestSurvivor == old(longestSurvivor)
      ensures t.State() == old(t.State())
    {
      FootprintApart(traffic, t.Repr());
      SeparateAppend(traffic, t);
      FootprintAppend(traffic, t);
      var ts := traffic + [t];
      NotACarObject(cars, this);
      NotACarObject(ts, this);
      label Before:
      traffic := ts;
      Repr := Repr + t.Repr();
      previousTrafficTimestamp := now;
      drawn := drawn + 2;
      FleetFrame@Before(cars, Kind.Smart(RayCount), this);
      FleetFrame@Before(ts, Kind.Traffic, this);
      BreederFrame@Before(mostDistant, this);
    }

    /**
     * Lines 40-46 of `animate`: a new generation of 500 children bred from
     * the most distant car, which leads it; no traffic, the clock restarted.
     */
    method Restart(now: real, env: Env)
      requires Valid()
      modifies this
      ensures Valid() && fresh(Repr - old(Repr))
      ensures |cars| == PopulationSize + 1 && cars[0] == old(mostDistant)
      ensures cars[0].State() == old(mostDistant.State()) && ParentNet(Some(cars[0])) == old(ParentNet(Some(mostDistant)))
      ensures Newborns(cars[1..], old(ParentNet(Some(mostDistant))), random, old(drawn), now, env)
      ensures drawn == Offset(old(drawn), Stride(old(ParentNet(Some(mostDistant)))), |cars| - 1)
      ensures traffic == [] && previousTrafficTimestamp == now
      ensures longestSurvivor == cars[0] && mostDistant == cars[0]
    {
      ghost var pp := ParentNet(Some(mostDistant));
      NotACarObject([mostDistant], this);
      InFootprint([mostDistant], 0);
      var cs, next := GenerateAICars(PopulationSize, Some(mostDistant), now, random, drawn, env);
      FootprintHead(cs);
      Install(cs, next, now, Repr + Footprint(cs), pp, drawn, env);
      CarKept(cs[0], this, {});
    }

    /**
     * Lines 41-45: the new generation, no traffic, the clock restarted, its
     * first car leading; the newborns stay the newborns they were.
     */
    method Install(cs: seq<Car>, next: nat, now: real, ghost r: set<object>,
        ghost pp: Option<seq<LevelParams>>, ghost start: nat, ghost env: Env)
      requires this in r && road == SimulationRoad() && |cs| > 0 && Sound(cs, [], cs[0], r)
      requires (pp.Some? ==> Chained(pp.value)) && Newborns(cs[1..], pp, random, start, now, env)
      modifies this
      ensures Valid() && Repr == r
      ensures drawn == next && cars == cs && traffic == [] && previousTrafficTimestamp == now
      ensures longestSurvivor == cs[0] && mostDistant == cs[0]
      ensures Newborns(cs[1..], pp, random, start, now, env)
    {
      NotACarObject(cs, this);
      NotACarObject(cs[1..], this);
      label Before:
      drawn := next;
      cars := cs;
      traffic := [];
      previousTrafficTimestamp := now;
      longestSurvivor := cs[0];
      mostDistant := cs[0];
      Repr := r;
      FleetFrame@Before(cs, Kind.Smart(RayCount), this);
      BreederFrame@Before(cs[0], this);
      NewbornsKept@Before(cs, 1, pp, random, start, now, env, this);
    }

    /**
     * `animate`, one frame: traffic and cars tick; while a car survives it
     * leads and traffic may spawn ahead of it, and once none does the next
     * generation starts from the most distant car.
     */
    method Animate(now: real, env: Env)
      requires Valid() && env.SensesRays(RayCount)
      modifies Repr
      ensures Valid() && fresh(Repr - old(Repr))
      ensures old(Survivors(cars, now)) != [] ==>
        var kept := old(Filter(traffic, NotLeftBehind(MaxY(cars))));
        && cars == old(Survivors(cars, now))
        && (forall t :: t in old(traffic) && t in kept ==>
              t.State() == Ticked(old(t.State()), t.Body(), Kind.Traffic, [], road.borders, [], now, env))
        && (forall c :: c in cars ==>
              c.Net() == old(c.Net()) &&
              c.State() == Ticked(old(c.State()), c.Body(), c.kind, old(c.Net()), road.borders, Polygons(kept), now, env))
        && Some(longestSurvivor) == LongestSurvivor(cars)
        && (var md := old(mostDistant); mostDistant == if longestSurvivor.y < md.y then longestSurvivor else md)
        && mostDistant.y <= longestSurvivor.y
        && Spawned(kept, old(previousTrafficTimestamp), old(drawn), longestSurvivor.y, now, env)
      ensures old(Survivors(cars, now)) == [] ==>
        && |cars| == PopulationSize + 1 && cars[0] == old(mostDistant)
        && cars[0].State() == old(mostDistant.State())
        && Newborns(cars[1..], ParentNet(Some(cars[0])), random, old(drawn), now, env)
        && drawn == Offset(old(drawn), Stride(ParentNet(Some(cars[0]))), PopulationSize)
        && traffic == [] && previousTrafficTimestamp == now
        && longestSurvivor == cars[0] && mostDistant == cars[0]
    {
      Tick(now, env);
      label Ticked:
      LeadOrRestart(now, env);
      forall o | o in Repr && o !in old(Repr)
        ensures fresh(o)
      {
        assert o in Repr - old@Ticked(Repr);
        assert !old@Ticked(allocated(o));
      }
    }

    /**
     * Lines 24-26 of `animate`: the traffic, then the cars, each become what
     * their update keeps; the most distant car stays the one it was.
     */
    method Tick(now: real, env: Env)
      requires Valid() && env.SensesRays(RayCount)
      modifies Repr
      ensures Valid() && Repr == old(Repr)
      ensures cars == old(Survivors(cars, now))
      ensures mostDistant == old(mostDistant) && longestSurvivor == old(longestSurvivor)
      ensures previousTrafficTimestamp == old(previousTrafficTimestamp) && drawn == old(drawn)
      ensures traffic == old(Filter(traffic, NotLeftBehind(MaxY(cars))))
      ensures forall t :: t in old(traffic) && t in traffic ==>
        t.State() == Ticked(old(t.State()), t.Body(), Kind.Traffic, [], road.borders, [], now, env)
      ensures forall c :: c in cars ==>
        c.Net() == old(c.Net()) &&
        c.State() == Ticked(old(c.State()), c.Body(), c.kind, old(c.Net()), road.borders, Polygons(traffic), now, env)
      ensures old(Survivors(cars, now)) == [] ==> mostDistant.State() == old(mostDistant.State())
    {
      TickTraffic(now, env);
      CarsInFootprint(cars);
      TickCars(now, env);
    }

    /**
     * Lines 28-46 of `animate`: while a car is left, the longest survivor
     * leads and traffic may spawn ahead of it; once none is, the next
     * generation starts from the most distant car.
     */
    method LeadOrRestart(now: real, env: Env)
      requires Valid()
      modifies this
      ensures Valid() && fresh(Repr - old(Repr))
      ensures old(cars) != [] ==>
        && cars == old(cars)
        && (forall c :: c in cars ==> c.Net() == old(c.Net()) && c.State() == old(c.State()))
        && (forall t :: t in old(traffic) ==> t.State() == old(t.State()))
        && Polygons(old(traffic)) == old(Polygons(traffic))
        && Some(longestSurvivor) == LongestSurvivor(cars)
        && (var md := old(mostDistant); mostDistant == if longestSurvivor.y < md.y then longestSurvivor else md)
        && mostDistant.y <= longestSurvivor.y
        && Spawned(old(traffic), old(previousTrafficTimestamp), old(drawn), longestSurvivor.y, now, env)
        && (now - old(previousTrafficTimestamp) > TrafficInterval ==> fresh(traffic[|old(traffic)|]))
      ensures old(cars) == [] ==>
        && |cars| == PopulationSize + 1 && cars[0] == old(mostDistant)
        && cars[0].State() == old(mostDistant.State())
        && Newborns(cars[1..], ParentNet(Some(cars[0])), random, old(drawn), now, env)
        && drawn == Offset(old(drawn), Stride(ParentNet(Some(cars[0]))), PopulationSize)
        && traffic == [] && previousTrafficTimestamp == now
        && longestSurvivor == cars[0] && mostDistant == cars[0]
    {
      var leader := LongestSurvivor(cars);
      if leader.Some? {
        Lead(leader.value, now, env);
      } else {
        Restart(now, env);
      }
    }

    /**
     * Lines 29-34 of `animate`: the longest survivor leads, the most distant
     * car catches up with it, and traffic may spawn ahead of it.
     */
    method Lead(leader: Car, now: real, env: Env)
      requires Valid() && Some(leader) == LongestSurvivor(cars)
      modifies this
      ensures Valid() && fresh(Repr - old(Repr))
      ensures cars == old(cars) && longestSurvivor == leader && Some(longestSurvivor) == LongestSurvivor(cars)
      ensures forall c :: c in cars ==> c.Net() == old(c.Net()) && c.State() == old(c.State())
      ensures forall t :: t in old(traffic) ==> t.State() == old(t.State())
      ensures Polygons(old(traffic)) == old(Polygons(traffic))
      ensures var md := old(mostDistant); mostDistant == if leader.y < md.y then leader else md
      ensures mostDistant.y <= longestSurvivor.y
      ensures Spawned(old(traffic), old(previousTrafficTimestamp), old(drawn), leader.y, now, env)
      ensures now - old(previousTrafficTimestamp) > TrafficInterval ==> fresh(traffic[|old(traffic)|])
    {
      label Found:
      Advance(leader);
      label Advanced:
      GenerateTraffic(now, env);
      forall o | o in Repr && o !in old(Repr)
        ensures fresh(o)
      {
        assert o in Repr - old@Advanced(Repr);
        assert !old@Advanced(allocated(o));
      }
      LeaderKept@Found(cars);
    }
  }
}
