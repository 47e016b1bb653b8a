# self-driving-car-sim in Dafny

A Dafny model of the simulation core of `self-driving-car-sim`, a TypeScript
neuro-evolution demo. In the demo, a population of "smart" cars drives up a
three-lane road. Each car turns its ray-sensor readings into the four driving
flags with a small threshold neural network. Cars that crash or stand still
for more than two seconds are dropped, and traffic cars appear ahead of the
leader. Once no car is left, a new generation is bred: the most distant car
of the last one, followed by mutated deep copies of its network.

The model has one module per source file:

- `Network` (src/network.ts)
  - `Level` and `NNetwork` are classes over arrays. The forward pass,
    `randomize` and `mutate` are in-place loops.
  - Each is proved against a function on the parameter values:
    `LevelOutputs`, `NetOutputs`, `Randomized`, `RandomizedNet`, `Mutated`,
    `MutatedNet`.
  - Lemmas about those functions state the threshold rule, the draw layout,
    the range of the parameters and what mutation by 0 and by 1 does.
- `Controls` (src/controls.ts)
  - The fixed control sources.
  - The keyboard source: a class whose listeners are proved against pure
    key-event functions.
  - `NNControl`, whose `update` sets each flag from its output of a forward
    pass.
- `Roads` (src/road.ts)
  - The road's edges and borders, and the lane centres.
- `Cars` (src/car.ts)
  - One tick of a car, stated on values: `Moved`, `Driven`, `Ticked`.
  - The class `Car` (plain, traffic and smart cars), whose methods are proved
    against those functions.
- `Evolution` (src/main.ts)
  - The list operations of the loop: filter, survivors, longest survivor.
  - `generateAICars` with its breeding loop, and the in-place update loops
    over lists of cars that share no object.
  - `Simulation`, a class holding the module-level state of `main.ts`, with
    `animate` as one frame.

Randomness, time and the collaborators outside the core are parameters:

- `Math.random` is a stream `draw: nat -> real` read from a start index.
  The constructors `Car.Smart` and `Car.NewBrain` and the method `Unbred` take
  the start index and state which draws they use. The methods that loop over
  several cars (`NewChild`, `Children`, `Founders`, `GenerateAICars`) return
  the next index. `Simulation` keeps it in its field `drawn`. So the draw
  order of the source is part of their contracts.
- `Date.now()` is a value `now`, the same for all reads within one frame.
- Trigonometry, `polygonsIntersect` and the ray-cast sensor are the
  uninterpreted functions of `Utils.Env`.

Two facts of the code that shape the model:

- `generateAICars(500)` returns 501 cars. Without a parent, all of them are
  new. With a parent, the parent object itself comes first, followed by 500
  mutated children; it is not a mutated clone.
- The road is built as `new Road(175, 175, 3)`: it is centred on x = 175
  and spans [87.5, 262.5].

## Model

| member | source | states |
|---|---|---|
| Network.LevelOutputs | src/network.ts:84-95 | a level's forward pass gives one output per bias, each 0 or 1 |
| Network.NetOutputs | src/network.ts:16-24 | the network's outputs are as many as the last level's, each 0 or 1 |
| Network.NetOutputsStep | src/network.ts:19-21 | running one more level on the outputs so far gives the outputs of the longer prefix |
| Network.LevelOutputFires | src/network.ts:90-94 | output i is 1 exactly when its weighted sum is strictly above bias i, and 0 exactly when it is not |
| Network.WeightedSumPrefix | src/network.ts:87-89 | the weighted sum reads only the first n inputs |
| Network.WeightedSumBounded | src/network.ts:85-89 | with inputs in [0,1] and weights in [-1,1], the sum of n terms lies in [-n, n] |
| Network.Activation | src/network.ts:90-94 | the output is 0 or 1, and 1 exactly when the sum is strictly above the bias |
| Network.WeightedSumOfZeros | src/network.ts:87-89 | with all inputs zero the weighted sum is zero, whatever the weights |
| Network.LevelOutputsIgnoreExtraInputs | src/network.ts:80-82 | inputs beyond the level's input size do not change its outputs |
| Network.ZeroInputFiresOnNegativeBias | src/network.ts:84-95 | on an all-zero input, output i fires exactly when bias i is negative |
| Network.Randomized | src/network.ts:68-77 | `randomize` gives an inputSize × outputSize level |
| Network.FlatIndexInBlock | src/network.ts:69-73 | weight (i, j) is drawn inside the level's block of draws, after the earlier rows |
| Network.FlatIndexInjective | src/network.ts:69-73 | no two weights share a draw |
| Network.RandomizedInUnitRange | src/network.ts:68-77 | with draws in [0,1), every weight and bias `randomize` sets is in [-1,1), so within the closed unit range that mutation keeps |
| Network.RandomizedLevel | src/network.ts:7-13 | level k of a new network has counts[k] inputs and counts[k+1] outputs |
| Network.RandomizedNet | src/network.ts:5-14 | a new network has one level per consecutive pair of counts; the levels are chained and shaped by the counts |
| Network.Mutated | src/network.ts:27-44 | mutating a level keeps its shape |
| Network.MutatedByZero | src/network.ts:28-43 | mutation by 0 changes no parameter |
| Network.MutatedByOne | src/network.ts:28-43 | mutation by 1 sets every bias and weight to its own fresh draw: the biases first, then the weights row by row |
| Network.MutatedInUnitRange | src/network.ts:28-43 | with an amount in [0,1] and draws in [0,1), parameters in [-1,1] stay in [-1,1] |
| Network.MutatedNet | src/network.ts:26-45 | mutating a network keeps its number of levels and each level's shape |
| Network.MutatedLevel | src/network.ts:27-44 | level k of a mutated network keeps level k's shape |
| Network.PartlyMutatedStep | src/network.ts:27-44 | mutating level k on the draws the first k levels left extends the mutation of the first k levels by one |
| Network.PartlyMutatedAll | src/network.ts:26-45 | mutating all levels one after the other is the mutation of the whole network |
| Network.DrawsBeforeMonotone | src/network.ts:27-44 | the levels' blocks of draws follow one another without overlap |
| Network.MutatedNetChained | src/network.ts:26-45 | mutation keeps consecutive levels fitting, so the network still runs |
| Network.MutatedNetByZero | src/network.ts:26-45 | mutating a network by 0 changes nothing |
| Network.MutatedNetInUnitRange | src/network.ts:26-45 | with an amount in [0,1] and draws in [0,1), every level's parameters in [-1,1] stay in [-1,1] |
| Network.MutatedLevelInUnitRange | src/network.ts:27-44 | one level's parameters in [-1,1] stay in [-1,1] under mutation on draws in [0,1) |
| Network.Level.constructor | src/network.ts:54-66 | new input, output and parameter arrays of the given sizes, holding the parameters `randomize` gives from the draws |
| Network.Level.Randomize | src/network.ts:68-77 | the level's parameters become `Randomized` of its sizes and the draws |
| Network.Level.FeedForward | src/network.ts:79-98 | copies the first inputs into `inputs`, returns the `outputs` array holding `LevelOutputs`, and leaves the parameters unchanged |
| Network.Level.Mutate | src/network.ts:28-43 | the level's parameters become `Mutated` of the old ones; returns the index after the draws it used |
| Network.Level.MutateBiases | src/network.ts:28-34 | bias b becomes lerp(old bias, 2·draw(start+b) − 1, amount) |
| Network.Level.MutateWeights | src/network.ts:36-43 | weight (a, b) becomes lerp(old weight, fresh draw at its row-major index, amount) |
| Network.Level.Copy | src/main.ts:61 | a copy of a level: new arrays with the same inputs, outputs and parameters |
| Network.NNetwork.constructor | src/network.ts:5-14 | one new level per consecutive pair of counts, sized by the counts, with the parameters of `RandomizedNet` |
| Network.NNetwork.Copy | src/main.ts:61 | a deep copy: as many levels, the same signals and parameters, no array shared with the source |
| Network.NNetwork.FeedForward | src/network.ts:16-24 | returns the last level's `outputs` array, holding `NetOutputs` of the parameters and the inputs; the parameters are unchanged |
| Network.NNetwork.FeedLevel | src/network.ts:19-21 | level i's pass from the network: its outputs are `LevelOutputs` of that level, and no parameter changes |
| Network.NNetwork.Mutate | src/network.ts:26-45 | the parameters become `MutatedNet` of the old ones; signals unchanged; returns the index after all draws used |
| Network.NNetwork.MutateLevel | src/network.ts:27-44 | only level k's parameters change, to `Mutated` of the old ones |
| Controls.StaticControl | src/controls.ts:10-15 | all four flags are false |
| Controls.AlwaysForwardControls | src/controls.ts:72-83 | forward only |
| Controls.KeyOf | src/controls.ts:32-49 | each of the four arrow names selects its own case, and every other name the default |
| Controls.KeyDown | src/controls.ts:32-49 | an arrow key sets its own flag; any other key changes nothing |
| Controls.KeyUp | src/controls.ts:51-68 | an arrow key clears its own flag; any other key changes nothing |
| Controls.KeyControls.constructor | src/controls.ts:22-29 | the keyboard source starts with all flags false |
| Controls.KeyControls.OnKeyDown | src/controls.ts:32-49 | the flags become `KeyDown` of the old flags and the key |
| Controls.KeyControls.OnKeyUp | src/controls.ts:51-68 | the flags become `KeyUp` of the old flags and the key |
| Controls.KeyEventsTouchOneFlag | src/controls.ts:32-68 | an arrow key-down sets exactly its own flag and key-up clears exactly it; other keys change nothing |
| Controls.KeyUpUndoesKeyDown | src/controls.ts:32-68 | releasing a key that was up before pressing it restores the flags |
| Controls.KeyEventsIdempotent | src/controls.ts:32-68 | repeating a key event changes nothing more |
| Controls.KeyEventsCommute | src/controls.ts:32-68 | events of two different keys commute |
| Controls.NeuralFlagsByPosition | src/controls.ts:101-105 | on four 0/1 outputs: output 0 drives forward, 1 left, 2 right, 3 reverse |
| Controls.NeuralFlagsOfShortOutput | src/controls.ts:102-105 | a flag whose output is missing stays false: forward without any output, left with at most one, right with at most two, reverse with at most three |
| Controls.NNControl.constructor | src/controls.ts:90-95 | keeps the network; all flags false |
| Controls.NNControl.Update | src/controls.ts:97-106 | the flags become `NeuralFlags` of the network's outputs on the offsets; the parameters are unchanged |
| Controls.NNControl.ReadOutputs | src/controls.ts:102-105 | each flag is whether its output exists and is positive |
| Controls.NeuralFlags | src/controls.ts:101-105 | with no positive output every flag is false |
| Roads.NewRoad | src/road.ts:12-29 | the road keeps its centre, width and lane count |
| Roads.RoadGeometry | src/road.ts:12-29 | the edges are centre ∓ width/2, top and bottom are ∓10000000, and the borders are the two vertical edges from top to bottom |
| Roads.LaneCentresEvenlySpaced | src/road.ts:31-34 | adjacent lane centres are one lane width apart |
| Roads.LaneCentresSymmetric | src/road.ts:31-34 | lane i and lane laneCount−1−i lie symmetric about the road's centre |
| Roads.LaneCentreInside | src/road.ts:31-34 | on a road of positive width every lane's centre lies strictly between the edges |
| Roads.SimulationRoadMiddleLane | src/main.ts:12 | the simulation's road spans [87.5, 262.5] and its middle lane is centred on 175 |
| Cars.Outline | src/car.ts:106-131 | the outline has four corners |
| Cars.OutlineTranslates | src/car.ts:106-131 | moving the centre moves every corner by the same offset |
| Cars.Accelerated | src/car.ts:67-72 | forward alone adds the acceleration, reverse alone subtracts it, both or neither keep the speed |
| Cars.Clamped | src/car.ts:73-78 | the speed ends in [−maxSpeed/4, maxSpeed], and a speed already there is kept |
| Cars.Braked | src/car.ts:79-89 | a speed within the friction of 0 becomes 0; a speed at least twice the friction in size loses the friction |
| Cars.NextSpeed | src/car.ts:67-89 | with no pedal and a speed within the limits, `move` only applies friction |
| Cars.Steered | src/car.ts:90-99 | the heading changes by at most one turning step |
| Cars.Collides | src/car.ts:133-145 | with no border and no traffic there is no collision |
| Cars.Moved | src/car.ts:66-104 | `move` keeps the outline, the damage, the stop time and the flags |
| Cars.Driven | src/car.ts:33-39 | a damaged car is left as it is; the stop time and the flags are kept |
| Cars.StallClock | src/car.ts:206-210 | a stop time is either now or the one there was |
| Cars.Ticked | src/car.ts:203-218 | a smart car's update is the base update except for the stop time and the flags; any other car keeps those too |
| Cars.BrakedTowardsZero | src/car.ts:79-89 | friction never changes the sign of the speed and never increases its size |
| Cars.BrakedSnaps | src/car.ts:79-89 | after friction the speed is 0 or at least the friction in size |
| Cars.SpeedWithinLimits | src/car.ts:67-89 | after `move` the speed lies in [−maxSpeed/4, maxSpeed] |
| Cars.SpeedSnapsAndKeepsSign | src/car.ts:67-89 | after `move` the speed is 0 or at least the friction in size, with the clamped speed's sign and no larger |
| Cars.PedalsCancel | src/car.ts:67-72 | pressing forward and reverse together is pressing neither |
| Cars.FirstForwardTick | src/car.ts:66-89 | from rest, one forward tick with the default constants gives speed 0.08 |
| Cars.StaticCarStaysAtRest | src/car.ts:66-89 | a car with no pedal pressed stays at rest |
| Cars.ZeroMaxSpeedNeverMoves | src/car.ts:73-89 | a car with maximum speed 0 never moves |
| Cars.SteeringOnlyWhileMoving | src/car.ts:90-99 | the heading changes only while the speed is non-zero; left turns by +turningSpeed forwards and −turningSpeed in reverse, right the other way |
| Cars.SteeringCancels | src/car.ts:93-98 | left and right together leave the heading unchanged |
| Cars.MoveOnlyDrives | src/car.ts:66-104 | `move` changes only speed, heading and position; at speed 0 after friction the car stays put with its heading |
| Cars.DamageIsSticky | src/car.ts:33-39 | a damaged car keeps position, heading, speed, outline and damage through an update; a non-smart one keeps everything |
| Cars.DamageMeansCollision | src/car.ts:33-39 | an undamaged car becomes damaged exactly when its new outline touches a border or a traffic polygon |
| Cars.StallRule | src/car.ts:206-210 | above speed 0.5 the stop time is cleared; otherwise it is kept, or set to now if there was none; so it is set exactly when the speed is at most 0.5 |
| Cars.SensorInputs | src/car.ts:213-214 | one network input per reading |
| Cars.OneInputPerRay | src/car.ts:212-214 | a sensor with one reading per ray gives the network one input per ray |
| Cars.SensorInputsMeaning | src/car.ts:213-214 | a missing reading gives input 0, a reading gives 1 − offset; offsets in [0,1] give inputs in [0,1]; no reading and a reading at offset 1 give the same input |
| Cars.NearerObstacleLargerInput | src/car.ts:213-214 | of two readings, the nearer obstacle gives the larger input |
| Cars.Car.constructor | src/car.ts:15-31 | a plain car at rest and undamaged, with its outline at the start pose and static flags |
| Cars.Car.Traffic | src/car.ts:150-166 | a traffic car: as a plain car, but with the always-forward flags |
| Cars.Car.Smart | src/car.ts:175-197 | a smart car at rest, stopped since now, with static flags and a new [rayCount, 6, 4] network of `RandomizedNet` parameters |
| Cars.Car.NewBrain | src/car.ts:186-188 | a new control holding a new [rayCount, 6, 4] network, with `RandomizedNet` parameters from the given draws and all flags false |
| Cars.Car.Adopt | src/main.ts:63 | the car's control becomes the given network control; its network parameters are that network's, and only the flags of its state change |
| Cars.Car.Move | src/car.ts:66-104 | the car's state becomes `Moved` of the old state |
| Cars.Car.Throttle | src/car.ts:67-89 | the speed becomes `NextSpeed`; nothing else changes |
| Cars.Car.Steer | src/car.ts:90-99 | the heading becomes `Steered`; nothing else changes |
| Cars.Car.Advance | src/car.ts:102-103 | the position moves by speed along the heading; nothing else changes |
| Cars.Car.CreatePolygon | src/car.ts:106-131 | returns `Outline` of the car's pose and size |
| Cars.Car.AssessDamage | src/car.ts:133-145 | returns whether the outline touches some border or some traffic polygon |
| Cars.Car.BaseUpdate | src/car.ts:33-39 | the state becomes `Driven` of the old state; the control is kept |
| Cars.Car.StallAndSteer | src/car.ts:206-216 | the stop time follows the stall rule and the flags become the network's verdict on the new sensor readings |
| Cars.Car.SmartUpdate | src/car.ts:203-218 | the state becomes `Ticked` of the old state and the old network, whose parameters are unchanged |
| Cars.Car.Update | src/car.ts:203-218 | any kind of car: the state becomes `Ticked`; network and control unchanged |
| Evolution.SimulationRoad | src/main.ts:8-12 | the simulation's road has three lanes |
| Evolution.Newborn | src/main.ts:59 | a newborn stands at rest and undamaged in the middle lane at x = 175, y = 100 |
| Evolution.Stalled | src/main.ts:114 | a car with no stop time, or stopped for at most 2000 ms, is not stalled |
| Evolution.Passes | src/main.ts:103 | with no car left to be behind, no traffic car passes |
| Evolution.Filter | src/main.ts:112-114 | the filtered list holds exactly the listed cars that pass, and is no longer |
| Evolution.FilterAppend | src/main.ts:112-114 | filtering distributes over concatenation |
| Evolution.FilterSingle | src/main.ts:112-114 | a single car comes through exactly when it passes |
| Evolution.FilterKeepsAll | src/main.ts:112-114 | a list whose cars all pass comes through unchanged |
| Evolution.FilterDistinct | src/main.ts:112-114 | filtering a list without repeats gives a list without repeats |
| Evolution.FilterFleet | src/main.ts:112-114 | what a filter keeps of a fleet is a fleet within the fleet's objects |
| Evolution.Survivors | src/main.ts:112-114 | the survivors are exactly the listed cars neither damaged nor stalled |
| Evolution.SurvivorsFleet | src/main.ts:112-114 | the survivors of a fleet are a fleet within its objects |
| Evolution.MaxY | src/main.ts:103 | none for no cars; otherwise the largest y of some listed car |
| Evolution.KeptWhileACarIsBehind | src/main.ts:103 | a traffic car is kept exactly when some car is behind it |
| Evolution.MinY | src/main.ts:124 | none for no cars; otherwise the smallest y of some listed car |
| Evolution.FirstAt | src/main.ts:123-125 | the first index at height y, or the length when no car is there |
| Evolution.LongestSurvivor | src/main.ts:122-126 | none exactly for no cars; otherwise a listed car no car is ahead of |
| Evolution.LongestSurvivorIsFirst | src/main.ts:122-126 | every car listed before the longest survivor is strictly behind it |
| Evolution.SeedCanRecede | src/main.ts:30 | a reversing smart car survives its tick further back, so a most distant car kept by reference can recede |
| Evolution.RecordY | src/main.ts:30 | a recorded best position is the start or one of the leader's positions, and no further back than any of them |
| Evolution.RecordNeverRecedes | src/main.ts:30 | one more frame keeps the recorded position or moves it up to the new leader's |
| Evolution.TrafficLaneOnRoad | src/main.ts:75 | with a draw in [0,1) the lane is one of the three and its centre lies inside the road |
| Evolution.TrafficLane | src/main.ts:75 | the lane is the whole number part of draw × 3 |
| Evolution.TrafficMaxSpeed | src/main.ts:75 | with a draw in [0,1) the maximum speed is 0 below one half and 1 from one half on |
| Evolution.TrafficSpeeds | src/main.ts:75 | a traffic car's maximum speed is 0 or 1, and one with 0 never moves |
| Evolution.SmartNetDraws | src/main.ts:59 | building a smart car's [10, 6, 4] network takes 94 draws |
| Evolution.Brain | src/car.ts:199-201 | `getAI()` of a parent is its network, which fits a ten-ray smart car |
| Evolution.BrainOfParent | src/car.ts:199-201 | the network `getAI()` returns has the parent's parameters |
| Evolution.Unbred | src/main.ts:59 | a new smart car in the middle lane at y = 100, at rest, stopped since now |
| Evolution.MutatedClone | src/main.ts:61-63 | a new control holding a new network: the parent's shape and `MutatedNet` of its parameters by 0.5, flags false |
| Evolution.Rebrain | src/main.ts:61-63 | the car's network becomes the mutated copy of the parent's; only new objects are added and its state is kept |
| Evolution.MutatedChild | src/main.ts:59-64 | a new smart car at the start line whose network is the parent's mutated by 0.5 |
| Evolution.NewChild | src/main.ts:59-64 | one loop pass: a new car with the parent's mutated network if there is a parent, else its own random one; returns the next draw index |
| Evolution.OffsetIsLinear | src/main.ts:58-66 | child j starts j strides of draws after the first |
| Evolution.Children | src/main.ts:58-66 | `count` new cars sharing no object, each child j holding the network of the j-th stride of draws |
| Evolution.Hatch | src/main.ts:58-66 | the loop: the children so far are the first ones of the brood, with every object they own new |
| Evolution.Grow | src/main.ts:59-65 | one pass adds one child, the next of the brood, made of new objects only |
| Evolution.NewbornsAreSmart | src/main.ts:58-66 | every newborn is a valid ten-ray smart car |
| Evolution.ParentFirst | src/main.ts:53-54 | a smart parent in front of newborns that share none of its objects makes a fleet |
| Evolution.Offspring | src/main.ts:53-66 | with a parent: n + 1 cars, the parent first, then n new children of its network |
| Evolution.GenerateAICars | src/main.ts:50-68 | n + 1 cars forming a fleet; a parent comes first; the rest are new children, child j on the j-th stride of draws |
| Evolution.UpdateOne | src/main.ts:116-118 | one loop pass: car k ticks and every other car is as it was |
| Evolution.Founders | src/main.ts:58-66 | without a parent: n new children, each with its own random network, on consecutive strides of draws |
| Evolution.Polygons | src/main.ts:117 | one polygon per traffic car, in order: the polygons `update` reads |
| Evolution.UpdateAll | src/main.ts:116-118 | every car ticks once, to `Ticked` of its old state; objects and networks unchanged |
| Evolution.UpdateTraffic | src/main.ts:102-109 | keeps, in order, the traffic cars some car is behind, and ticks each against the borders and no obstacle |
| Evolution.UpdateCars | src/main.ts:111-120 | keeps, in order, the cars neither damaged nor stalled, and ticks each against the borders and the traffic's polygons; traffic unchanged |
| Evolution.Setup | src/main.ts:11-21 | the initial state: 501 new smart cars, no traffic, the clock at now, the first car leading and most distant |
| Evolution.Simulation.constructor | src/main.ts:16-21 | the module state lines 16-21 set up from a first generation |
| Evolution.Simulation.UpdateKeptTraffic | src/main.ts:24 | the kept traffic is the old traffic that some car is behind, each car ticked; the state stays sound and the cars untouched |
| Evolution.Simulation.SetTraffic | src/main.ts:24 | the traffic list is replaced; nothing else changes |
| Evolution.Simulation.TickTraffic | src/main.ts:24 | the traffic becomes the kept and ticked traffic; cars, leader and most distant car unchanged, including the most distant car's state |
| Evolution.Simulation.UpdateKept | src/main.ts:26 | the kept cars are the old survivors, each ticked against the traffic's polygons; the state stays sound; with no survivor the most distant car's state is unchanged |
| Evolution.Simulation.SetCars | src/main.ts:26 | the car list is replaced; nothing else changes |
| Evolution.Simulation.TickCars | src/main.ts:26 | the cars become the survivors, each ticked once against the borders and the traffic's polygons, with networks unchanged; the traffic cars, their states and polygons, the leader and the most distant car unchanged; with no survivor the most distant car's state is unchanged |
| Evolution.Simulation.Tick | src/main.ts:24-26 | the traffic is the old traffic some old car is behind, each ticked against the borders; the cars are the survivors, each ticked against the borders and the kept traffic's polygons; networks, leader, most distant car, clock and draws unchanged; with no survivor the most distant car's state is unchanged |
| Evolution.Simulation.Advance | src/main.ts:29-31 | the leader is the given car; the most distant car becomes it exactly when it is strictly further up, so it is never behind the leader; no car's state or network changes |
| Evolution.Simulation.AddTraffic | src/main.ts:75-76 | a traffic car joins the end of the traffic and the clock restarts at now |
| Evolution.Simulation.GenerateTraffic | src/main.ts:70-79 | within 1000 ms of the last spawn nothing changes; after that a new traffic car appears 4000 ahead of the leader, in a random lane with a random maximum speed |
| Evolution.Simulation.Lead | src/main.ts:29-34 | the longest survivor leads; the most distant car becomes it exactly when it is strictly further up; traffic spawns as `Spawned` says; no car's state or network changes |
| Evolution.Simulation.Install | src/main.ts:41-45 | the new generation is installed: no traffic, the clock at now, its first car leading and most distant |
| Evolution.Simulation.Restart | src/main.ts:40-46 | 501 cars: the old most distant car first, its state unchanged, then 500 newborn children of its network on consecutive strides of draws; `drawn` moves past them; no traffic, the clock at now, the first car leading and most distant |
| Evolution.Simulation.LeadOrRestart | src/main.ts:28-46 | with cars left, `Lead`'s outcome; with none, `Restart`'s: the old most distant car first with its state, its newborn children, the draws they used, no traffic |
| Evolution.Simulation.Animate | src/main.ts:23-48 | one frame: with survivors, the kept traffic and the survivors are each ticked, the longest survivor leads, the most distant car catches up with it, and traffic spawns as `Spawned` says; with none, the old most distant car first with its state unchanged, then its newborn children, the draws they used, no traffic |

## Left out

- Drawing: every `draw` method, `drawElements`, the canvas, the car images, the `drawSensor` flag set on line 32 of src/main.ts, and the canvas resize on line 36.
- `requestAnimationFrame`: `Simulation.Animate` is one frame; the endless chain of frames is not modelled.
- src/sensor.ts and src/utils.ts are not part of this model. The sensor is the function `Env.sense` of the car's pose and the obstacle polygons; `polygonsIntersect` and the trigonometric functions are uninterpreted members of `Env`. `lerp` is modelled as `Utils.Lerp`.
- `Math.random` is an indexed stream of reals, and `Date.now()` is one value `now` per frame. The source reads the clock several times per frame and the model treats those reads as equal.
- Floating point: all numbers are reals, so rounding and NaN are not modelled.
- The car classes are one class `Cars.Car` with a `Kind`. Fields that are never read (`startPoint`, `distance`, `carImage`) are left out.
- `Car.update` receives the traffic as polygons, which is all it reads of the traffic cars.
- `KeyControls` drives no car in src/main.ts. It is modelled on its own, and the DOM key event is reduced to its key name.
- `JSON.parse(JSON.stringify(...))` is modelled as the structural deep copy `NNetwork.Copy`. The object this yields is not an `NNetwork` instance, which makes no difference because the network's methods are static.
- `NNetwork.mutate`'s default amount of 1 is not modelled; every call passes the amount explicitly, as src/main.ts does.
- Network.Level.FeedForward: requires at least as many inputs as the level takes. Fewer would put `undefined` into the sums, and no caller passes fewer.
- Evolution.Simulation.Animate: does not restate that a spawned traffic car is a new object, which `Lead` states.
- Default parameters are not modelled: `maxSpeed = 3` of `Car` (src/car.ts:19), `maxSpeed = 2` of `TrafficCar` (src/car.ts:154), `maxSpeed = 3` and `rayCount = 5` of `SmartCar` (src/car.ts:179-180) and `laneCount = 3` of `Road` (src/road.ts:12). Every call in src/main.ts passes these arguments explicitly.
- Network.WeightedSum: has no contract of its own. What it computes is stated by `WeightedSumPrefix`, `WeightedSumOfZeros`, `WeightedSumBounded` and `LevelOutputFires`.

## Findings

| source | as written | input that shows it | evidently intended | confidence | as-written member | corrected member |
|---|---|---|---|---|---|---|
| src/main.ts:30 | `mostDistant` holds a reference to a car that keeps driving, so the seed of the next generation can move back after it was recorded | a smart car at y = 99.5 reversing at speed 0.5 with nothing near it is still alive one tick later at y = 100.08, and as the leader it stays the most distant car | the seed is the best position reached, which never moves back | not executed; medium, since breeding from the car rather than the position may be deliberate | Evolution.SeedCanRecede | Evolution.RecordY, Evolution.RecordNeverRecedes |

The simulation itself keeps the rule as written (`Simulation.Advance`), because that is what `animate` does. `RecordY` states the alternative as a function of the leader's positions frame by frame.
