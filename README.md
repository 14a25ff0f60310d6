# Boid motion model of grafana-nautilus-simu

This project models the simulation core of a small Go program. The program moves a flock of 100 "boids" in a box and streams each tick's positions to a Grafana Live endpoint. The model covers two things:

- the motion step: Euler step, boundary steering, speed clamp, heading;
- the population around it: start-up values, `boid-%03d` identities, the in-place tick loop, and the payload built each tick.

Both exist in two programs. Module `Boids` models `src/main.go`: its `UpdateBoid` works in the box [-1,1]². Module `TestMain` models `src/test_main.go`: it has the same step written inline, with the steering edges scaled by the window half-extents 448 and 298.5. Module `MainTest` states the three cases of `src/main_test.go` as lemmas.

Modelling decisions:

- Numbers are Dafny `real`, not IEEE float64. Where the Go tests compare within 1e-9, the model states exact equality.
- `math.Sqrt`, `math.Atan2`, `math.Cos`, `math.Sin` and `math.Pi` are supplied by the caller as a `GoMath.MathLib` value. Its ghost predicate `Lawful()` lists the only facts the proofs use:
  - the square root is non-negative and squares back to its argument;
  - `Atan2` takes its documented values on the axes;
  - `cos² + sin² = 1`;
  - `π > 0`.
- A Go `Boid` struct is a value, so it is the datatype `Boids.Boid`. The slice `boids` is an `array<Boid>`. `UpdateBoid(&boids[i])` (and `b := &boids[i]` in `src/test_main.go`) copies element `i` into a value `b`, updates `b` stage by stage and stores it back once, touching no other element. Nothing reads or writes the element in between, so in sequential execution this ends in the same state as Go's writes through the pointer. Each such method is proved against a specification function (`Boids.Step`, `TestMain.WindowStep`), and the properties are proved as lemmas about that function.
- The random draws of `random.Float64()` are passed in as `Draw` values. There is one per boid, holding the angle, speed, x and y draws in the order the code takes them. The lemmas assume each draw lies in [0,1).
- The endless `for t := range ticker.C` loop is modelled as `Run` over a finite sequence of tick times in milliseconds. Each tick's dispatched `Payload` is returned in a sequence instead of being posted.

The model follows the code on these points:

- Start-up positions and speeds are half-open ranges, [-1,1) and [0.005,0.010), because `Float64` draws from [0,1).
- `Speed` is never recomputed after start-up.
- The heading at rest is `atan2(0,0)`, which is 0; the previous heading is not kept.

## Model

| member | source | states |
|---|---|---|
| `Fmt.Decimal` | src/main.go:51 | the `%d` text of a non-negative number is a non-empty string of decimal digits, one digit longer than that of `n / 10` |
| `Fmt.Pad3` | src/main.go:51 | the `%03d` text of a number is at least three characters, all decimal digits; `Pad3RoundTrip`, `Pad3Width` and `Pad3Wide` state its value and exact width |
| `Fmt.Pad3RoundTrip` | src/main.go:51 | `%03d` produces only digits, and reading them back as a decimal number gives the original number (leading zeros do not count) |
| `Fmt.Pad3Injective` | src/main.go:51 | distinct numbers get distinct `%03d` strings |
| `Fmt.Pad3Width` | src/main.go:51 | every number below 1000 becomes exactly three digits |
| `Fmt.Pad3Wide` | src/main.go:51 | numbers from 1000 up are not padded or cut: the result is their plain decimal text, at least four digits |
| `Boids.BoidId` | src/main.go:51 | an identity is `boid-` followed by at least three decimal digits; `BoidIdShape` and `BoidIdInjective` state its width and uniqueness |
| `Boids.BoidIdShape` | src/main.go:51 | for an index below 1000 the identity is 8 characters: `boid-` followed by three digits |
| `Boids.BoidIdInjective` | src/main.go:51 | two indices with the same identity are equal |
| `Boids.Spawn` | src/main.go:48-58 | boid `i` carries `BoidId(i)`; draws in [0,1) put it in [-1,1)² with a speed in [0.005,0.010); `SpawnRanges` adds its heading and velocity length |
| `Boids.Populate` | src/main.go:45-59 | the start-up loop yields a newly allocated array of `PopulationSize` boids; boid `i` is built from the `i`-th draws by the start-up formulas (`Spawn`) |
| `Boids.SpawnRanges` | src/main.go:47-58 | draws in [0,1) give a position in [-1,1)², a speed in [0.005,0.010), a heading of `360·draw` degrees in [0,360), a velocity whose length equals the speed, and the identity `boid-%03d` of the index |
| `Boids.Moved` | src/main.go:79 | only the position changes, and it moves by the velocity held on entry |
| `Boids.Nudge` | src/main.go:81-92 | on one axis the velocity rises by `TurnFactor` below `-1+Margin`, falls by it above `1-Margin`, and is unchanged between |
| `Boids.Steered` | src/main.go:81-92 | only the velocity changes, each component by at most `TurnFactor`; `StepSteering` states when |
| `Boids.Clamped` | src/main.go:94-99 | only the velocity changes; `ClampBound` and `ClampKeepsDirection` state its size and direction |
| `Boids.Headed` | src/main.go:101-102 | only the heading changes; `HeadingOnAxes` states its value on the axes |
| `Boids.Step` | src/main.go:78-103 | the step keeps the identity and the start-up speed; `StepMoves`, `StepSteering`, `StepSpeedBound`, `StepKeepsDirection` and `StepFrame` state the rest |
| `Boids.UpdateBoid` | src/main.go:78-103 | rewriting element `i` stage by stage leaves it equal to `Step` of its old value, and leaves every other element unchanged |
| `Boids.StepMoves` | src/main.go:79 | the new position is the old one plus the velocity held before steering and clamping |
| `Boids.StepSteering` | src/main.go:81-92 | each axis is judged on its new position. Below `-1+Margin` the pre-clamp component rises by `TurnFactor`; above `1-Margin` it falls by `TurnFactor`; between them it is unchanged. The two axes are judged independently |
| `Boids.ClampBound` | src/main.go:94-99 | after the clamp the squared speed is at most `SpeedLimit²` and never more than before; a velocity over the limit comes out exactly at it; one at or under the limit is returned unchanged |
| `Boids.ClampKeepsDirection` | src/main.go:95-99 | the clamped velocity is parallel to the input (`vx'·vy = vy'·vx`), and each component keeps its sign |
| `Boids.StepSpeedBound` | src/main.go:79-99 | after `UpdateBoid` the squared speed is at most `SpeedLimit²`. It equals `SpeedLimit²` when the steered velocity was over the limit; otherwise the final velocity is the steered velocity |
| `Boids.StepKeepsDirection` | src/main.go:94-99 | the final velocity is parallel to the steered velocity and has the same component signs |
| `Boids.StepInteriorKeepsVelocity` | src/main.go:81-99 | if the new position is within the margins on both axes and the speed is at most the limit, the velocity is unchanged |
| `Boids.StepAtRest` | src/main.go:78-103 | a boid at rest within the margins keeps its position and zero velocity and ends up facing 0 degrees |
| `Boids.StepFrame` | src/main.go:78-103 | the identity and start-up speed are kept; the heading is `atan2(vy',vx')·180/π` of the final velocity; the heading held before has no effect on the result |
| `Boids.HeadingOnAxes` | src/main.go:101-102 | the heading of an axis-aligned velocity is 90 degrees for straight up, -90 for down, 0 for right and 180 for left |
| `Boids.Advance` | src/main.go:64-66 | one tick keeps the population's size |
| `Boids.AdvanceAt` | src/main.go:64-66 | one tick replaces every boid by `Step` of itself, in its own place, exactly once |
| `Boids.Tick` | src/main.go:64-66 | the in-place loop over `boids` leaves the array equal to one tick (`Advance`) of its old contents |
| `Boids.Simulate` | src/main.go:63-66 | any number of ticks keeps the population's size |
| `Boids.Run` | src/main.go:63-74 | over a run of ticks, the payload sent at tick `k` carries that tick's time and the population after `k+1` steps; the array ends after as many steps as there were ticks |
| `Boids.SimulateKeepsIdentity` | src/main.go:63-66 | ticks never change the population's size, or any boid's identity or start-up speed |
| `Boids.SimulateSpeedBound` | src/main.go:63-66 | after one tick or more, every boid is within the speed limit |
| `Boids.PopulationIdentities` | src/main.go:45-66 | after any number of ticks, the start-up population carries the identities `BoidId(0)` to `BoidId(99)` in index order, and they are pairwise distinct |
| `Boids.Simulation` | src/main.go:40-75 | `main` over a run of ticks: the start-up population, stepped in place, gives at tick `k` the payload of that tick's time and the population after `k+1` steps; in every payload the 100 identities are distinct and every boid is within the speed limit |
| `MainTest.MoveExample` | src/main_test.go:9-27 | from (0,0) with velocity (0.01,0.005), the boid lands on (0.01,0.005) |
| `MainTest.WallTurnExample` | src/main_test.go:30-52 | at x = 1-Margin+0.001 with vx = 0.005, vx drops to exactly 0.005-TurnFactor, which is strictly less than before |
| `MainTest.RotationExample` | src/main_test.go:55-72 | with velocity (0,0.01), the heading becomes 90 degrees |
| `TestMain.Spawn` | src/test_main.go:51-61 | boid `i` carries `boid-%03d` of `i`; draws in [0,1) put it in [-448,448) × [-298.5,298.5) with a speed in [0.005,0.010) |
| `TestMain.Populate` | src/test_main.go:49-62 | the start-up loop yields a newly allocated array of 100 boids; boid `i` is built from the `i`-th draws with its position scaled to the window |
| `TestMain.SpawnRanges` | src/test_main.go:50-61 | draws in [0,1) give x in [-448,448), y in [-298.5,298.5) and a speed in [0.005,0.010). The identity, velocity and heading equal those src/main.go builds from the same draws |
| `TestMain.ScaledNudge` | src/test_main.go:72-83 | on one axis of half-extent `w ≥ 0` the velocity rises by `turnFactor` below `-w+margin·w`, falls by it above `w-margin·w`, and is unchanged between |
| `TestMain.RatioClamped` | src/test_main.go:85-88 | only the velocity changes; `RatioClampedIsClamped` and `WindowStepSpeed` state its size and direction |
| `TestMain.ScaledStep` | src/test_main.go:70-92 | the inline step keeps the identity and the start-up speed and moves the position by the velocity held on entry |
| `TestMain.WindowStep` | src/test_main.go:70-92 | in the 448 × 298.5 window the boid moves by the velocity held on entry, and the steering turns it when its new position is beyond ±403.2 horizontally or ±268.65 vertically; `WindowStepSpeed` and `WindowStepFrame` state the rest |
| `TestMain.Tick` | src/test_main.go:67-93 | the inline loop updates each element through its pointer, and the array ends equal to one windowed tick of its old contents |
| `TestMain.Advance` | src/test_main.go:67-93 | one windowed tick keeps the population's size |
| `TestMain.AdvanceAt` | src/test_main.go:67-93 | one windowed tick replaces every boid by `WindowStep` of itself, in its own place |
| `TestMain.Simulate` | src/test_main.go:66-93 | any number of windowed ticks keeps the population's size |
| `TestMain.Run` | src/test_main.go:66-101 | the payload sent at tick `k` carries that tick's time and the population after `k+1` windowed steps |
| `TestMain.Simulation` | src/test_main.go:44-102 | this `main` over a run of ticks: the payload at tick `k` carries that tick's time and the start-up population after `k+1` windowed steps; in every payload the 100 identities are distinct and every boid is within the speed limit |
| `TestMain.SimulateInvariants` | src/test_main.go:66-93 | windowed ticks keep the size, identities and start-up speeds; after one tick or more, every boid is within the speed limit |
| `TestMain.WindowEdges` | src/test_main.go:35-36 | the steering edges in the 448 × 298.5 window are ±403.2 horizontally and ±268.65 vertically |
| `TestMain.WindowStepMoves` | src/test_main.go:70 | both coordinates move at once by the velocity held on entry |
| `TestMain.ScaledSteering` | src/test_main.go:72-83 | each axis is judged on its new position. Below `-w+margin·w` the pre-clamp component rises by `turnFactor`; above `w-margin·w` it falls; between them it is unchanged; the axes are independent |
| `TestMain.RatioClampedIsClamped` | src/test_main.go:85-88 | dividing by the speed and then multiplying by the limit equals src/main.go's `*= SpeedLimit/speed` clamp, for every velocity |
| `TestMain.UnitWindowIsUpdateBoid` | src/test_main.go:67-93 | with both half-extents 1, the inline step equals `UpdateBoid` of src/main.go exactly |
| `TestMain.WindowStepSpeed` | src/test_main.go:85-88 | after the inline step the squared speed is at most `speedLimit²`, exactly that when the steered velocity was over it, the steered velocity itself otherwise. The final velocity is parallel to the steered one and keeps each component's sign |
| `TestMain.WindowStepFrame` | src/test_main.go:90-92 | the inline step keeps the identity and start-up speed and sets the heading from the final velocity, in degrees |

## Left out

- `postAnnotation` in src/main.go and src/test_main.go is left out. It is HTTP, JSON marshalling, bearer headers, a client timeout and environment variables, none of which is logic. `Run` returns the payloads it would send.
- src/ws-demo.go is not part of this model: it is an MQTT client that publishes a fixed message every second.
- The ticker's 10 ms period and the `go postAnnotation(...)` goroutines are left out. A tick is one iteration of `Run`'s loop.
- Boids.Run and TestMain.Run hand each payload a snapshot of the population. The Go payload of src/main.go:68-73 and src/test_main.go:95-100 shares the slice's backing array, so the detached goroutine may read boids that the next tick is already changing. That data race is concurrency and is not modelled.
- The PCG random source is left out: its draws are parameters.
- IEEE-754 rounding is left out: the constants 0.1, 0.001 and 0.2 and all arithmetic are exact reals. The accuracy and ranges of `Sqrt`, `Atan2`, `Cos` and `Sin` are not modelled beyond the laws in `MathLib.Lawful()`. In particular no contract states that the heading lies in (-180,180].
- Boids.HeadingOnAxes: covers only axis-aligned velocities, because `Atan2` is known only on the axes.
- Log output and JSON struct tags are left out.
