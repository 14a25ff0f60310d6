/** The boid simulation of src/main.go: the population, the per-tick motion
    step `UpdateBoid`, the tick loop over the population, and the snapshot
    handed to the annotation sender every tick. */
module Boids {
  import opened GoMath
  import Fmt

  const PopulationSize: nat := 100
  const Margin: real := 0.1
  const TurnFactor: real := 0.001
  const SpeedLimit: real := 0.2

  /** One agent. `angle` is the heading in degrees; `speed` is the scalar
      speed drawn at start-up, which the motion step never rewrites. */
  datatype Boid = Boid(id: string, x: real, y: real, angle: real, speed: real, vx: real, vy: real)

  /** The snapshot of one tick: its time in milliseconds and every boid. */
  datatype Payload = Payload(timestamp: int, boids: seq<Boid>)

  /** The four random numbers the start-up loop draws for one boid, in the
      order it draws them. */
  datatype Draw = Draw(angle: real, speed: real, x: real, y: real)

  predicate InUnit(d: Draw) {
    && 0.0 <= d.angle < 1.0
    && 0.0 <= d.speed < 1.0
    && 0.0 <= d.x < 1.0
    && 0.0 <= d.y < 1.0
  }

  /** The squared length of a boid's velocity. */
  function SpeedSquared(b: Boid): real {
    b.vx * b.vx + b.vy * b.vy
  }

  // ---------------------------------------------------------------------
  // Start-up

  /** `fmt.Sprintf("boid-%03d", i)` */
  function BoidId(i: nat): (s: string)
    ensures 8 <= |s| && s[..5] == "boid-" && Fmt.AllDigits(s[5..])
  {
    "boid-" + Fmt.Pad3(i)
  }

  /** The heading drawn at start-up, in radians in [0, 2π). */
  function DrawnAngle(d: Draw, m: MathLib): real {
    d.angle * 2.0 * m.pi
  }

  /** The boid the start-up loop builds at index `i` from its draws. */
  function Spawn(i: nat, d: Draw, m: MathLib): (b: Boid)
    requires m.Lawful()
    ensures b.id == BoidId(i)
    ensures InUnit(d) ==> -1.0 <= b.x < 1.0 && -1.0 <= b.y < 1.0 && 0.005 <= b.speed < 0.010
  {
    var angle := DrawnAngle(d, m);
    var speed := 0.005 + d.speed * 0.005;
    Boid(BoidId(i), d.x * 2.0 - 1.0, d.y * 2.0 - 1.0, angle * 180.0 / m.pi,
         speed, m.cos(angle) * speed, m.sin(angle) * speed)
  }

  /** The population the start-up loop builds, as a value. */
  function Initial(draws: seq<Draw>, m: MathLib): (pop: seq<Boid>)
    requires |draws| == PopulationSize && m.Lawful()
    ensures |pop| == PopulationSize
  {
    seq(PopulationSize, i requires 0 <= i < PopulationSize => Spawn(i, draws[i], m))
  }

  /** The start-up loop: one boid per index, built from that index's draws. */
  method Populate(draws: seq<Draw>, m: MathLib) returns (boids: array<Boid>)
    requires |draws| == PopulationSize
    requires m.Lawful()
    ensures fresh(boids) && boids.Length == PopulationSize
    ensures forall i :: 0 <= i < PopulationSize ==> boids[i] == Spawn(i, draws[i], m)
  {
    boids := new Boid[PopulationSize];
    for i := 0 to PopulationSize
      invariant forall k :: 0 <= k < i ==> boids[k] == Spawn(k, draws[k], m)
    {
      var angle := DrawnAngle(draws[i], m);
      var speed := 0.005 + draws[i].speed * 0.005;
      var b := Boid(BoidId(i), draws[i].x * 2.0 - 1.0, draws[i].y * 2.0 - 1.0,
                    angle * 180.0 / m.pi, speed, m.cos(angle) * speed, m.sin(angle) * speed);
      assert b == Spawn(i, draws[i], m);
      boids[i] := b;
    }
  }

  /** A boid built from draws in [0,1) starts in [-1,1)², with a speed in
      [0.005,0.010), a heading in [0,360) degrees, a velocity whose length
      is that speed, and the identity `boid-` followed by its index. */
  lemma SpawnRanges(i: nat, d: Draw, m: MathLib)
    requires m.Lawful() && InUnit(d)
    ensures var b := Spawn(i, d, m);
      && -1.0 <= b.x < 1.0 && -1.0 <= b.y < 1.0
      && 0.005 <= b.speed < 0.010
      && 0.0 <= b.angle < 360.0 && b.angle == d.angle * 360.0
      && SpeedSquared(b) == b.speed * b.speed
      && b.id == BoidId(i)
  {
    var b := Spawn(i, d, m);
    var angle := DrawnAngle(d, m);
    assert b.angle == d.angle * 360.0 by {
      assert angle * 180.0 == (d.angle * 360.0) * m.pi;
    }
    var c, s := m.cos(angle), m.sin(angle);
    assert c * c + s * s == 1.0;
    assert SpeedSquared(b) == (c * c + s * s) * (b.speed * b.speed);
  }

  /** Identities `boid-%03d` below 1000 are eight characters: the prefix and
      three digits. */
  lemma BoidIdShape(i: nat)
    requires i < 1000
    ensures |BoidId(i)| == 8 && BoidId(i)[..5] == "boid-"
    ensures forall k :: 5 <= k < 8 ==> Fmt.IsDigit(BoidId(i)[k])
  {
    Fmt.Pad3Width(i);
    Fmt.Pad3RoundTrip(i);
    assert BoidId(i)[5..] == Fmt.Pad3(i);
  }

  /** Different indices get different identities. */
  lemma BoidIdInjective(i: nat, j: nat)
    ensures BoidId(i) == BoidId(j) ==> i == j
  {
    if BoidId(i) == BoidId(j) {
      assert Fmt.Pad3(i) == BoidId(i)[5..] == BoidId(j)[5..] == Fmt.Pad3(j);
      Fmt.Pad3Injective(i, j);
    }
  }

  // ---------------------------------------------------------------------
  // The motion step, stage by stage

  /** Stage 1: explicit Euler step with the velocity held on entry. */
  function Moved(b: Boid): (r: Boid)
    ensures r.x - b.x == b.vx && r.y - b.y == b.vy
    ensures r.(x := b.x, y := b.y) == b
  {
    b.(x := b.x + b.vx, y := b.y + b.vy)
  }

  /** Stage 2 on one axis: two independent checks of the position against
      the edges of [-1,1] shrunk by `Margin`. */
  function Nudge(p: real, v: real): (r: real)
    ensures p < -1.0 + Margin ==> r == v + TurnFactor
    ensures p > 1.0 - Margin ==> r == v - TurnFactor
    ensures -1.0 + Margin <= p <= 1.0 - Margin ==> r == v
  {
    var v1 := if p < -1.0 + Margin then v + TurnFactor else v;
    if p > 1.0 - Margin then v1 - TurnFactor else v1
  }

  /** Stage 2: boundary steering, judged on the position held on entry. */
  function Steered(b: Boid): (r: Boid)
    ensures -TurnFactor <= r.vx - b.vx <= TurnFactor && -TurnFactor <= r.vy - b.vy <= TurnFactor
    ensures r.(vx := b.vx, vy := b.vy) == b
  {
    b.(vx := Nudge(b.x, b.vx), vy := Nudge(b.y, b.vy))
  }

  /** Stage 3: rescale the velocity by `SpeedLimit / speed` when it is too fast. */
  function Clamped(b: Boid, m: MathLib): (r: Boid)
    ensures r.(vx := b.vx, vy := b.vy) == b
  {
    var speed := m.sqrt(SpeedSquared(b));
    if speed > SpeedLimit then
      var ratio := SpeedLimit / speed;
      b.(vx := b.vx * ratio, vy := b.vy * ratio)
    else
      b
  }

  /** Stage 4: the heading in degrees of the velocity held on entry. */
  function Headed(b: Boid, m: MathLib): (r: Boid)
    requires m.Lawful()
    ensures r.(angle := b.angle) == b
  {
    b.(angle := m.atan2(b.vy, b.vx) * 180.0 / m.pi)
  }

  /** The velocity after moving and steering, just before the clamp. */
  function PreClamp(b: Boid): Boid {
    Steered(Moved(b))
  }

  /** `UpdateBoid` as a function of the boid it is given. */
  function Step(b: Boid, m: MathLib): (r: Boid)
    requires m.Lawful()
    ensures r.id == b.id && r.speed == b.speed
  {
    Headed(Clamped(PreClamp(b), m), m)
  }

  // ---------------------------------------------------------------------
  // The motion step in place

  /** `UpdateBoid(&boids[i])`: the element is copied into the value `b`,
      which is updated stage by stage and stored back once. Nothing else
      reads or writes the element in between, so this ends in the same
      state as Go's field writes through the pointer; no other element is
      touched. */
  method UpdateBoid(boids: array<Boid>, i: nat, m: MathLib)
    requires i < boids.Length
    requires m.Lawful()
    modifies boids
    ensures boids[i] == Step(old(boids[i]), m)
    ensures forall k :: 0 <= k < boids.Length && k != i ==> boids[k] == old(boids[k])
  {
    var b := boids[i];
    b := b.(x := b.x + b.vx, y := b.y + b.vy);

    if b.x < -1.0 + Margin {
      b := b.(vx := b.vx + TurnFactor);
    }
    if b.x > 1.0 - Margin {
      b := b.(vx := b.vx - TurnFactor);
    }
    if b.y < -1.0 + Margin {
      b := b.(vy := b.vy + TurnFactor);
    }
    if b.y > 1.0 - Margin {
      b := b.(vy := b.vy - TurnFactor);
    }
    assert b == PreClamp(old(boids[i]));

    var speed := m.sqrt(SpeedSquared(b));
    if speed > SpeedLimit {
      var ratio := SpeedLimit / speed;
      b := b.(vx := b.vx * ratio);
      b := b.(vy := b.vy * ratio);
    }
    assert b == Clamped(PreClamp(old(boids[i])), m);

    var rad := m.atan2(b.vy, b.vx);
    b := b.(angle := rad * 180.0 / m.pi);
    boids[i] := b;
  }

  // ---------------------------------------------------------------------
  // What the motion step promises

  /** The new position is the old position plus the velocity held on entry,
      before any steering or clamping. */
  lemma StepMoves(b: Boid, m: MathLib)
    requires m.Lawful()
    ensures Step(b, m).x == b.x + b.vx && Step(b, m).y == b.y + b.vy
  {
  }

  /** Each velocity component before the clamp is nudged by `TurnFactor`
      according to the new position on its own axis: up near the low edge,
      down near the high edge, not at all in between; the two axes are
      judged independently. */
  lemma StepSteering(b: Boid)
    ensures var x, y, s := b.x + b.vx, b.y + b.vy, PreClamp(b);
      && (x < -1.0 + Margin ==> s.vx == b.vx + TurnFactor)
      && (x > 1.0 - Margin ==> s.vx == b.vx - TurnFactor)
      && (-1.0 + Margin <= x <= 1.0 - Margin ==> s.vx == b.vx)
      && (y < -1.0 + Margin ==> s.vy == b.vy + TurnFactor)
      && (y > 1.0 - Margin ==> s.vy == b.vy - TurnFactor)
      && (-1.0 + Margin <= y <= 1.0 - Margin ==> s.vy == b.vy)
  {
  }

  /** The clamp: the result is never faster than `SpeedLimit`; a velocity
      over the limit comes out exactly at the limit; one at or under the
      limit is left as it is; and the clamp never speeds a boid up. */
  lemma ClampBound(b: Boid, m: MathLib)
    requires m.Lawful()
    ensures SpeedSquared(Clamped(b, m)) <= SpeedLimit * SpeedLimit
    ensures SpeedSquared(Clamped(b, m)) <= SpeedSquared(b)
    ensures SpeedSquared(b) > SpeedLimit * SpeedLimit ==>
              SpeedSquared(Clamped(b, m)) == SpeedLimit * SpeedLimit
    ensures SpeedSquared(b) <= SpeedLimit * SpeedLimit ==> Clamped(b, m) == b
  {
    var q := SpeedSquared(b);
    assert 0.0 <= q by {
      assert 0.0 <= b.vx * b.vx && 0.0 <= b.vy * b.vy;
    }
    SqrtVersusBound(m, q, SpeedLimit);
    var s := m.sqrt(q);
    assert 0.0 <= s && s * s == q;
    if s > SpeedLimit {
      var ratio := SpeedLimit / s;
      var r := Clamped(b, m);
      assert ratio * s == SpeedLimit;
      assert SpeedSquared(r) == (ratio * ratio) * q;
      assert (ratio * ratio) * (s * s) == (ratio * s) * (ratio * s);
      assert SpeedSquared(r) == SpeedLimit * SpeedLimit;
    }
  }

  /** The clamp keeps the direction: the result is a positive multiple of
      the input, so both components keep their signs and the two
      velocities are parallel. */
  lemma ClampKeepsDirection(b: Boid, m: MathLib)
    requires m.Lawful()
    ensures var r := Clamped(b, m);
      && r.vx * b.vy == r.vy * b.vx
      && (r.vx > 0.0 <==> b.vx > 0.0) && (r.vx < 0.0 <==> b.vx < 0.0)
      && (r.vy > 0.0 <==> b.vy > 0.0) && (r.vy < 0.0 <==> b.vy < 0.0)
  {
    var s := m.sqrt(SpeedSquared(b));
    if s > SpeedLimit {
      var ratio := SpeedLimit / s;
      assert 0.0 < ratio;
      SignOfPositiveMultiple(ratio, b.vx);
      SignOfPositiveMultiple(ratio, b.vy);
      assert (b.vx * ratio) * b.vy == (b.vy * ratio) * b.vx;
    }
  }

  lemma SignOfPositiveMultiple(k: real, v: real)
    requires 0.0 < k
    ensures (v * k > 0.0 <==> v > 0.0) && (v * k < 0.0 <==> v < 0.0)
  {
    if v > 0.0 {
      assert v * k > 0.0;
    } else if v < 0.0 {
      assert v * k < 0.0 by { assert (-v) * k > 0.0; }
    }
  }

  /** After a step the boid is never faster than `SpeedLimit`; it is
      exactly at the limit when the steered velocity was over it, and
      otherwise it moves with the steered velocity itself. */
  lemma StepSpeedBound(b: Boid, m: MathLib)
    requires m.Lawful()
    ensures SpeedSquared(Step(b, m)) <= SpeedLimit * SpeedLimit
    ensures SpeedSquared(PreClamp(b)) > SpeedLimit * SpeedLimit ==>
              SpeedSquared(Step(b, m)) == SpeedLimit * SpeedLimit
    ensures SpeedSquared(PreClamp(b)) <= SpeedLimit * SpeedLimit ==>
              Step(b, m).vx == PreClamp(b).vx && Step(b, m).vy == PreClamp(b).vy
  {
    ClampBound(PreClamp(b), m);
  }

  /** The final velocity points the same way as the steered one. */
  lemma StepKeepsDirection(b: Boid, m: MathLib)
    requires m.Lawful()
    ensures var r, s := Step(b, m), PreClamp(b);
      && r.vx * s.vy == r.vy * s.vx
      && (r.vx > 0.0 <==> s.vx > 0.0) && (r.vx < 0.0 <==> s.vx < 0.0)
      && (r.vy > 0.0 <==> s.vy > 0.0) && (r.vy < 0.0 <==> s.vy < 0.0)
  {
    ClampKeepsDirection(PreClamp(b), m);
  }

  /** A boid whose new position is inside the margins on both axes and
      which is not over the speed limit keeps its velocity. */
  lemma StepInteriorKeepsVelocity(b: Boid, m: MathLib)
    requires m.Lawful()
    requires -1.0 + Margin <= b.x + b.vx <= 1.0 - Margin
    requires -1.0 + Margin <= b.y + b.vy <= 1.0 - Margin
    requires SpeedSquared(b) <= SpeedLimit * SpeedLimit
    ensures Step(b, m).vx == b.vx && Step(b, m).vy == b.vy
  {
    assert PreClamp(b).vx == b.vx && PreClamp(b).vy == b.vy;
    ClampBound(PreClamp(b), m);
  }

  /** A boid at rest inside the margins stays where it is, stays at rest,
      and faces 0 degrees. */
  lemma StepAtRest(b: Boid, m: MathLib)
    requires m.Lawful()
    requires b.vx == 0.0 && b.vy == 0.0
    requires -1.0 + Margin <= b.x <= 1.0 - Margin
    requires -1.0 + Margin <= b.y <= 1.0 - Margin
    ensures Step(b, m) == b.(angle := 0.0)
  {
    StepInteriorKeepsVelocity(b, m);
  }

  /** The step rewrites only position, velocity and heading: the identity
      and the start-up speed are kept, and the heading is that of the
      final velocity in degrees, whatever the heading was before. */
  lemma StepFrame(b: Boid, m: MathLib)
    requires m.Lawful()
    ensures var r := Step(b, m);
      && r.id == b.id && r.speed == b.speed
      && r.angle == m.atan2(r.vy, r.vx) * 180.0 / m.pi
      && Step(b.(angle := 0.0), m) == r
  {
    var z := b.(angle := 0.0);
    assert PreClamp(z) == PreClamp(b).(angle := 0.0);
    assert SpeedSquared(PreClamp(z)) == SpeedSquared(PreClamp(b));
    assert Clamped(PreClamp(z), m) == Clamped(PreClamp(b), m).(angle := 0.0);
  }

  /** The heading of a final velocity along an axis: 90 degrees straight
      up, -90 straight down, 0 to the right, 180 to the left. */
  lemma HeadingOnAxes(b: Boid, m: MathLib)
    requires m.Lawful()
    ensures var r := Headed(b, m);
      && (b.vx == 0.0 && b.vy > 0.0 ==> r.angle == 90.0)
      && (b.vx == 0.0 && b.vy < 0.0 ==> r.angle == -90.0)
      && (b.vx > 0.0 && b.vy == 0.0 ==> r.angle == 0.0)
      && (b.vx < 0.0 && b.vy == 0.0 ==> r.angle == 180.0)
  {
    if b.vx == 0.0 && b.vy > 0.0 {
      assert m.atan2(b.vy, b.vx) == 0.5 * m.pi;
      DegreesOfMultiple(0.5, m.pi);
    } else if b.vx == 0.0 && b.vy < 0.0 {
      assert m.atan2(b.vy, b.vx) == -0.5 * m.pi;
      DegreesOfMultiple(-0.5, m.pi);
    } else if b.vx < 0.0 && b.vy == 0.0 {
      assert m.atan2(b.vy, b.vx) == 1.0 * m.pi;
      DegreesOfMultiple(1.0, m.pi);
    }
  }

  // ---------------------------------------------------------------------
  // The tick loop

  /** One tick applied to a whole population, element by element. */
  function Advance(pop: seq<Boid>, m: MathLib): (r: seq<Boid>)
    requires m.Lawful()
    ensures |r| == |pop|
  {
    if pop == [] then [] else [Step(pop[0], m)] + Advance(pop[1..], m)
  }

  /** A tick steps every boid of the population exactly once, in its place. */
  lemma {:induction false} AdvanceAt(pop: seq<Boid>, m: MathLib)
    requires m.Lawful()
    ensures forall k :: 0 <= k < |pop| ==> Advance(pop, m)[k] == Step(pop[k], m)
  {
    if pop != [] {
      AdvanceAt(pop[1..], m);
    }
  }

  /** `n` ticks applied to a population. */
  function Simulate(pop: seq<Boid>, n: nat, m: MathLib): (r: seq<Boid>)
    requires m.Lawful()
    ensures |r| == |pop|
  {
    if n == 0 then pop else Advance(Simulate(pop, n - 1, m), m)
  }

  /** `for i := range boids { UpdateBoid(&boids[i]) }`: every element is
      stepped exactly once, in place. */
  method Tick(boids: array<Boid>, m: MathLib)
    requires m.Lawful()
    modifies boids
    ensures boids[..] == Advance(old(boids[..]), m)
  {
    for i := 0 to boids.Length
      invariant forall k :: 0 <= k < i ==> boids[k] == Step(old(boids[k]), m)
      invariant forall k :: i <= k < boids.Length ==> boids[k] == old(boids[k])
    {
      UpdateBoid(boids, i, m);
    }
    AdvanceAt(old(boids[..]), m);
  }

  /** The ticker loop of `main` for a finite run of ticks at the given
      times: each tick steps the population and then builds the payload
      sent for it, a snapshot of the population just stepped. */
  method Run(boids: array<Boid>, times: seq<int>, m: MathLib) returns (sent: seq<Payload>)
    requires m.Lawful()
    modifies boids
    ensures |sent| == |times|
    ensures forall k :: 0 <= k < |times| ==>
              sent[k] == Payload(times[k], Simulate(old(boids[..]), k + 1, m))
    ensures boids[..] == Simulate(old(boids[..]), |times|, m)
  {
    ghost var start := boids[..];
    sent := [];
    for j := 0 to |times|
      invariant |sent| == j
      invariant boids[..] == Simulate(start, j, m)
      invariant forall k :: 0 <= k < j ==> sent[k] == Payload(times[k], Simulate(start, k + 1, m))
    {
      ghost var before := boids[..];
      Tick(boids, m);
      assert boids[..] == Advance(before, m) == Simulate(start, j + 1, m);
      var payloadData := Payload(times[j], boids[..]);
      sent := sent + [payloadData];
    }
  }

  // ---------------------------------------------------------------------
  // What the tick loop promises

  /** Ticks never change the population's size, nor any boid's identity or
      start-up speed. */
  lemma {:induction false} SimulateKeepsIdentity(pop: seq<Boid>, n: nat, m: MathLib)
    requires m.Lawful()
    ensures |Simulate(pop, n, m)| == |pop|
    ensures forall k :: 0 <= k < |pop| ==>
              Simulate(pop, n, m)[k].id == pop[k].id && Simulate(pop, n, m)[k].speed == pop[k].speed
  {
    if n > 0 {
      SimulateKeepsIdentity(pop, n - 1, m);
      var before := Simulate(pop, n - 1, m);
      AdvanceAt(before, m);
      forall k | 0 <= k < |pop|
        ensures Simulate(pop, n, m)[k].id == pop[k].id && Simulate(pop, n, m)[k].speed == pop[k].speed
      {
        StepFrame(before[k], m);
      }
    }
  }

  /** After at least one tick, every boid is within the speed limit. */
  lemma SimulateSpeedBound(pop: seq<Boid>, n: nat, m: MathLib)
    requires m.Lawful() && 0 < n
    ensures forall k :: 0 <= k < |pop| ==> SpeedSquared(Simulate(pop, n, m)[k]) <= SpeedLimit * SpeedLimit
  {
    var before := Simulate(pop, n - 1, m);
    AdvanceAt(before, m);
    forall k | 0 <= k < |pop|
      ensures SpeedSquared(Simulate(pop, n, m)[k]) <= SpeedLimit * SpeedLimit
    {
      StepSpeedBound(before[k], m);
    }
  }

  /** The population built at start-up keeps, after any number of ticks,
      the identities `boid-000` … `boid-099` in index order, so no two
      boids ever share an identity. */
  lemma PopulationIdentities(draws: seq<Draw>, n: nat, m: MathLib)
    requires |draws| == PopulationSize && m.Lawful()
    ensures var pop := Simulate(Initial(draws, m), n, m);
      && |pop| == PopulationSize
      && (forall k :: 0 <= k < PopulationSize ==> pop[k].id == BoidId(k))
      && (forall j, k :: 0 <= j < k < PopulationSize ==> pop[j].id != pop[k].id)
  {
    var start := Initial(draws, m);
    SimulateKeepsIdentity(start, n, m);
    forall j, k | 0 <= j < k < PopulationSize
      ensures BoidId(j) != BoidId(k)
    {
      BoidIdInjective(j, k);
    }
  }

  /** `main` over a finite run of ticks: the start-up loop builds the
      population, and the ticker loop steps it in place and builds one
      payload per tick. Every payload carries the population after as
      many steps as ticks so far, with distinct identities and every boid
      within the speed limit. */
  method Simulation(draws: seq<Draw>, times: seq<int>, m: MathLib) returns (sent: seq<Payload>)
    requires |draws| == PopulationSize && m.Lawful()
    ensures |sent| == |times|
    ensures forall k :: 0 <= k < |times| ==>
              sent[k] == Payload(times[k], Simulate(Initial(draws, m), k + 1, m))
    ensures forall k :: 0 <= k < |times| ==> |sent[k].boids| == PopulationSize
    ensures forall k, i, j :: 0 <= k < |times| && 0 <= i < j < PopulationSize ==>
              sent[k].boids[i].id != sent[k].boids[j].id
    ensures forall k, i :: 0 <= k < |times| && 0 <= i < PopulationSize ==>
              SpeedSquared(sent[k].boids[i]) <= SpeedLimit * SpeedLimit
  {
    var boids := Populate(draws, m);
    assert boids[..] == Initial(draws, m);
    sent := Run(boids, times, m);
    forall k | 0 <= k < |times|
      ensures forall i, j :: 0 <= i < j < PopulationSize ==> sent[k].boids[i].id != sent[k].boids[j].id
      ensures forall i :: 0 <= i < PopulationSize ==> SpeedSquared(sent[k].boids[i]) <= SpeedLimit * SpeedLimit
    {
      PopulationIdentities(draws, k + 1, m);
      SimulateSpeedBound(Initial(draws, m), k + 1, m);
    }
  }
}
