/** The window-scaled variant of the simulation in src/test_main.go. Its
    boids live in a box of half-extents `WindowWidth` × `WindowHeight`
    instead of [-1,1]², its motion step is written inline in the tick loop,
    and its clamp divides before it multiplies. It shares the boid record,
    the Euler step, the heading and the identities with src/main.go. */
module TestMain {
  import opened GoMath
  import Fmt
  import Boids

  type Boid = Boids.Boid
  type Draw = Boids.Draw

  const WindowWidth: real := 896.0 / 2.0
  const WindowHeight: real := 597.0 / 2.0

  const PopulationSize: nat := 100
  const Margin: real := 0.1
  const TurnFactor: real := 0.001
  const SpeedLimit: real := 0.2

  // ---------------------------------------------------------------------
  // Start-up

  /** The boid the start-up loop builds at index `i`: as in src/main.go,
      but with its position scaled to the window. */
  function Spawn(i: nat, d: Draw, m: MathLib): (b: Boid)
    requires m.Lawful()
    ensures b.id == Boids.BoidId(i)
    ensures Boids.InUnit(d) ==>
              && -WindowWidth <= b.x < WindowWidth && -WindowHeight <= b.y < WindowHeight
              && 0.005 <= b.speed < 0.010
  {
    var angle := Boids.DrawnAngle(d, m);
    var speed := 0.005 + d.speed * 0.005;
    Boids.Boid("boid-" + Fmt.Pad3(i), (d.x * 2.0 - 1.0) * WindowWidth,
               (d.y * 2.0 - 1.0) * WindowHeight, angle * 180.0 / m.pi,
               speed, m.cos(angle) * speed, m.sin(angle) * speed)
  }

  /** The population the start-up loop builds, as a value. */
  function Initial(draws: seq<Draw>, m: MathLib): (pop: seq<Boid>)
    requires |draws| == PopulationSize && m.Lawful()
    ensures |pop| == PopulationSize
  {
    seq(PopulationSize, i requires 0 <= i < PopulationSize => Spawn(i, draws[i], m))
  }

  /** The start-up loop: one boid per index, built from that index's draws. */
  method Populate(draws: seq<Draw>, m: MathLib) returns (boids: array<Boid>)
    requires |draws| == PopulationSize
    requires m.Lawful()
    ensures fresh(boids) && boids.Length == PopulationSize
    ensures forall i :: 0 <= i < PopulationSize ==> boids[i] == Spawn(i, draws[i], m)
  {
    boids := new Boid[PopulationSize];
    for i := 0 to PopulationSize
      invariant forall k :: 0 <= k < i ==> boids[k] == Spawn(k, draws[k], m)
    {
      var angle := Boids.DrawnAngle(draws[i], m);
      var speed := 0.005 + draws[i].speed * 0.005;
      boids[i] := Boids.Boid("boid-" + Fmt.Pad3(i), (draws[i].x * 2.0 - 1.0) * WindowWidth,
                             (draws[i].y * 2.0 - 1.0) * WindowHeight, angle * 180.0 / m.pi,
                             speed, m.cos(angle) * speed, m.sin(angle) * speed);
    }
  }

  /** Draws in [0,1) place a boid in [-448,448) × [-298.5,298.5), with a
      speed in [0.005,0.010) and the same identity src/main.go gives it. */
  lemma SpawnRanges(i: nat, d: Draw, m: MathLib)
    requires m.Lawful() && Boids.InUnit(d)
    ensures var b := Spawn(i, d, m);
      && -448.0 <= b.x < 448.0 && -298.5 <= b.y < 298.5
      && 0.005 <= b.speed < 0.010
      && b.id == Boids.BoidId(i)
      && b.vx == Boids.Spawn(i, d, m).vx && b.vy == Boids.Spawn(i, d, m).vy
      && b.angle == Boids.Spawn(i, d, m).angle
  {
    Boids.SpawnRanges(i, d, m);
  }

  // ---------------------------------------------------------------------
  // The motion step

  /** The low edge of the steering band on an axis of half-extent `w`. */
  function LowEdge(w: real): real {
    -1.0 * w + Margin * w
  }

  /** The high edge of the steering band on an axis of half-extent `w`. */
  function HighEdge(w: real): real {
    1.0 * w - Margin * w
  }

  /** Steering on one axis of half-extent `w`: two independent checks. */
  function ScaledNudge(p: real, v: real, w: real): (r: real)
    ensures 0.0 <= w ==> (p < LowEdge(w) ==> r == v + TurnFactor)
    ensures 0.0 <= w ==> (p > HighEdge(w) ==> r == v - TurnFactor)
    ensures LowEdge(w) <= p <= HighEdge(w) ==> r == v
  {
    var v1 := if p < LowEdge(w) then v + TurnFactor else v;
    if p > HighEdge(w) then v1 - TurnFactor else v1
  }

  /** The clamp as written here: each component divided by the speed, then
      multiplied by the limit. */
  function RatioClamped(b: Boid, m: MathLib): (r: Boid)
    ensures r.(vx := b.vx, vy := b.vy) == b
  {
    var speed := m.sqrt(Boids.SpeedSquared(b));
    if speed > SpeedLimit then
      b.(vx := (b.vx / speed) * SpeedLimit, vy := (b.vy / speed) * SpeedLimit)
    else
      b
  }

  /** The velocity after moving and steering in a `w` × `h` box. */
  function ScaledPreClamp(b: Boid, w: real, h: real): Boid {
    var p := Boids.Moved(b);
    p.(vx := ScaledNudge(p.x, p.vx, w), vy := ScaledNudge(p.y, p.vy, h))
  }

  /** The inline step for a box of half-extents `w` and `h`. */
  function ScaledStep(b: Boid, w: real, h: real, m: MathLib): (r: Boid)
    requires m.Lawful()
    ensures r.id == b.id && r.speed == b.speed
    ensures r.x == b.x + b.vx && r.y == b.y + b.vy
  {
    Boids.Headed(RatioClamped(ScaledPreClamp(b, w, h), m), m)
  }

  /** The inline step as the program runs it, in the 448 × 298.5 window. */
  function WindowStep(b: Boid, m: MathLib): (r: Boid)
    requires m.Lawful()
    ensures r.x == b.x + b.vx && r.y == b.y + b.vy
    ensures var s := ScaledPreClamp(b, WindowWidth, WindowHeight);
      && (b.x + b.vx < -403.2 ==> s.vx == b.vx + TurnFactor)
      && (b.x + b.vx > 403.2 ==> s.vx == b.vx - TurnFactor)
      && (b.y + b.vy < -268.65 ==> s.vy == b.vy + TurnFactor)
      && (b.y + b.vy > 268.65 ==> s.vy == b.vy - TurnFactor)
  {
    ScaledStep(b, WindowWidth, WindowHeight, m)
  }

  function Advance(pop: seq<Boid>, m: MathLib): (r: seq<Boid>)
    requires m.Lawful()
    ensures |r| == |pop|
  {
    if pop == [] then [] else [WindowStep(pop[0], m)] + Advance(pop[1..], m)
  }

  /** A tick steps every boid of the population exactly once, in its place. */
  lemma {:induction false} AdvanceAt(pop: seq<Boid>, m: MathLib)
    requires m.Lawful()
    ensures forall k :: 0 <= k < |pop| ==> Advance(pop, m)[k] == WindowStep(pop[k], m)
  {
    if pop != [] {
      AdvanceAt(pop[1..], m);
    }
  }

  /** One pass of the tick loop. For `b := &boids[i]` the element is
      copied into the value `b`, which is updated stage by stage and stored
      back once; nothing else reads or writes the element in between, so
      this ends in the same state as Go's field writes through the pointer.
      Elements after `i` are not touched yet and those before it are not
      touched again. */
  method Tick(boids: array<Boid>, m: MathLib)
    requires m.Lawful()
    modifies boids
    ensures boids[..] == Advance(old(boids[..]), m)
  {
    for i := 0 to boids.Length
      invariant forall k :: 0 <= k < i ==> boids[k] == WindowStep(old(boids[k]), m)
      invariant forall k :: i <= k < boids.Length ==> boids[k] == old(boids[k])
    {
      ghost var b0 := boids[i];
      var b := boids[i];
      b := b.(x := b.x + b.vx, y := b.y + b.vy);

      if b.x < -1.0 * WindowWidth + Margin * WindowWidth {
        b := b.(vx := b.vx + TurnFactor);
      }
      if b.x > 1.0 * WindowWidth - Margin * WindowWidth {
        b := b.(vx := b.vx - TurnFactor);
      }
      if b.y < -1.0 * WindowHeight + Margin * WindowHeight {
        b := b.(vy := b.vy + TurnFactor);
      }
      if b.y > 1.0 * WindowHeight - Margin * WindowHeight {
        b := b.(vy := b.vy - TurnFactor);
      }
      assert b == ScaledPreClamp(b0, WindowWidth, WindowHeight);

      var speed := m.sqrt(Boids.SpeedSquared(b));
      if speed > SpeedLimit {
        b := b.(vx := (b.vx / speed) * SpeedLimit, vy := (b.vy / speed) * SpeedLimit);
      }
      assert b == RatioClamped(ScaledPreClamp(b0, WindowWidth, WindowHeight), m);

      var rad := m.atan2(b.vy, b.vx);
      var degrees := rad * 180.0 / m.pi;
      b := b.(angle := degrees);
      assert b == WindowStep(b0, m);
      boids[i] := b;
    }
    AdvanceAt(old(boids[..]), m);
  }

  /** `n` ticks applied to a population. */
  function Simulate(pop: seq<Boid>, n: nat, m: MathLib): (r: seq<Boid>)
    requires m.Lawful()
    ensures |r| == |pop|
  {
    if n == 0 then pop else Advance(Simulate(pop, n - 1, m), m)
  }

  /** The ticker loop of this `main` for a finite run of ticks at the given
      times: step the population, then snapshot it into the payload sent. */
  method Run(boids: array<Boid>, times: seq<int>, m: MathLib) returns (sent: seq<Boids.Payload>)
    requires m.Lawful()
    modifies boids
    ensures |sent| == |times|
    ensures forall k :: 0 <= k < |times| ==>
              sent[k] == Boids.Payload(times[k], Simulate(old(boids[..]), k + 1, m))
    ensures boids[..] == Simulate(old(boids[..]), |times|, m)
  {
    ghost var start := boids[..];
    sent := [];
    for j := 0 to |times|
      invariant |sent| == j
      invariant boids[..] == Simulate(start, j, m)
      invariant forall k :: 0 <= k < j ==> sent[k] == Boids.Payload(times[k], Simulate(start, k + 1, m))
    {
      ghost var before := boids[..];
      Tick(boids, m);
      assert boids[..] == Advance(before, m) == Simulate(start, j + 1, m);
      var payloadData := Boids.Payload(times[j], boids[..]);
      sent := sent + [payloadData];
    }
  }

  // ---------------------------------------------------------------------
  // What the inline step promises

  /** The edges of the steering band in the 448 × 298.5 window. */
  lemma WindowEdges()
    ensures LowEdge(WindowWidth) == -403.2 && HighEdge(WindowWidth) == 403.2
    ensures LowEdge(WindowHeight) == -268.65 && HighEdge(WindowHeight) == 268.65
  {
  }

  /** The position moves by the velocity held on entry. */
  lemma WindowStepMoves(b: Boid, m: MathLib)
    requires m.Lawful()
    ensures WindowStep(b, m).x == b.x + b.vx && WindowStep(b, m).y == b.y + b.vy
  {
  }

  /** Each velocity component before the clamp is nudged according to the
      new position on its own axis, against edges scaled by that axis's
      half-extent: up below `-w + margin·w`, down above `w - margin·w`. */
  lemma ScaledSteering(b: Boid, w: real, h: real)
    requires 0.0 < w && 0.0 < h
    ensures var x, y, s := b.x + b.vx, b.y + b.vy, ScaledPreClamp(b, w, h);
      && (x < -w + Margin * w ==> s.vx == b.vx + TurnFactor)
      && (x > w - Margin * w ==> s.vx == b.vx - TurnFactor)
      && (-w + Margin * w <= x <= w - Margin * w ==> s.vx == b.vx)
      && (y < -h + Margin * h ==> s.vy == b.vy + TurnFactor)
      && (y > h - Margin * h ==> s.vy == b.vy - TurnFactor)
      && (-h + Margin * h <= y <= h - Margin * h ==> s.vy == b.vy)
  {
  }

  /** Dividing by the speed and multiplying by the limit is the same
      rescaling as multiplying by `SpeedLimit / speed`. */
  lemma RatioClampedIsClamped(b: Boid, m: MathLib)
    ensures RatioClamped(b, m) == Boids.Clamped(b, m)
  {
    var speed := m.sqrt(Boids.SpeedSquared(b));
    if speed > SpeedLimit {
      assert (b.vx / speed) * SpeedLimit == b.vx * (SpeedLimit / speed);
      assert (b.vy / speed) * SpeedLimit == b.vy * (SpeedLimit / speed);
    }
  }

  /** With both half-extents 1, the inline step is `UpdateBoid`. */
  lemma UnitWindowIsUpdateBoid(b: Boid, m: MathLib)
    requires m.Lawful()
    ensures ScaledStep(b, 1.0, 1.0, m) == Boids.Step(b, m)
  {
    assert ScaledPreClamp(b, 1.0, 1.0) == Boids.PreClamp(b);
    RatioClampedIsClamped(Boids.PreClamp(b), m);
  }

  /** After the inline step the boid is within the speed limit, exactly at
      it when the steered velocity was over it, with the direction of the
      steered velocity, and with its steered velocity unchanged otherwise. */
  lemma WindowStepSpeed(b: Boid, m: MathLib)
    requires m.Lawful()
    ensures var r, s := WindowStep(b, m), ScaledPreClamp(b, WindowWidth, WindowHeight);
      && Boids.SpeedSquared(r) <= SpeedLimit * SpeedLimit
      && (Boids.SpeedSquared(s) > SpeedLimit * SpeedLimit ==>
            Boids.SpeedSquared(r) == SpeedLimit * SpeedLimit)
      && (Boids.SpeedSquared(s) <= SpeedLimit * SpeedLimit ==> r.vx == s.vx && r.vy == s.vy)
      && r.vx * s.vy == r.vy * s.vx
      && (r.vx > 0.0 <==> s.vx > 0.0) && (r.vx < 0.0 <==> s.vx < 0.0)
      && (r.vy > 0.0 <==> s.vy > 0.0) && (r.vy < 0.0 <==> s.vy < 0.0)
  {
    var s := ScaledPreClamp(b, WindowWidth, WindowHeight);
    RatioClampedIsClamped(s, m);
    Boids.ClampBound(s, m);
    Boids.ClampKeepsDirection(s, m);
  }

  /** The inline step keeps the identity and the start-up speed, and sets
      the heading from the final velocity in degrees. */
  lemma WindowStepFrame(b: Boid, m: MathLib)
    requires m.Lawful()
    ensures var r := WindowStep(b, m);
      && r.id == b.id && r.speed == b.speed
      && r.angle == m.atan2(r.vy, r.vx) * 180.0 / m.pi
  {
  }

  /** Ticks keep the population's size and every boid's identity and
      start-up speed; after at least one tick every boid is within the
      speed limit. */
  lemma {:induction false} SimulateInvariants(pop: seq<Boid>, n: nat, m: MathLib)
    requires m.Lawful()
    ensures |Simulate(pop, n, m)| == |pop|
    ensures forall k :: 0 <= k < |pop| ==>
              Simulate(pop, n, m)[k].id == pop[k].id && Simulate(pop, n, m)[k].speed == pop[k].speed
    ensures 0 < n ==> forall k :: 0 <= k < |pop| ==>
              Boids.SpeedSquared(Simulate(pop, n, m)[k]) <= SpeedLimit * SpeedLimit
  {
    if n > 0 {
      SimulateInvariants(pop, n - 1, m);
      var before := Simulate(pop, n - 1, m);
      AdvanceAt(before, m);
      forall k | 0 <= k < |pop|
        ensures Simulate(pop, n, m)[k].id == pop[k].id && Simulate(pop, n, m)[k].speed == pop[k].speed
        ensures Boids.SpeedSquared(Simulate(pop, n, m)[k]) <= SpeedLimit * SpeedLimit
      {
        WindowStepFrame(before[k], m);
        WindowStepSpeed(before[k], m);
      }
    }
  }

  /** This `main` over a finite run of ticks: the start-up loop builds the
      population, and the ticker loop steps it in place and builds one
      payload per tick. Every payload carries the population after as
      many windowed steps as ticks so far, with distinct identities and
      every boid within the speed limit. */
  method Simulation(draws: seq<Draw>, times: seq<int>, m: MathLib) returns (sent: seq<Boids.Payload>)
    requires |draws| == PopulationSize && m.Lawful()
    ensures |sent| == |times|
    ensures forall k :: 0 <= k < |times| ==>
              sent[k] == Boids.Payload(times[k], Simulate(Initial(draws, m), k + 1, m))
    ensures forall k :: 0 <= k < |times| ==> |sent[k].boids| == PopulationSize
    ensures forall k, i, j :: 0 <= k < |times| && 0 <= i < j < PopulationSize ==>
              sent[k].boids[i].id != sent[k].boids[j].id
    ensures forall k, i :: 0 <= k < |times| && 0 <= i < PopulationSize ==>
              Boids.SpeedSquared(sent[k].boids[i]) <= SpeedLimit * SpeedLimit
  {
    var boids := Populate(draws, m);
    assert boids[..] == Initial(draws, m);
    sent := Run(boids, times, m);
    var start := Initial(draws, m);
    forall k | 0 <= k < |times|
      ensures forall i, j :: 0 <= i < j < PopulationSize ==> sent[k].boids[i].id != sent[k].boids[j].id
      ensures forall i :: 0 <= i < PopulationSize ==> Boids.SpeedSquared(sent[k].boids[i]) <= SpeedLimit * SpeedLimit
    {
      SimulateInvariants(start, k + 1, m);
      forall i, j | 0 <= i < j < PopulationSize
        ensures sent[k].boids[i].id != sent[k].boids[j].id
      {
        Boids.BoidIdInjective(i, j);
      }
    }
  }
}
