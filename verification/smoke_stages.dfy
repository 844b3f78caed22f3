/**
 * The control flow of the smoke step program the Mantaflow integration
 * generates: which solver stages a frame step invokes, in which order,
 * depending on the domain's feature switches. The stages themselves are
 * engine calls whose numerics are not modelled; a step is the sequence of
 * stage invocations it makes.
 */
module SmokeStages {

  /** The feature switches the generated program tests (using_heat, using_colors, ...). */
  datatype Config = Config(
    heat: bool, colors: bool, fire: bool, noise: bool,
    obstacle: bool, doOpen: bool, guiding: bool, invel: bool,
    upres: int)   // upres_sn: how much finer the noise grid is

  /** The base solver s or the high-resolution noise solver sn. */
  datatype Level = Base | HighRes

  /** The grids the steps advect. */
  datatype Field = Density | Heat | Fuel | React | ColorR | ColorG | ColorB | Vel | Uv(index: nat)

  /** The boundary arguments of an advection: none, openBounds, or openBounds and boundaryWidth. */
  datatype Bounds = Closed | Open(open: bool) | OpenWithWidth(open: bool)

  /** The coefficient argument of addBuoyancy, when it is passed. */
  datatype Coefficient = NoCoefficient | DensityCoefficient | HeatCoefficient

  /** How far extrapolateVec3Simple reaches: half the resolution, or one cell. */
  datatype Reach = HalfRes | OneCell

  /** One stage invocation of the generated program. */
  datatype Event =
    | SetTimeParams                        // s.frameLength and s.cfl
    | FluidPreStep | FluidPostStep
    | JoinPhiObs | JoinPhiOut
    | SetObstacleFlags(level: Level) | FillGrid(level: Level)
    | ProcessBurn(level: Level, colors: bool, heat: bool)
    | UpdateFlame(level: Level)
    | Advect(field: Field, level: Level, bounds: Bounds)
    | ResetOutflow | Vorticity
    | AddBuoyancy(source: Field, coefficient: Coefficient)
    | AddForceField
    | ExtrapolateObstacleVelocity(inside: bool, reach: Reach)
    | ResampleObstacleVelocity
    | SetInitialVelocity
    | SetWallBcs(obstacleVelocity: bool)
    | SolvePressure(zeroPressureFixing: bool)
    | GuidedPressure(zeroPressureFixing: bool)
    | SolverStep(level: Level)
    | SetNoiseFrame(frame: int, timeTotal: real)
    | InterpolatePhiOut | InterpolatePhiObs | InterpolateDensity | InterpolateVel
    | CopyTexturesToUv(index: nat) | CopyUvToTextures(index: nat)
    | CreateUv(index: nat) | ResetUv(index: nat)
    | UpdateUvWeight(index: nat, resetTime: nat)
    | ComputeEnergy | CopyTempFlags
    | ExtrapolateFlags(distance: nat) | ExtrapolateEnergy(distance: nat)
    | ComputeWaveletCoeffs
    | ApplyNoise(index: nat, spatialScale: nat)
    | AdaptTimeStepNoise

  function Pow2(n: nat): (p: nat)
    ensures p >= 1
  {
    if n == 0 then 1 else 2 * Pow2(n - 1)
  }

  lemma {:induction false} Pow2Add(a: nat, b: nat)
    ensures Pow2(a + b) == Pow2(a) * Pow2(b)
    decreases a
  {
    if a > 0 {
      Pow2Add(a - 1, b);
    }
  }

  lemma {:induction false} Pow2Mono(a: nat, b: nat)
    requires a <= b
    ensures Pow2(a) <= Pow2(b)
    decreases b
  {
    if a < b {
      Pow2Mono(a, b - 1);
    }
  }

  /**
   * log2 of the square root of s, rounded half up: the r with
   * 2^(2r-1) <= s < 2^(2r+1), which is int(log2(u) + 0.5) for s = u*u.
   */
  function RoundHalfLog2Sq(s: nat): (r: nat)
    ensures s < 2 ==> r == 0
    ensures s >= 2 ==> r >= 1 && Pow2(2 * r - 1) <= s < Pow2(2 * r + 1)
  {
    if s < 2 then 0
    else
      var r := 1 + RoundHalfLog2Sq(s / 4);
      assert Pow2(2 * r + 1) == 4 * Pow2(2 * (r - 1) + 1);
      assert r >= 2 ==> Pow2(2 * r - 1) == 4 * Pow2(2 * (r - 1) - 1);
      r
  }

  /** The octave count of the wavelet noise (octaves_s): 0 below 1, 1 at 1, log2(upres) rounded half up above. */
  function Octaves(upres: int): (r: nat)
    ensures upres < 1 ==> r == 0
    ensures upres == 1 ==> r == 1
    ensures upres > 1 ==> r >= 1 && Pow2(2 * r - 1) <= upres * upres < Pow2(2 * r + 1)
  {
    if upres < 1 then 0
    else if upres == 1 then 1
    else RoundHalfLog2Sq(upres * upres)
  }

  /** The rounded logarithm is the only r whose bounds enclose s. */
  lemma RoundHalfLog2SqUnique(s: nat, r: nat)
    requires r >= 1 && Pow2(2 * r - 1) <= s < Pow2(2 * r + 1)
    ensures RoundHalfLog2Sq(s) == r
  {
    Pow2Mono(1, 2 * r - 1);
    var q := RoundHalfLog2Sq(s);
    if q < r {
      Pow2Mono(2 * q + 1, 2 * r - 1);
    } else if q > r {
      Pow2Mono(2 * r + 1, 2 * q - 1);
    }
  }

  /** For a power of two the octave count is its exponent. */
  lemma OctavesOfPowerOfTwo(k: nat)
    requires k >= 1
    ensures Octaves(Pow2(k)) == k
  {
    var u := Pow2(k);
    Pow2Add(k, k);
    assert u * u == Pow2(2 * k);
    Pow2Mono(1, k);
    assert Pow2(2 * k) == 2 * Pow2(2 * k - 1);
    RoundHalfLog2SqUnique(u * u, k);
  }

  lemma RoundHalfLog2SqMono(s1: nat, s2: nat)
    requires 2 <= s1 <= s2
    ensures RoundHalfLog2Sq(s1) <= RoundHalfLog2Sq(s2)
  {
    var r1, r2 := RoundHalfLog2Sq(s1), RoundHalfLog2Sq(s2);
    if r1 > r2 {
      Pow2Mono(2 * r2 + 1, 2 * r1 - 1);
      assert false;
    }
  }

  /** The octave count never decreases as the noise grid gets finer. */
  lemma OctavesMonotone(u1: int, u2: int)
    requires 1 < u1 <= u2
    ensures Octaves(u1) <= Octaves(u2)
  {
    assert u1 * u1 <= u1 * u2 <= u2 * u2;
    RoundHalfLog2SqMono(u1 * u1, u2 * u2);
  }

  /** Rank of each advected grid in smoke_step's advection block. */
  function AdvectRank(f: Field): nat
  {
    match f
    case Density => 0
    case Heat => 1
    case Fuel => 2
    case React => 3
    case ColorR => 4
    case ColorG => 5
    case ColorB => 6
    case Vel => 7
    case Uv(_) => 8
  }

  /** Advection of a base grid without boundary arguments. */
  function AdvectBase(f: Field): Event
  {
    Advect(f, Base, Closed)
  }

  /** The advection block at the start of smoke_step. */
  function AdvectionTrace(c: Config): seq<Event>
  {
    [AdvectBase(Density)]
    + (if c.heat then [AdvectBase(Heat)] else [])
    + (if c.fire then [AdvectBase(Fuel), AdvectBase(React)] else [])
    + (if c.colors then [AdvectBase(ColorR), AdvectBase(ColorG), AdvectBase(ColorB)] else [])
    + [Advect(Vel, Base, OpenWithWidth(c.doOpen))]
  }

  /** The grids of a trace of advections come in strictly increasing rank. */
  predicate AdvectsAscending(t: seq<Event>)
  {
    (forall i :: 0 <= i < |t| ==> t[i].Advect?)
    && forall i, j :: 0 <= i < j < |t| ==> AdvectRank(t[i].field) < AdvectRank(t[j].field)
  }

  /**
   * Density is advected first and velocity last; heat, fuel and react, and
   * the colors come between in that order; no grid is advected twice.
   */
  lemma AdvectionOrder(c: Config)
    ensures var t := AdvectionTrace(c);
      AdvectsAscending(t) && t[0] == AdvectBase(Density) && t[|t| - 1].field == Vel
  {
    var t := AdvectionTrace(c);
    forall i | 0 <= i < |t| ensures t[i].Advect? {
      AdvectionRankAt(c, i);
    }
    forall i, j | 0 <= i < j < |t| ensures AdvectRank(t[i].field) < AdvectRank(t[j].field) {
      AdvectionRanksIncrease(c, i, j);
    }
  }

  lemma AdvectionRanksIncrease(c: Config, i: nat, j: nat)
    requires i < j < |AdvectionTrace(c)|
    ensures AdvectionTrace(c)[i].Advect? && AdvectionTrace(c)[j].Advect?
    ensures AdvectRank(AdvectionTrace(c)[i].field) < AdvectRank(AdvectionTrace(c)[j].field)
  {
    AdvectionRankAt(c, i);
    AdvectionRankAt(c, j);
  }

  /** The rank of the i-th advection, as a count of the blocks before it. */
  lemma AdvectionRankAt(c: Config, i: nat)
    requires i < |AdvectionTrace(c)|
    ensures AdvectionTrace(c)[i].Advect?
    ensures var h, f, k := (if c.heat then 1 else 0), (if c.fire then 2 else 0), (if c.colors then 3 else 0);
      var r := AdvectRank(AdvectionTrace(c)[i].field);
      (i == 0 ==> r == 0)
      && (0 < i <= h ==> r == 1)
      && (h < i <= h + f ==> r == 2 + (i - h - 1))
      && (h + f < i <= h + f + k ==> r == 4 + (i - h - f - 1))
      && (i == h + f + k + 1 ==> r == 7)
  {
  }

  /**
   * Each optional grid is advected exactly when its feature is on; only the
   * velocity advection passes boundary arguments, and those are open bounds
   * when the domain is open, with the boundary width.
   */
  lemma AdvectionSelection(c: Config)
    ensures var t := AdvectionTrace(c);
      (AdvectBase(Heat) in t <==> c.heat)
      && (AdvectBase(Fuel) in t <==> c.fire) && (AdvectBase(React) in t <==> c.fire)
      && (AdvectBase(ColorR) in t <==> c.colors) && (AdvectBase(ColorG) in t <==> c.colors)
      && (AdvectBase(ColorB) in t <==> c.colors)
      && (forall e :: e in t ==> e.Advect? && e.level == Base && (e.bounds != Closed <==> e.field == Vel))
      && Advect(Vel, Base, OpenWithWidth(c.doOpen)) in t
      && |t| == 2 + (if c.heat then 1 else 0) + (if c.fire then 2 else 0) + (if c.colors then 3 else 0)
  {
    AdvectionFeatures(c);
    AdvectionBounds(c);
  }

  lemma AdvectionFeatures(c: Config)
    ensures var t := AdvectionTrace(c);
      (AdvectBase(Heat) in t <==> c.heat)
      && (AdvectBase(Fuel) in t <==> c.fire) && (AdvectBase(React) in t <==> c.fire)
      && (AdvectBase(ColorR) in t <==> c.colors) && (AdvectBase(ColorG) in t <==> c.colors)
      && (AdvectBase(ColorB) in t <==> c.colors)
  {
  }

  lemma AdvectionBounds(c: Config)
    ensures var t := AdvectionTrace(c);
      (forall e :: e in t ==> e.Advect? && e.level == Base && (e.bounds != Closed <==> e.field == Vel))
      && Advect(Vel, Base, OpenWithWidth(c.doOpen)) in t
  {
  }

  /** The events of t that satisfy p, in order. */
  function Select(t: seq<Event>, p: Event -> bool): (r: seq<Event>)
    ensures |r| <= |t|
  {
    if |t| == 0 then [] else (if p(t[0]) then [t[0]] else []) + Select(t[1..], p)
  }

  lemma {:induction false} SelectAppend(a: seq<Event>, b: seq<Event>, p: Event -> bool)
    ensures Select(a + b, p) == Select(a, p) + Select(b, p)
  {
    if |a| == 0 {
      assert a + b == b;
    } else {
      var ab := a + b;
      var head := if p(a[0]) then [a[0]] else [];
      assert ab[0] == a[0];
      assert ab[1..] == a[1..] + b;
      assert Select(ab, p) == head + Select(a[1..] + b, p);
      assert Select(a, p) == head + Select(a[1..], p);
      SelectAppend(a[1..], b, p);
    }
  }

  /** Selection distributes over a log made of five parts. */
  lemma SelectFive(a: seq<Event>, b: seq<Event>, c: seq<Event>, d: seq<Event>, e: seq<Event>, p: Event -> bool)
    ensures Select(a + b + c + d + e, p) == Select(a, p) + Select(b, p) + Select(c, p) + Select(d, p) + Select(e, p)
  {
    SelectAppend(a, b, p);
    SelectAppend(a + b, c, p);
    SelectAppend(a + b + c, d, p);
    SelectAppend(a + b + c + d, e, p);
  }

  lemma {:induction false} SelectNone(t: seq<Event>, p: Event -> bool)
    requires forall e :: e in t ==> !p(e)
    ensures Select(t, p) == []
  {
    if |t| > 0 {
      assert forall e :: e in t[1..] ==> e in t;
      SelectNone(t[1..], p);
    }
  }

  lemma {:induction false} SelectAll(t: seq<Event>, p: Event -> bool)
    requires forall e :: e in t ==> p(e)
    ensures Select(t, p) == t
  {
    if |t| > 0 {
      assert forall e :: e in t[1..] ==> e in t;
      SelectAll(t[1..], p);
    }
  }

  predicate IsPressure(e: Event)
  {
    e.SolvePressure? || e.GuidedPressure?
  }

  predicate IsBuoyancy(e: Event)
  {
    e.AddBuoyancy?
  }

  /** The pressure solve smoke_step ends with: guided when guiding is on, fixed when the domain is closed. */
  function PressureSolve(c: Config): Event
  {
    if c.guiding then GuidedPressure(!c.doOpen) else SolvePressure(!c.doOpen)
  }

  /** The stages of smoke_step after advection: forces, obstacle velocities, walls, pressure. */
  function ForceTail(c: Config): seq<Event>
  {
    BeforePressure(c) + [PressureSolve(c)]
  }

  /** The tail up to the wall boundary conditions. */
  function BeforePressure(c: Config): seq<Event>
  {
    OutflowPart(c) + [Vorticity] + BuoyancyPart(c) + [AddForceField]
    + ObstaclePart(c) + InvelPart(c) + [SetWallBcs(c.obstacle)]
  }

  function OutflowPart(c: Config): seq<Event>
  {
    if c.doOpen then [ResetOutflow] else []
  }

  function BuoyancyPart(c: Config): seq<Event>
  {
    if c.heat then [AddBuoyancy(Density, DensityCoefficient), AddBuoyancy(Heat, HeatCoefficient)]
    else [AddBuoyancy(Density, NoCoefficient)]
  }

  function ObstaclePart(c: Config): seq<Event>
  {
    if c.obstacle then [ExtrapolateObstacleVelocity(true, HalfRes), ExtrapolateObstacleVelocity(false, OneCell),
                        ResampleObstacleVelocity]
    else []
  }

  function InvelPart(c: Config): seq<Event>
  {
    if c.invel then [SetInitialVelocity] else []
  }

  /** smoke_step: the advection block, then the force/pressure tail. */
  function SmokeStepTrace(c: Config): seq<Event>
  {
    AdvectionTrace(c) + ForceTail(c)
  }

  lemma AdvectionHasNoPressure(c: Config)
    ensures Select(AdvectionTrace(c), IsPressure) == []
  {
    AdvectionSelection(c);
    SelectNone(AdvectionTrace(c), IsPressure);
  }

  lemma BeforePressureHasNoPressure(c: Config)
    ensures Select(BeforePressure(c), IsPressure) == []
  {
    forall e | e in BeforePressure(c) ensures !IsPressure(e) {
    }
    SelectNone(BeforePressure(c), IsPressure);
  }

  /**
   * The step makes exactly one pressure solve, as its last stage: the
   * guided one exactly when guiding is on, with pressure fixing exactly
   * when the domain is closed.
   */
  lemma PressureOnce(c: Config)
    ensures Select(SmokeStepTrace(c), IsPressure) == [PressureSolve(c)]
    ensures SmokeStepTrace(c)[|SmokeStepTrace(c)| - 1] == PressureSolve(c)
    ensures PressureSolve(c).zeroPressureFixing == !c.doOpen
    ensures PressureSolve(c).GuidedPressure? <==> c.guiding
  {
    AdvectionHasNoPressure(c);
    BeforePressureHasNoPressure(c);
    SelectAppend(BeforePressure(c), [PressureSolve(c)], IsPressure);
    SelectAppend(AdvectionTrace(c), ForceTail(c), IsPressure);
  }

  /** The tail around its buoyancy stages. */
  lemma ForceTailAroundBuoyancy(c: Config)
    ensures ForceTail(c) == (OutflowPart(c) + [Vorticity]) + BuoyancyPart(c)
      + ([AddForceField] + ObstaclePart(c) + InvelPart(c) + [SetWallBcs(c.obstacle), PressureSolve(c)])
  {
  }

  lemma OtherForcesHaveNoBuoyancy(c: Config)
    ensures Select(OutflowPart(c) + [Vorticity], IsBuoyancy) == []
    ensures Select([AddForceField] + ObstaclePart(c) + InvelPart(c) + [SetWallBcs(c.obstacle), PressureSolve(c)],
                   IsBuoyancy) == []
  {
    var after := [AddForceField] + ObstaclePart(c) + InvelPart(c) + [SetWallBcs(c.obstacle), PressureSolve(c)];
    forall e | e in after ensures !IsBuoyancy(e) {
    }
    SelectNone(OutflowPart(c) + [Vorticity], IsBuoyancy);
    SelectNone(after, IsBuoyancy);
  }

  /**
   * Buoyancy: with heat, the density buoyancy and then the heat buoyancy,
   * each with its coefficient; without heat, one density buoyancy without a
   * coefficient. No other buoyancy call is made.
   */
  lemma BuoyancyCalls(c: Config)
    ensures Select(ForceTail(c), IsBuoyancy)
      == if c.heat then [AddBuoyancy(Density, DensityCoefficient), AddBuoyancy(Heat, HeatCoefficient)]
         else [AddBuoyancy(Density, NoCoefficient)]
  {
    var before := OutflowPart(c) + [Vorticity];
    var after := [AddForceField] + ObstaclePart(c) + InvelPart(c) + [SetWallBcs(c.obstacle), PressureSolve(c)];
    ForceTailAroundBuoyancy(c);
    OtherForcesHaveNoBuoyancy(c);
    assert Select(BuoyancyPart(c), IsBuoyancy) == BuoyancyPart(c);
    SelectAppend(before, BuoyancyPart(c), IsBuoyancy);
    SelectAppend(before + BuoyancyPart(c), after, IsBuoyancy);
  }

  /** The outflow reset is made exactly when the domain is open, and then first. */
  lemma OutflowSelection(c: Config)
    ensures ResetOutflow in ForceTail(c) <==> c.doOpen
    ensures c.doOpen ==> ForceTail(c)[0] == ResetOutflow
  {
  }

  /** The three obstacle-velocity stages are made exactly with an obstacle. */
  lemma ObstacleSelection(c: Config)
    ensures ExtrapolateObstacleVelocity(true, HalfRes) in ForceTail(c) <==> c.obstacle
    ensures ExtrapolateObstacleVelocity(false, OneCell) in ForceTail(c) <==> c.obstacle
    ensures ResampleObstacleVelocity in ForceTail(c) <==> c.obstacle
  {
    var others := OutflowPart(c) + BuoyancyPart(c) + InvelPart(c);
    assert forall e :: e in others ==> !e.ExtrapolateObstacleVelocity? && !e.ResampleObstacleVelocity?;
  }

  /** The initial velocity is set exactly when it is enabled. */
  lemma InvelSelection(c: Config)
    ensures SetInitialVelocity in ForceTail(c) <==> c.invel
  {
  }

  /** The walls get obstacle velocities exactly with an obstacle; vorticity and the force field are always applied. */
  lemma WallSelection(c: Config)
    ensures SetWallBcs(c.obstacle) in ForceTail(c)
    ensures SetWallBcs(!c.obstacle) !in ForceTail(c)
    ensures Vorticity in ForceTail(c) && AddForceField in ForceTail(c)
  {
    assert SetWallBcs(!c.obstacle) !in ForceTail(c) by {
      assert forall e :: e in OutflowPart(c) + BuoyancyPart(c) + ObstaclePart(c) + InvelPart(c) ==> !e.SetWallBcs?;
    }
    assert ForceTail(c) == BeforePressure(c) + [PressureSolve(c)];
  }

  /** With an obstacle, its velocity is extrapolated inside, then one cell outside, then resampled, in a row. */
  lemma ObstacleVelocityOrder(c: Config)
    requires c.obstacle
    ensures var i := (if c.doOpen then 1 else 0) + 1 + |BuoyancyPart(c)| + 1;
      ForceTail(c)[i..i + 3] == [ExtrapolateObstacleVelocity(true, HalfRes),
                                 ExtrapolateObstacleVelocity(false, OneCell), ResampleObstacleVelocity]
  {
  }

  /** The part of smoke_adaptive_step before smoke_step. */
  function StepHead(c: Config): seq<Event>
  {
    [SetTimeParams, FluidPreStep]
    + (if c.obstacle then [JoinPhiObs] else [])
    + [JoinPhiOut, SetObstacleFlags(Base), FillGrid(Base)]
    + (if c.fire then [ProcessBurn(Base, c.colors, c.heat)] else [])
  }

  /** The part of smoke_adaptive_step after smoke_step. */
  function StepTail(c: Config): seq<Event>
  {
    (if c.fire then [UpdateFlame(Base)] else []) + [SolverStep(Base), FluidPostStep]
  }

  /** smoke_adaptive_step: one base-resolution frame step. */
  function AdaptiveStepTrace(c: Config): seq<Event>
  {
    StepHead(c) + SmokeStepTrace(c) + StepTail(c)
  }

  /** The stages of smoke_adaptive_step that are not part of smoke_step. */
  predicate IsFrameStage(e: Event)
  {
    e.SetTimeParams? || e.FluidPreStep? || e.FluidPostStep? || e.JoinPhiObs? || e.JoinPhiOut?
    || e.SetObstacleFlags? || e.FillGrid? || e.ProcessBurn? || e.UpdateFlame? || e.SolverStep?
  }

  lemma AdvectionHasNoFrameStage(c: Config)
    ensures Select(AdvectionTrace(c), IsFrameStage) == []
  {
    assert forall e :: e in AdvectionTrace(c) ==> e.Advect?;
    SelectNone(AdvectionTrace(c), IsFrameStage);
  }

  lemma ForceTailHasNoFrameStage(c: Config)
    ensures Select(ForceTail(c), IsFrameStage) == []
  {
    var before := BeforePressure(c);
    assert Select(before, IsFrameStage) == [] by {
      assert forall e :: e in OutflowPart(c) ==> !IsFrameStage(e);
      assert forall e :: e in BuoyancyPart(c) ==> !IsFrameStage(e);
      assert forall e :: e in ObstaclePart(c) ==> !IsFrameStage(e);
      assert forall e :: e in InvelPart(c) ==> !IsFrameStage(e);
      SelectNone(before, IsFrameStage);
    }
    SelectNone([PressureSolve(c)], IsFrameStage);
    SelectAppend(before, [PressureSolve(c)], IsFrameStage);
  }

  /** The smoke step invokes no stage of the surrounding frame step. */
  lemma SmokeStepEvents(c: Config)
    ensures Select(SmokeStepTrace(c), IsFrameStage) == []
  {
    AdvectionHasNoFrameStage(c);
    ForceTailHasNoFrameStage(c);
    SelectAppend(AdvectionTrace(c), ForceTail(c), IsFrameStage);
  }

  /** The frame step begins with the time parameters and the pre-step and ends with the solver step and the post-step. */
  lemma AdaptiveStepEnds(c: Config)
    ensures AdaptiveStepTrace(c)[..2] == [SetTimeParams, FluidPreStep]
    ensures AdaptiveStepTrace(c)[|AdaptiveStepTrace(c)| - 2..] == [SolverStep(Base), FluidPostStep]
  {
    var t := AdaptiveStepTrace(c);
    assert t[..2] == StepHead(c)[..2];
    assert t[|t| - 2..] == StepTail(c)[|StepTail(c)| - 2..];
  }

  lemma FrameStagesAround(c: Config)
    ensures Select(StepHead(c), IsFrameStage) == StepHead(c)
    ensures Select(StepTail(c), IsFrameStage) == StepTail(c)
  {
    forall e | e in StepHead(c) ensures IsFrameStage(e) {
    }
    forall e | e in StepTail(c) ensures IsFrameStage(e) {
    }
    SelectAll(StepHead(c), IsFrameStage);
    SelectAll(StepTail(c), IsFrameStage);
  }

  /** Around the smoke step, the frame step makes exactly the stages of its head and its tail. */
  lemma FrameStageSelection(c: Config)
    ensures Select(AdaptiveStepTrace(c), IsFrameStage) == StepHead(c) + StepTail(c)
  {
    SmokeStepEvents(c);
    FrameStagesAround(c);
    SelectAppend(StepHead(c), SmokeStepTrace(c), IsFrameStage);
    SelectAppend(StepHead(c) + SmokeStepTrace(c), StepTail(c), IsFrameStage);
  }

  /**
   * The obstacle levelset is joined exactly with an obstacle, the outflow
   * levelset always; the burn and the flame update are made exactly with fire.
   */
  lemma FrameStageFeatures(c: Config)
    ensures JoinPhiObs in StepHead(c) <==> c.obstacle
    ensures JoinPhiOut in StepHead(c)
    ensures ProcessBurn(Base, c.colors, c.heat) in StepHead(c) <==> c.fire
    ensures UpdateFlame(Base) in StepTail(c) <==> c.fire
  {
  }

  /**
   * The smoke step runs as one block after the obstacle flags are filled,
   * right after the burn when there is fire, and is followed by the flame
   * update when there is fire, by the solver step otherwise.
   */
  lemma AdaptiveStepBlock(c: Config)
    ensures var t, i, n := AdaptiveStepTrace(c), |StepHead(c)|, |SmokeStepTrace(c)|;
      i + n < |t|
      && t[i..i + n] == SmokeStepTrace(c)
      && t[i - 1] == (if c.fire then ProcessBurn(Base, c.colors, c.heat) else FillGrid(Base))
      && t[i + n] == (if c.fire then UpdateFlame(Base) else SolverStep(Base))
  {
    var t, i, n := AdaptiveStepTrace(c), |StepHead(c)|, |SmokeStepTrace(c)|;
    assert t[i..i + n] == SmokeStepTrace(c);
    assert t[i - 1] == StepHead(c)[i - 1];
    assert t[i + n] == StepTail(c)[0];
  }
}
