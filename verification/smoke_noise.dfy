/**
 * The stateful part of the generated smoke program: the dictionaries of
 * grids that are saved and loaded, the list of UV grids the wavelet noise
 * advects, and the high-resolution noise step with its loops. Engine calls
 * are recorded in the program's trace; the grids' numerical contents are
 * not modelled, except for the UV grids, whose contents are tracked
 * symbolically to follow what the pre- and post-steps copy where.
 */
module SmokeNoise {
  import opened SmokeStages
  import CacheFlags

  /** uvs_s: the number of UV grids. */
  const Uvs: nat := 2

  /** The resetTime updateUvWeight receives. */
  const UvResetTime: nat := 10

  /** The first spatial scale of the noise (sPos before the octave loop). */
  const FirstSpatialScale: nat := 2

  /**
   * Contents of a UV grid (three texture grids seen as one vector grid):
   * freshly created, reset to the identity coordinates, or the result of
   * one more noise step (advection and weight update) applied to a previous content.
   */
  datatype UvField = Blank | Identity | Stepped(prev: UvField)

  // ---------------------------------------------------------------------
  // Dictionaries of saved grids: key -> the variable holding the grid.
  // ---------------------------------------------------------------------

  type GridDict = map<string, string>

  /** smoke_alloc: the data dictionary as created. */
  function SmokeAllocEntries(): GridDict
  {
    map["density" := "density_s", "shadow" := "shadow_s"]
  }

  /** smoke_alloc_noise: the noise dictionary as created, with both texture triples added. */
  function NoiseAllocEntries(): GridDict
  {
    map["density_noise" := "density_sn",
        "texture_u" := "texture_u_s", "texture_v" := "texture_v_s", "texture_w" := "texture_w_s",
        "texture_u2" := "texture_u2_s", "texture_v2" := "texture_v2_s", "texture_w2" := "texture_w2_s"]
  }

  function ColorEntries(): GridDict
  {
    map["color_r" := "color_r_s", "color_g" := "color_g_s", "color_b" := "color_b_s"]
  }

  function ColorNoiseEntries(): GridDict
  {
    map["color_r_noise" := "color_r_sn", "color_g_noise" := "color_g_sn", "color_b_noise" := "color_b_sn"]
  }

  function HeatEntries(): GridDict
  {
    map["heat" := "heat_s"]
  }

  function FireEntries(): GridDict
  {
    map["flame" := "flame_s", "fuel" := "fuel_s", "react" := "react_s"]
  }

  function FireNoiseEntries(): GridDict
  {
    map["react_noise" := "react_sn", "fuel_noise" := "fuel_sn", "flame_noise" := "flame_sn"]
  }

  /** dict.update: the entries of e win, every other entry of d is kept, and no key is removed. */
  function Update(d: GridDict, e: GridDict): (r: GridDict)
    ensures r.Keys == d.Keys + e.Keys
    ensures forall k :: k in e ==> r[k] == e[k]
    ensures forall k :: k in d && k !in e ==> r[k] == d[k]
  {
    d + e
  }

  /** Updates with entries of disjoint keys can be made in either order. */
  lemma UpdatesCommute(d: GridDict, e1: GridDict, e2: GridDict)
    requires e1.Keys !! e2.Keys
    ensures Update(Update(d, e1), e2) == Update(Update(d, e2), e1)
  {
  }

  /** The data templates name disjoint sets of keys, so their order does not matter. */
  lemma DataTemplatesDisjoint()
    ensures SmokeAllocEntries().Keys !! ColorEntries().Keys
    ensures SmokeAllocEntries().Keys !! HeatEntries().Keys
    ensures SmokeAllocEntries().Keys !! FireEntries().Keys
    ensures ColorEntries().Keys !! HeatEntries().Keys
    ensures ColorEntries().Keys !! FireEntries().Keys
    ensures HeatEntries().Keys !! FireEntries().Keys
  {
  }

  /** The noise templates name disjoint sets of keys. */
  lemma NoiseTemplatesDisjoint()
    ensures NoiseAllocEntries().Keys !! ColorNoiseEntries().Keys
    ensures NoiseAllocEntries().Keys !! FireNoiseEntries().Keys
    ensures ColorNoiseEntries().Keys !! FireNoiseEntries().Keys
  {
  }

  /** The keys the data dictionary holds once the grids of the enabled features are allocated. */
  function DataKeys(colors: bool, heat: bool, fire: bool): set<string>
  {
    {"density", "shadow"}
    + (if colors then {"color_r", "color_g", "color_b"} else {})
    + (if heat then {"heat"} else {})
    + (if fire then {"flame", "fuel", "react"} else {})
  }

  /** The keys the noise dictionary holds once the noise grids of the enabled features are allocated. */
  function NoiseKeys(colors: bool, fire: bool): set<string>
  {
    {"density_noise", "texture_u", "texture_v", "texture_w", "texture_u2", "texture_v2", "texture_w2"}
    + (if colors then {"color_r_noise", "color_g_noise", "color_b_noise"} else {})
    + (if fire then {"react_noise", "fuel_noise", "flame_noise"} else {})
  }

  /** The data keys are the keys of the templates of the enabled features. */
  lemma DataKeysFromTemplates(colors: bool, heat: bool, fire: bool)
    ensures DataKeys(colors, heat, fire)
      == SmokeAllocEntries().Keys + (if colors then ColorEntries().Keys else {})
         + (if heat then HeatEntries().Keys else {}) + (if fire then FireEntries().Keys else {})
  {
    assert SmokeAllocEntries().Keys == {"density", "shadow"};
    assert ColorEntries().Keys == {"color_r", "color_g", "color_b"};
    assert HeatEntries().Keys == {"heat"};
    assert FireEntries().Keys == {"flame", "fuel", "react"};
  }

  /** The noise keys are the keys of the noise templates of the enabled features. */
  lemma NoiseKeysFromTemplates(colors: bool, fire: bool)
    ensures NoiseKeys(colors, fire)
      == NoiseAllocEntries().Keys + (if colors then ColorNoiseEntries().Keys else {})
         + (if fire then FireNoiseEntries().Keys else {})
  {
    assert NoiseAllocEntries().Keys
      == {"density_noise", "texture_u", "texture_v", "texture_w", "texture_u2", "texture_v2", "texture_w2"};
    assert ColorNoiseEntries().Keys == {"color_r_noise", "color_g_noise", "color_b_noise"};
    assert FireNoiseEntries().Keys == {"react_noise", "fuel_noise", "flame_noise"};
  }

  /** The data dictionary once the grids of the enabled features are allocated. */
  function AllocatedData(colors: bool, heat: bool, fire: bool): GridDict
  {
    var d0 := SmokeAllocEntries();
    var d1 := if colors then Update(d0, ColorEntries()) else d0;
    var d2 := if heat then Update(d1, HeatEntries()) else d1;
    if fire then Update(d2, FireEntries()) else d2
  }

  /** The noise dictionary once the noise grids of the enabled features are allocated. */
  function AllocatedNoise(colors: bool, fire: bool): GridDict
  {
    var d0 := NoiseAllocEntries();
    var d1 := if colors then Update(d0, ColorNoiseEntries()) else d0;
    if fire then Update(d1, FireNoiseEntries()) else d1
  }

  /** After allocation the data dictionary holds exactly the keys of the enabled features. */
  lemma AllocatedDataKeys(colors: bool, heat: bool, fire: bool)
    ensures AllocatedData(colors, heat, fire).Keys == DataKeys(colors, heat, fire)
  {
    DataKeysFromTemplates(colors, heat, fire);
  }

  /** After allocation the noise dictionary holds exactly the keys of the enabled features. */
  lemma AllocatedNoiseKeys(colors: bool, fire: bool)
    ensures AllocatedNoise(colors, fire).Keys == NoiseKeys(colors, fire)
  {
    NoiseKeysFromTemplates(colors, fire);
  }

  // ---------------------------------------------------------------------
  // The UV pre- and post-steps.
  // ---------------------------------------------------------------------

  /** The UV list after the pre-step: two fresh identity grids, or the textures copied into the first two. */
  function PreStepUv(uv: seq<UvField>, textures: seq<UvField>): (r: seq<UvField>)
    requires |uv| == 0 || |uv| >= 2
    requires |textures| == 2
    ensures |uv| == 0 ==> r == [Identity, Identity]
    ensures |uv| != 0 ==> |r| == |uv| && r[..2] == textures && r[2..] == uv[2..]
  {
    if |uv| == 0 then [Identity, Identity]
    else
      var r := uv[0 := textures[0]][1 := textures[1]];
      assert r[..2] == [textures[0], textures[1]];
      r
  }

  /** What the post-step writes into the two texture triples. */
  function PostStepTextures(uv: seq<UvField>): (r: seq<UvField>)
    requires |uv| >= 2
    ensures |r| == 2 && r[0] == uv[0] && r[1] == uv[1]
  {
    uv[..2]
  }

  /** A post-step followed by a pre-step leaves the UV list as it was. */
  lemma PostThenPreRestores(uv: seq<UvField>)
    requires |uv| == Uvs
    ensures PreStepUv(uv, PostStepTextures(uv)) == uv
  {
  }

  /** A pre-step on an initialised list followed by a post-step gives back the textures. */
  lemma PreThenPostKeepsTextures(uv: seq<UvField>, textures: seq<UvField>)
    requires |uv| == Uvs && |textures| == 2
    ensures PostStepTextures(PreStepUv(uv, textures)) == textures
  {
  }

  /** The list has Uvs grids after the pre-step, from an empty or an initialised list. */
  lemma PreStepLength(uv: seq<UvField>, textures: seq<UvField>)
    requires |uv| == 0 || |uv| == Uvs
    requires |textures| == 2
    ensures |PreStepUv(uv, textures)| == Uvs
  {
  }

  /** Every grid of the list after one more noise step. */
  function StepUvs(uv: seq<UvField>): (r: seq<UvField>)
    ensures |r| == |uv| && forall i :: 0 <= i < |uv| ==> r[i] == Stepped(uv[i])
  {
    seq(|uv|, i requires 0 <= i < |uv| => Stepped(uv[i]))
  }

  /** The first i grids of the list stepped once more, the rest unchanged. */
  function StepUvPrefix(uv: seq<UvField>, i: nat): (r: seq<UvField>)
    requires i <= |uv|
    ensures |r| == |uv|
    ensures forall j :: 0 <= j < i ==> r[j] == Stepped(uv[j])
    ensures forall j :: i <= j < |uv| ==> r[j] == uv[j]
  {
    seq(|uv|, j requires 0 <= j < |uv| => if j < i then Stepped(uv[j]) else uv[j])
  }

  /** n noise steps applied to one grid. */
  function SteppedTimes(u: UvField, n: nat): UvField
  {
    if n == 0 then u else Stepped(SteppedTimes(u, n - 1))
  }

  /** n noise steps applied to every grid of the list. */
  function StepUvsTimes(uv: seq<UvField>, n: nat): (r: seq<UvField>)
    ensures |r| == |uv|
  {
    if n == 0 then uv else StepUvs(StepUvsTimes(uv, n - 1))
  }

  /** After n steps of the list, each grid has been stepped n times, and no grid changes place. */
  lemma {:induction false} StepUvsTimesAt(uv: seq<UvField>, n: nat, i: nat)
    requires i < |uv|
    ensures StepUvsTimes(uv, n)[i] == SteppedTimes(uv[i], n)
  {
    if n > 0 {
      StepUvsTimesAt(uv, n - 1, i);
    }
  }

  /** A grid stepped n times is n steps away from where it started: steps are never lost or merged. */
  lemma {:induction false} SteppedTimesInjective(u: UvField, m: nat, n: nat)
    requires SteppedTimes(u, m) == SteppedTimes(u, n)
    ensures m == n
    decreases m + n
  {
    if m > 0 && n > 0 {
      SteppedTimesInjective(u, m - 1, n - 1);
    } else if m > 0 {
      SteppedTimesGrows(u, m);
      assert false;
    } else if n > 0 {
      SteppedTimesGrows(u, n);
      assert false;
    }
  }

  function Depth(u: UvField): nat
  {
    match u
    case Stepped(p) => 1 + Depth(p)
    case _ => 0
  }

  lemma {:induction false} SteppedTimesGrows(u: UvField, n: nat)
    ensures Depth(SteppedTimes(u, n)) == Depth(u) + n
  {
    if n > 0 {
      SteppedTimesGrows(u, n - 1);
    }
  }

  // ---------------------------------------------------------------------
  // Traces of the noise step.
  // ---------------------------------------------------------------------

  /** The UV loop of step_noise over the first n grids: advect, then update the weight. */
  function UvAdvectTrace(n: nat): (t: seq<Event>)
    ensures |t| == 2 * n
  {
    if n == 0 then [] else UvAdvectTrace(n - 1) + [Advect(Uv(n - 1), Base, Closed), UpdateUvWeight(n - 1, UvResetTime)]
  }

  /** Grid i is advected at position 2i and its weight updated right after. */
  lemma {:induction false} UvAdvectTraceAt(n: nat, i: nat)
    requires i < n
    ensures UvAdvectTrace(n)[2 * i] == Advect(Uv(i), Base, Closed)
    ensures UvAdvectTrace(n)[2 * i + 1] == UpdateUvWeight(i, UvResetTime)
  {
    if i < n - 1 {
      UvAdvectTraceAt(n - 1, i);
    }
  }

  /** The energy stages between the UV loop and the octave loop. */
  function EnergyTrace(): seq<Event>
  {
    [ComputeEnergy, CopyTempFlags, ExtrapolateFlags(2), ExtrapolateEnergy(6), ComputeWaveletCoeffs]
  }

  /** The inner octave loop over the first n UV grids, at octave o. */
  function NoiseRow(o: nat, n: nat): (t: seq<Event>)
    ensures |t| == n
  {
    if n == 0 then [] else NoiseRow(o, n - 1) + [ApplyNoise(n - 1, Pow2(o + 1))]
  }

  /** The first o octaves of the octave loop, n UV grids each. */
  function NoiseOctaves(o: nat, n: nat): seq<Event>
  {
    if o == 0 then [] else NoiseOctaves(o - 1, n) + NoiseRow(o - 1, n)
  }

  /** The octave loop makes octaves * uvs noise applications. */
  lemma {:induction false} NoiseOctavesLength(o: nat, n: nat)
    ensures |NoiseOctaves(o, n)| == o * n
  {
    if o > 0 {
      NoiseOctavesLength(o - 1, n);
      assert (o - 1) * n + n == o * n;
    }
  }

  lemma {:induction false} NoiseRowAt(o: nat, n: nat, i: nat)
    requires i < n
    ensures NoiseRow(o, n)[i] == ApplyNoise(i, Pow2(o + 1))
  {
    if i < n - 1 {
      NoiseRowAt(o, n - 1, i);
    }
  }

  lemma {:induction false} MulLeft(a: nat, b: nat, n: nat)
    requires a <= b
    ensures a * n <= b * n
    decreases b
  {
    if a < b {
      MulLeft(a, b - 1, n);
      assert (b - 1) * n + n == b * n;
    }
  }

  /**
   * At octave q the octave loop applies the noise to UV grid i at position
   * q * n + i, with the spatial scale 2^(q+1): the scale doubles at each octave.
   */
  lemma {:induction false} NoiseOctavesAt(o: nat, n: nat, q: nat, i: nat)
    requires q < o && i < n
    ensures |NoiseOctaves(o, n)| == o * n && q * n + i < o * n
    ensures NoiseOctaves(o, n)[q * n + i] == ApplyNoise(i, Pow2(q + 1))
  {
    var prev := NoiseOctaves(o - 1, n);
    assert NoiseOctaves(o, n) == prev + NoiseRow(o - 1, n);
    NoiseOctavesLength(o, n);
    NoiseOctavesLength(o - 1, n);
    assert (o - 1) * n + n == o * n;
    MulLeft(q, o - 1, n);
    if q < o - 1 {
      MulLeft(q + 1, o - 1, n);
      assert q * n + n == (q + 1) * n;
      NoiseOctavesAt(o - 1, n, q, i);
    } else {
      NoiseRowAt(o - 1, n, i);
    }
  }

  /** One high-resolution substep: colors, fire, then density, all with open bounds when the domain is open. */
  function SubstepTrace(c: Config): (t: seq<Event>)
    ensures |t| >= 1 && t[|t| - 1] == Advect(Density, HighRes, Open(c.doOpen))
  {
    (if c.colors then [Advect(ColorR, HighRes, Open(c.doOpen)), Advect(ColorG, HighRes, Open(c.doOpen)),
                       Advect(ColorB, HighRes, Open(c.doOpen))] else [])
    + (if c.fire then [Advect(Fuel, HighRes, Open(c.doOpen)), Advect(React, HighRes, Open(c.doOpen))] else [])
    + [Advect(Density, HighRes, Open(c.doOpen))]
  }

  /** The first k substeps of the substep loop. */
  function HighResTrace(c: Config, k: nat): seq<Event>
  {
    if k == 0 then [] else HighResTrace(c, k - 1) + SubstepTrace(c)
  }

  /** The substep loop makes k substeps of equal length. */
  lemma {:induction false} HighResTraceLength(c: Config, k: nat)
    ensures |HighResTrace(c, k)| == k * |SubstepTrace(c)|
  {
    if k > 0 {
      HighResTraceLength(c, k - 1);
      assert (k - 1) * |SubstepTrace(c)| + |SubstepTrace(c)| == k * |SubstepTrace(c)|;
    }
  }

  /** Substep j occupies its own block of the loop's trace, and so ends with the density advection. */
  lemma {:induction false} HighResTraceBlock(c: Config, k: nat, j: nat)
    requires j < k
    ensures j * |SubstepTrace(c)| + |SubstepTrace(c)| <= |HighResTrace(c, k)|
    ensures HighResTrace(c, k)[j * |SubstepTrace(c)|..j * |SubstepTrace(c)| + |SubstepTrace(c)|] == SubstepTrace(c)
  {
    var m := |SubstepTrace(c)|;
    var prev := HighResTrace(c, k - 1);
    HighResTraceLength(c, k - 1);
    assert HighResTrace(c, k) == prev + SubstepTrace(c);
    if j < k - 1 {
      HighResTraceBlock(c, k - 1, j);
      SliceOfPrefix(prev, SubstepTrace(c), j * m, j * m + m);
    } else {
      assert j * m == |prev|;
      SliceOfSuffix(prev, SubstepTrace(c));
    }
  }

  /** A slice within the first part of a concatenation is a slice of that part. */
  lemma SliceOfPrefix(a: seq<Event>, b: seq<Event>, i: nat, j: nat)
    requires i <= j <= |a|
    ensures (a + b)[i..j] == a[i..j]
  {
    assert forall x :: 0 <= x < j - i ==> (a + b)[i..j][x] == a[i + x];
  }

  /** The second part of a concatenation is the slice after the first. */
  lemma SliceOfSuffix(a: seq<Event>, b: seq<Event>)
    ensures (a + b)[|a|..|a| + |b|] == b
  {
    assert forall x :: 0 <= x < |b| ==> (a + b)[|a|..|a| + |b|][x] == b[x];
  }

  /** Every substep ends with the density advection. */
  lemma HighResDensityLast(c: Config, k: nat, j: nat)
    requires j < k
    ensures j * |SubstepTrace(c)| + |SubstepTrace(c)| <= |HighResTrace(c, k)|
    ensures HighResTrace(c, k)[j * |SubstepTrace(c)| + |SubstepTrace(c)| - 1] == Advect(Density, HighRes, Open(c.doOpen))
  {
    var m := |SubstepTrace(c)|;
    HighResTraceBlock(c, k, j);
    assert HighResTrace(c, k)[j * m + m - 1] == HighResTrace(c, k)[j * m..j * m + m][m - 1];
  }

  /** range(int(upres)): no substep for a non-positive upres. */
  function Substeps(upres: int): (n: nat)
    ensures upres >= 0 ==> n == upres
    ensures upres < 0 ==> n == 0
  {
    if upres < 0 then 0 else upres
  }

  /** step_noise as a whole. */
  function StepNoiseTrace(c: Config, octaves: nat): seq<Event>
  {
    [InterpolateDensity, InterpolateVel] + UvAdvectTrace(Uvs) + EnergyTrace()
    + NoiseOctaves(octaves, Uvs) + HighResTrace(c, Substeps(c.upres))
  }

  predicate IsApplyNoise(e: Event)
  {
    e.ApplyNoise?
  }

  lemma NoiseRowSelected(o: nat, n: nat)
    ensures Select(NoiseRow(o, n), IsApplyNoise) == NoiseRow(o, n)
  {
    forall e | e in NoiseRow(o, n) ensures IsApplyNoise(e) {
      var i :| 0 <= i < n && NoiseRow(o, n)[i] == e;
      NoiseRowAt(o, n, i);
    }
    SelectAll(NoiseRow(o, n), IsApplyNoise);
  }

  lemma {:induction false} NoiseOctavesSelected(o: nat, n: nat)
    ensures Select(NoiseOctaves(o, n), IsApplyNoise) == NoiseOctaves(o, n)
  {
    if o > 0 {
      NoiseOctavesSelected(o - 1, n);
      NoiseRowSelected(o - 1, n);
      SelectAppend(NoiseOctaves(o - 1, n), NoiseRow(o - 1, n), IsApplyNoise);
    }
  }

  /** The UV loop selects nothing for a predicate that holds of none of its calls. */
  lemma {:induction false} UvAdvectNone(n: nat, p: Event -> bool)
    requires forall i: nat :: !p(Advect(Uv(i), Base, Closed)) && !p(UpdateUvWeight(i, UvResetTime))
    ensures Select(UvAdvectTrace(n), p) == []
  {
    if n > 0 {
      UvAdvectNone(n - 1, p);
      SelectAppend(UvAdvectTrace(n - 1), [Advect(Uv(n - 1), Base, Closed), UpdateUvWeight(n - 1, UvResetTime)], p);
    }
  }

  lemma {:induction false} HighResNone(c: Config, k: nat, p: Event -> bool)
    requires Select(SubstepTrace(c), p) == []
    ensures Select(HighResTrace(c, k), p) == []
  {
    if k > 0 {
      HighResNone(c, k - 1, p);
      SelectAppend(HighResTrace(c, k - 1), SubstepTrace(c), p);
    }
  }

  lemma {:induction false} NoiseRowNone(o: nat, n: nat, p: Event -> bool)
    requires forall i: nat, s: nat :: !p(ApplyNoise(i, s))
    ensures Select(NoiseRow(o, n), p) == []
  {
    if n > 0 {
      NoiseRowNone(o, n - 1, p);
      SelectAppend(NoiseRow(o, n - 1), [ApplyNoise(n - 1, Pow2(o + 1))], p);
    }
  }

  lemma {:induction false} NoiseOctavesNone(o: nat, n: nat, p: Event -> bool)
    requires forall i: nat, s: nat :: !p(ApplyNoise(i, s))
    ensures Select(NoiseOctaves(o, n), p) == []
  {
    if o > 0 {
      NoiseOctavesNone(o - 1, n, p);
      NoiseRowNone(o - 1, n, p);
      SelectAppend(NoiseOctaves(o - 1, n), NoiseRow(o - 1, n), p);
    }
  }

  /** step_noise selected piece by piece. */
  lemma StepNoiseSelect(c: Config, octaves: nat, p: Event -> bool)
    ensures Select(StepNoiseTrace(c, octaves), p)
      == Select([InterpolateDensity, InterpolateVel], p) + Select(UvAdvectTrace(Uvs), p) + Select(EnergyTrace(), p)
         + Select(NoiseOctaves(octaves, Uvs), p) + Select(HighResTrace(c, Substeps(c.upres)), p)
  {
    SelectFive([InterpolateDensity, InterpolateVel], UvAdvectTrace(Uvs), EnergyTrace(),
               NoiseOctaves(octaves, Uvs), HighResTrace(c, Substeps(c.upres)), p);
  }

  /**
   * A predicate that holds of no call outside the octave loop selects from
   * step_noise what it selects from the octave loop.
   */
  lemma StepNoiseOctavesOnly(c: Config, octaves: nat, p: Event -> bool)
    requires Select([InterpolateDensity, InterpolateVel], p) == [] && Select(UvAdvectTrace(Uvs), p) == []
    requires Select(EnergyTrace(), p) == [] && Select(SubstepTrace(c), p) == []
    ensures Select(StepNoiseTrace(c, octaves), p) == Select(NoiseOctaves(octaves, Uvs), p)
  {
    StepNoiseSelect(c, octaves, p);
    var o := Select(NoiseOctaves(octaves, Uvs), p);
    assert Select(HighResTrace(c, Substeps(c.upres)), p) == [] by { HighResNone(c, Substeps(c.upres), p); }
    assert [] + [] + [] + o + [] == o;
  }

  /** A predicate that holds of no call of step_noise selects nothing from it. */
  lemma StepNoiseNone(c: Config, octaves: nat, p: Event -> bool)
    requires !p(InterpolateDensity) && !p(InterpolateVel)
    requires forall i: nat :: !p(Advect(Uv(i), Base, Closed)) && !p(UpdateUvWeight(i, UvResetTime))
    requires forall e :: e in EnergyTrace() ==> !p(e)
    requires forall i: nat, s: nat :: !p(ApplyNoise(i, s))
    requires forall e :: e in SubstepTrace(c) ==> !p(e)
    ensures Select(StepNoiseTrace(c, octaves), p) == []
  {
    SelectNone([InterpolateDensity, InterpolateVel], p);
    UvAdvectNone(Uvs, p);
    SelectNone(EnergyTrace(), p);
    SelectNone(SubstepTrace(c), p);
    StepNoiseOctavesOnly(c, octaves, p);
    NoiseOctavesNone(octaves, Uvs, p);
  }

  /**
   * The noise applications of step_noise are exactly the octave loop's:
   * octaves * uvs calls, none elsewhere.
   */
  lemma NoiseApplications(c: Config, octaves: nat)
    ensures Select(StepNoiseTrace(c, octaves), IsApplyNoise) == NoiseOctaves(octaves, Uvs)
    ensures |Select(StepNoiseTrace(c, octaves), IsApplyNoise)| == octaves * Uvs
  {
    NoiseOctavesLength(octaves, Uvs);
    SelectNone([InterpolateDensity, InterpolateVel], IsApplyNoise);
    UvAdvectNone(Uvs, IsApplyNoise);
    SelectNone(EnergyTrace(), IsApplyNoise);
    SelectNone(SubstepTrace(c), IsApplyNoise);
    StepNoiseOctavesOnly(c, octaves, IsApplyNoise);
    NoiseOctavesSelected(octaves, Uvs);
  }

  /** step_noise begins by interpolating density and then velocity onto the noise grid. */
  lemma StepNoiseStart(c: Config, octaves: nat)
    ensures StepNoiseTrace(c, octaves)[0] == InterpolateDensity && StepNoiseTrace(c, octaves)[1] == InterpolateVel
    ensures StepNoiseTrace(c, octaves)[2] == Advect(Uv(0), Base, Closed)
  {
    UvAdvectTraceAt(Uvs, 0);
  }

  /** The substep loop ends with a density advection on the noise grid when it runs at all. */
  lemma StepNoiseEnd(c: Config, octaves: nat)
    requires c.upres >= 1
    ensures StepNoiseTrace(c, octaves)[|StepNoiseTrace(c, octaves)| - 1] == Advect(Density, HighRes, Open(c.doOpen))
  {
    var k := Substeps(c.upres);
    HighResDensityLast(c, k, k - 1);
    HighResTraceLength(c, k);
  }

  // ---------------------------------------------------------------------
  // The noise adaptive step.
  // ---------------------------------------------------------------------

  /** The obstacle levelsets interpolated onto the noise grid by the pre-step. */
  function ObstacleInterpolation(c: Config): seq<Event>
  {
    if c.obstacle then [InterpolatePhiOut, InterpolatePhiObs] else []
  }

  /** The first n grids created and reset. */
  function InitUvTrace(n: nat): (t: seq<Event>)
    ensures |t| == 2 * n
  {
    if n == 0 then [] else InitUvTrace(n - 1) + [CreateUv(n - 1), ResetUv(n - 1)]
  }

  /** The UV part of the pre-step: create and reset the grids, or restore them from the textures. */
  function UvSetupTrace(firstCall: bool): seq<Event>
  {
    if firstCall then InitUvTrace(Uvs) else [CopyTexturesToUv(0), CopyTexturesToUv(1)]
  }

  function PreStepTrace(c: Config, firstCall: bool): seq<Event>
  {
    ObstacleInterpolation(c) + UvSetupTrace(firstCall)
  }

  function PostStepTrace(): seq<Event>
  {
    [CopyUvToTextures(0), CopyUvToTextures(1)]
  }

  /** The frame start of one pass: noise-grid obstacle flags and the adaptive time step. */
  function PassHead(): seq<Event>
  {
    [SetObstacleFlags(HighRes), FillGrid(HighRes), AdaptTimeStepNoise]
  }

  /** process_burn_noise, made with fire; it passes the colors when they are on, and never heat. */
  function NoiseBurnPart(c: Config): seq<Event>
  {
    if c.fire then [ProcessBurn(HighRes, c.colors, false)] else []
  }

  /** update_flame_noise, made with fire. */
  function NoiseFlamePart(c: Config): seq<Event>
  {
    if c.fire then [UpdateFlame(HighRes)] else []
  }

  /** One pass of the while loop of smoke_adaptive_step_noise. */
  function NoiseIteration(c: Config, octaves: nat): seq<Event>
  {
    PassHead() + NoiseBurnPart(c) + StepNoiseTrace(c, octaves) + NoiseFlamePart(c) + [SolverStep(HighRes)]
  }

  /**
   * Selecting from five parts of which the first, second and fourth give
   * nothing selects from the third and fifth.
   */
  lemma SelectAroundMiddle(a: seq<Event>, b: seq<Event>, m: seq<Event>, d: seq<Event>, e: seq<Event>, p: Event -> bool)
    requires Select(a, p) == [] && Select(b, p) == [] && Select(d, p) == []
    ensures Select(a + b + m + d + e, p) == Select(m, p) + Select(e, p)
  {
    SelectFive(a, b, m, d, e, p);
    assert [] + [] + Select(m, p) + [] + Select(e, p) == Select(m, p) + Select(e, p);
  }

  function Repeat(s: seq<Event>, n: nat): seq<Event>
  {
    if n == 0 then [] else Repeat(s, n - 1) + s
  }

  /** smoke_adaptive_step_noise, with n passes of its loop. */
  function AdaptiveNoiseTrace(c: Config, octaves: nat, framenr: int, dt0: real, firstCall: bool, n: nat): seq<Event>
  {
    [SetNoiseFrame(framenr, framenr as real * dt0)] + PreStepTrace(c, firstCall) + Repeat(NoiseIteration(c, octaves), n)
    + PostStepTrace()
  }

  lemma AdaptiveNoiseTraceParts(c: Config, octaves: nat, framenr: int, dt0: real, firstCall: bool, n: nat)
    ensures AdaptiveNoiseTrace(c, octaves, framenr, dt0, firstCall, n)
      == [SetNoiseFrame(framenr, framenr as real * dt0)] + PreStepTrace(c, firstCall) + Repeat(NoiseIteration(c, octaves), n)
         + PostStepTrace()
  {
  }

  lemma Regroup(a: seq<Event>, b: seq<Event>, c: seq<Event>, d: seq<Event>, e: seq<Event>)
    ensures a + (b + c) + d + e == a + b + c + d + e
  {
  }

  /** Four pieces appended one after another to a log. */
  lemma AppendFour(t0: seq<Event>, a: seq<Event>, b: seq<Event>, c: seq<Event>, d: seq<Event>,
                   t1: seq<Event>, t2: seq<Event>, t3: seq<Event>, t4: seq<Event>)
    requires t1 == t0 + a && t2 == t1 + b && t3 == t2 + c && t4 == t3 + d
    ensures t4 == t0 + (a + b + c + d)
  {
  }

  /** Five pieces appended one after another to a log. */
  lemma AppendFive(t0: seq<Event>, a: seq<Event>, b: seq<Event>, c: seq<Event>, d: seq<Event>, e: seq<Event>,
                   t1: seq<Event>, t2: seq<Event>, t3: seq<Event>, t4: seq<Event>, t5: seq<Event>)
    requires t1 == t0 + a && t2 == t1 + b && t3 == t2 + c && t4 == t3 + d && t5 == t4 + e
    ensures t5 == t0 + (a + b + c + d + e)
  {
  }

  lemma RepeatSucc(s: seq<Event>, n: nat)
    ensures Repeat(s, n + 1) == Repeat(s, n) + s
  {
  }

  /** A log of n repetitions followed by one more copy is a log of n + 1 repetitions. */
  lemma RepeatExtend(t0: seq<Event>, s: seq<Event>, n: nat, before: seq<Event>, after: seq<Event>)
    requires before == t0 + Repeat(s, n) && after == before + s
    ensures after == t0 + Repeat(s, n + 1)
  {
    RepeatSucc(s, n);
  }

  /** The noise adaptive step selected piece by piece. */
  lemma AdaptiveSelect(c: Config, octaves: nat, framenr: int, dt0: real, firstCall: bool, n: nat, p: Event -> bool)
    ensures Select(AdaptiveNoiseTrace(c, octaves, framenr, dt0, firstCall, n), p)
      == Select([SetNoiseFrame(framenr, framenr as real * dt0)], p) + Select(ObstacleInterpolation(c), p)
         + Select(UvSetupTrace(firstCall), p) + Select(Repeat(NoiseIteration(c, octaves), n), p) + Select(PostStepTrace(), p)
  {
    var a := [SetNoiseFrame(framenr, framenr as real * dt0)];
    var o, u, r, q := ObstacleInterpolation(c), UvSetupTrace(firstCall), Repeat(NoiseIteration(c, octaves), n), PostStepTrace();
    Regroup(a, o, u, r, q);
    SelectFive(a, o, u, r, q, p);
  }

  /** The position of the first pass after which the engine's step advanced the frame. */
  function FirstAdvance(advances: seq<bool>): (r: nat)
    requires true in advances
    ensures r < |advances| && advances[r]
    ensures forall j :: 0 <= j < r ==> !advances[j]
  {
    if advances[0] then 0 else 1 + FirstAdvance(advances[1..])
  }

  /** Selecting from a repetition selects from each copy. */
  lemma {:induction false} SelectRepeat(s: seq<Event>, n: nat, p: Event -> bool)
    ensures Select(Repeat(s, n), p) == Repeat(Select(s, p), n)
  {
    if n > 0 {
      SelectRepeat(s, n - 1, p);
      SelectAppend(Repeat(s, n - 1), s, p);
    }
  }

  predicate IsNoiseSolverStep(e: Event)
  {
    e.SolverStep? && e.level == HighRes
  }

  /** The UV list transfers of the pre- and post-steps. */
  predicate IsUvTransfer(e: Event)
  {
    e.CopyTexturesToUv? || e.CopyUvToTextures? || e.CreateUv? || e.ResetUv?
  }

  lemma StepNoiseNoSolverStep(c: Config, octaves: nat)
    ensures Select(StepNoiseTrace(c, octaves), IsNoiseSolverStep) == []
  {
    StepNoiseNone(c, octaves, IsNoiseSolverStep);
  }

  /**
   * A predicate that holds of no call of a pass outside step_noise and the
   * solver step selects from the pass what it selects from those two.
   */
  lemma IterationOnlyStepNoise(c: Config, octaves: nat, p: Event -> bool)
    requires Select(PassHead(), p) == [] && Select(NoiseBurnPart(c), p) == [] && Select(NoiseFlamePart(c), p) == []
    ensures Select(NoiseIteration(c, octaves), p) == Select(StepNoiseTrace(c, octaves), p) + Select([SolverStep(HighRes)], p)
  {
    SelectAroundMiddle(PassHead(), NoiseBurnPart(c), StepNoiseTrace(c, octaves), NoiseFlamePart(c), [SolverStep(HighRes)], p);
  }

  /** Each pass of the loop ends with exactly one step of the noise solver. */
  lemma IterationSolverStep(c: Config, octaves: nat)
    ensures Select(NoiseIteration(c, octaves), IsNoiseSolverStep) == [SolverStep(HighRes)]
  {
    SelectNone(PassHead(), IsNoiseSolverStep);
    SelectNone(NoiseBurnPart(c), IsNoiseSolverStep);
    SelectNone(NoiseFlamePart(c), IsNoiseSolverStep);
    IterationOnlyStepNoise(c, octaves, IsNoiseSolverStep);
    StepNoiseNoSolverStep(c, octaves);
    SelectAll([SolverStep(HighRes)], IsNoiseSolverStep);
  }

  /** The noise step makes one step of the noise solver per pass of its loop, and no other. */
  lemma SolverStepsPerPass(c: Config, octaves: nat, framenr: int, dt0: real, firstCall: bool, n: nat)
    ensures Select(AdaptiveNoiseTrace(c, octaves, framenr, dt0, firstCall, n), IsNoiseSolverStep) == Repeat([SolverStep(HighRes)], n)
  {
    var a := [SetNoiseFrame(framenr, framenr as real * dt0)];
    var o, u, q := ObstacleInterpolation(c), UvSetupTrace(firstCall), PostStepTrace();
    var r := Select(Repeat(NoiseIteration(c, octaves), n), IsNoiseSolverStep);
    AdaptiveSelect(c, octaves, framenr, dt0, firstCall, n, IsNoiseSolverStep);
    assert r == Repeat([SolverStep(HighRes)], n) by {
      IterationSolverStep(c, octaves);
      SelectRepeat(NoiseIteration(c, octaves), n, IsNoiseSolverStep);
    }
    assert Select(a, IsNoiseSolverStep) == [] by { SelectNone(a, IsNoiseSolverStep); }
    assert Select(o, IsNoiseSolverStep) == [] by { SelectNone(o, IsNoiseSolverStep); }
    assert Select(u, IsNoiseSolverStep) == [] by {
      InitUvNone(Uvs, IsNoiseSolverStep);
      SelectNone([CopyTexturesToUv(0), CopyTexturesToUv(1)], IsNoiseSolverStep);
    }
    assert Select(q, IsNoiseSolverStep) == [] by { SelectNone(q, IsNoiseSolverStep); }
    assert [] + [] + [] + r + [] == r;
  }

  lemma {:induction false} InitUvNone(n: nat, p: Event -> bool)
    requires forall i: nat :: !p(CreateUv(i)) && !p(ResetUv(i))
    ensures Select(InitUvTrace(n), p) == []
  {
    if n > 0 {
      InitUvNone(n - 1, p);
      SelectAppend(InitUvTrace(n - 1), [CreateUv(n - 1), ResetUv(n - 1)], p);
    }
  }

  lemma StepNoiseNoTransfer(c: Config, octaves: nat)
    ensures Select(StepNoiseTrace(c, octaves), IsUvTransfer) == []
  {
    StepNoiseNone(c, octaves, IsUvTransfer);
  }

  lemma IterationNoTransfer(c: Config, octaves: nat)
    ensures Select(NoiseIteration(c, octaves), IsUvTransfer) == []
  {
    SelectNone(PassHead(), IsUvTransfer);
    SelectNone(NoiseBurnPart(c), IsUvTransfer);
    SelectNone(NoiseFlamePart(c), IsUvTransfer);
    IterationOnlyStepNoise(c, octaves, IsUvTransfer);
    StepNoiseNoTransfer(c, octaves);
    SelectNone([SolverStep(HighRes)], IsUvTransfer);
  }

  lemma {:induction false} InitUvAllTransfers(n: nat)
    ensures Select(InitUvTrace(n), IsUvTransfer) == InitUvTrace(n)
  {
    if n > 0 {
      InitUvAllTransfers(n - 1);
      SelectAppend(InitUvTrace(n - 1), [CreateUv(n - 1), ResetUv(n - 1)], IsUvTransfer);
    }
  }

  /**
   * The UV list is set up once, before the loop, and copied back once,
   * after it, however many passes the loop makes.
   */
  lemma UvTransfersOnce(c: Config, octaves: nat, framenr: int, dt0: real, firstCall: bool, n: nat)
    ensures Select(AdaptiveNoiseTrace(c, octaves, framenr, dt0, firstCall, n), IsUvTransfer) == UvSetupTrace(firstCall) + PostStepTrace()
  {
    var a := [SetNoiseFrame(framenr, framenr as real * dt0)];
    var u, q := UvSetupTrace(firstCall), PostStepTrace();
    AdaptiveSelect(c, octaves, framenr, dt0, firstCall, n, IsUvTransfer);
    assert Select(a, IsUvTransfer) == [] by { SelectNone(a, IsUvTransfer); }
    assert Select(ObstacleInterpolation(c), IsUvTransfer) == [] by { ObstacleInterpolationNoTransfer(c); }
    assert Select(u, IsUvTransfer) == u by { UvSetupSelected(firstCall); }
    assert Select(Repeat(NoiseIteration(c, octaves), n), IsUvTransfer) == [] by { RepeatedPassesNoTransfer(c, octaves, n); }
    assert Select(q, IsUvTransfer) == q by { PostStepSelected(); }
    assert [] + [] + u + [] + q == u + q;
  }

  lemma PostStepSelected()
    ensures Select(PostStepTrace(), IsUvTransfer) == PostStepTrace()
  {
    SelectAll(PostStepTrace(), IsUvTransfer);
  }

  lemma ObstacleInterpolationNoTransfer(c: Config)
    ensures Select(ObstacleInterpolation(c), IsUvTransfer) == []
  {
    SelectNone(ObstacleInterpolation(c), IsUvTransfer);
  }

  lemma RepeatedPassesNoTransfer(c: Config, octaves: nat, n: nat)
    ensures Select(Repeat(NoiseIteration(c, octaves), n), IsUvTransfer) == []
  {
    IterationNoTransfer(c, octaves);
    SelectRepeat(NoiseIteration(c, octaves), n, IsUvTransfer);
    RepeatEmpty(n);
  }

  lemma UvSetupSelected(firstCall: bool)
    ensures Select(UvSetupTrace(firstCall), IsUvTransfer) == UvSetupTrace(firstCall)
  {
    InitUvAllTransfers(Uvs);
    SelectAll([CopyTexturesToUv(0), CopyTexturesToUv(1)], IsUvTransfer);
  }

  lemma RepeatEmpty(n: nat)
    ensures Repeat([], n) == []
  {
  }

  /** The noise frame and its time are set before anything else. */
  lemma NoiseFrameFirst(c: Config, octaves: nat, framenr: int, dt0: real, firstCall: bool, n: nat)
    ensures AdaptiveNoiseTrace(c, octaves, framenr, dt0, firstCall, n)[0] == SetNoiseFrame(framenr, framenr as real * dt0)
  {
  }

  // ---------------------------------------------------------------------
  // The program's state.
  // ---------------------------------------------------------------------

  /**
   * The state the generated smoke program keeps between calls: the two
   * dictionaries, the UV list and the two texture triples it is saved to,
   * the noise solver's frame and time, and the log of engine calls.
   */
  class SmokeProgram {
    const config: Config
    /** octaves_s, fixed from the upres factor when the program is written. */
    const octaves: nat
    var dataDict: GridDict
    var noiseDict: GridDict
    var uv: seq<UvField>
    var textures: seq<UvField>
    var noiseFrame: int
    var timeTotal: real
    var trace: seq<Event>

    /** The UV list is empty until the first pre-step and holds Uvs grids after it. */
    predicate Valid()
      reads this
    {
      |textures| == 2 && (|uv| == 0 || |uv| == Uvs)
    }

    /** smoke_variables_noise: no UV grid yet; smoke_alloc and smoke_alloc_noise create the dictionaries. */
    constructor(c: Config)
      ensures config == c && octaves == Octaves(c.upres) && Valid()
      ensures uv == [] && textures == [Blank, Blank] && trace == []
      ensures dataDict == SmokeAllocEntries()
      ensures c.noise ==> noiseDict == NoiseAllocEntries()
      ensures !c.noise ==> noiseDict == map[]
    {
      config := c;
      octaves := Octaves(c.upres);
      uv := [];
      textures := [Blank, Blank];
      trace := [];
      noiseFrame := 0;
      timeTotal := 0.0;
      dataDict := SmokeAllocEntries();
      noiseDict := if c.noise then NoiseAllocEntries() else map[];
    }

    /** smoke_alloc_colors and smoke_alloc_colors_noise. */
    method AllocColors()
      modifies this
      ensures dataDict == Update(old(dataDict), ColorEntries())
      ensures config.noise ==> noiseDict == Update(old(noiseDict), ColorNoiseEntries())
      ensures !config.noise ==> noiseDict == old(noiseDict)
      ensures uv == old(uv) && textures == old(textures) && trace == old(trace)
      ensures noiseFrame == old(noiseFrame) && timeTotal == old(timeTotal)
    {
      dataDict := Update(dataDict, ColorEntries());
      if config.noise {
        noiseDict := Update(noiseDict, ColorNoiseEntries());
      }
    }

    /** smoke_alloc_heat; heat has no noise grid. */
    method AllocHeat()
      modifies this
      ensures dataDict == Update(old(dataDict), HeatEntries())
      ensures noiseDict == old(noiseDict)
      ensures uv == old(uv) && textures == old(textures) && trace == old(trace)
      ensures noiseFrame == old(noiseFrame) && timeTotal == old(timeTotal)
    {
      dataDict := Update(dataDict, HeatEntries());
    }

    /** smoke_alloc_fire and smoke_alloc_fire_noise. */
    method AllocFire()
      modifies this
      ensures dataDict == Update(old(dataDict), FireEntries())
      ensures config.noise ==> noiseDict == Update(old(noiseDict), FireNoiseEntries())
      ensures !config.noise ==> noiseDict == old(noiseDict)
      ensures uv == old(uv) && textures == old(textures) && trace == old(trace)
      ensures noiseFrame == old(noiseFrame) && timeTotal == old(timeTotal)
    {
      dataDict := Update(dataDict, FireEntries());
      if config.noise {
        noiseDict := Update(noiseDict, FireNoiseEntries());
      }
    }

    /** smoke_pre_step_noise. */
    method PreStepNoise()
      requires Valid()
      modifies this
      ensures Valid() && |uv| == Uvs
      ensures uv == PreStepUv(old(uv), old(textures))
      ensures trace == old(trace) + PreStepTrace(config, |old(uv)| == 0)
      ensures textures == old(textures) && noiseFrame == old(noiseFrame) && timeTotal == old(timeTotal)
      ensures dataDict == old(dataDict) && noiseDict == old(noiseDict)
    {
      trace := trace + ObstacleInterpolation(config);
      if |uv| != 0 {
        uv := uv[0 := textures[0]];
        trace := trace + [CopyTexturesToUv(0)];
        uv := uv[1 := textures[1]];
        trace := trace + [CopyTexturesToUv(1)];
      } else {
        var i := 0;
        while i < Uvs
          invariant 0 <= i <= Uvs
          invariant |uv| == i && forall j :: 0 <= j < i ==> uv[j] == Identity
          invariant trace == old(trace) + ObstacleInterpolation(config) + InitUvTrace(i)
          invariant textures == old(textures) && noiseFrame == old(noiseFrame) && timeTotal == old(timeTotal)
          invariant dataDict == old(dataDict) && noiseDict == old(noiseDict)
        {
          uv := uv + [Blank];
          trace := trace + [CreateUv(i)];
          uv := uv[i := Identity];
          trace := trace + [ResetUv(i)];
          i := i + 1;
        }
        assert uv == [Identity, Identity];
      }
    }

    /** smoke_post_step_noise. */
    method PostStepNoise()
      requires Valid() && |uv| == Uvs
      modifies this
      ensures Valid()
      ensures textures == PostStepTextures(old(uv))
      ensures trace == old(trace) + PostStepTrace()
      ensures uv == old(uv) && noiseFrame == old(noiseFrame) && timeTotal == old(timeTotal)
      ensures dataDict == old(dataDict) && noiseDict == old(noiseDict)
    {
      textures := textures[0 := uv[0]];
      trace := trace + [CopyUvToTextures(0)];
      textures := textures[1 := uv[1]];
      trace := trace + [CopyUvToTextures(1)];
    }

    /** step_noise: the UV loop, the energy stages, the octave loop and the substep loop. */
    method StepNoise()
      requires Valid() && |uv| == Uvs
      modifies this
      ensures Valid()
      ensures uv == StepUvs(old(uv))
      ensures trace == old(trace) + StepNoiseTrace(config, octaves)
      ensures textures == old(textures) && noiseFrame == old(noiseFrame) && timeTotal == old(timeTotal)
      ensures dataDict == old(dataDict) && noiseDict == old(noiseDict)
    {
      trace := trace + [InterpolateDensity, InterpolateVel];
      ghost var t1 := trace;
      AdvectUvs();
      ghost var t2 := trace;
      trace := trace + EnergyTrace();
      ghost var t3 := trace;
      ApplyNoiseOctaves();
      ghost var t4 := trace;
      AdvectHighRes();
      AppendFive(old(trace), [InterpolateDensity, InterpolateVel], UvAdvectTrace(Uvs), EnergyTrace(),
                 NoiseOctaves(octaves, Uvs), HighResTrace(config, Substeps(config.upres)), t1, t2, t3, t4, trace);
    }

    /** The UV loop of step_noise: each grid advected and its weight updated, in order. */
    method AdvectUvs()
      requires |uv| == Uvs
      modifies this
      ensures uv == StepUvs(old(uv))
      ensures trace == old(trace) + UvAdvectTrace(Uvs)
      ensures textures == old(textures) && noiseFrame == old(noiseFrame) && timeTotal == old(timeTotal)
      ensures dataDict == old(dataDict) && noiseDict == old(noiseDict)
    {
      var i := 0;
      while i < Uvs
        invariant 0 <= i <= Uvs
        invariant uv == StepUvPrefix(old(uv), i)
        invariant trace == old(trace) + UvAdvectTrace(i)
        invariant textures == old(textures) && noiseFrame == old(noiseFrame) && timeTotal == old(timeTotal)
        invariant dataDict == old(dataDict) && noiseDict == old(noiseDict)
      {
        uv := uv[i := Stepped(uv[i])];
        trace := trace + [Advect(Uv(i), Base, Closed), UpdateUvWeight(i, UvResetTime)];
        i := i + 1;
      }
    }

    /** The octave loop of step_noise: sPos starts at 2 and doubles after each octave. */
    method ApplyNoiseOctaves()
      modifies this
      ensures trace == old(trace) + NoiseOctaves(octaves, Uvs)
      ensures uv == old(uv) && textures == old(textures) && noiseFrame == old(noiseFrame) && timeTotal == old(timeTotal)
      ensures dataDict == old(dataDict) && noiseDict == old(noiseDict)
    {
      var spatialScale := FirstSpatialScale;
      var o := 0;
      while o < octaves
        invariant 0 <= o <= octaves
        invariant spatialScale == Pow2(o + 1)
        invariant trace == old(trace) + NoiseOctaves(o, Uvs)
        invariant uv == old(uv) && textures == old(textures) && noiseFrame == old(noiseFrame) && timeTotal == old(timeTotal)
        invariant dataDict == old(dataDict) && noiseDict == old(noiseDict)
      {
        ghost var rowStart := trace;
        var j := 0;
        while j < Uvs
          invariant 0 <= j <= Uvs
          invariant trace == rowStart + NoiseRow(o, j)
          invariant uv == old(uv) && textures == old(textures) && noiseFrame == old(noiseFrame) && timeTotal == old(timeTotal)
          invariant dataDict == old(dataDict) && noiseDict == old(noiseDict)
        {
          trace := trace + [ApplyNoise(j, spatialScale)];
          j := j + 1;
        }
        spatialScale := spatialScale * 2;
        o := o + 1;
      }
    }

    /** The substep loop of step_noise: int(upres) substeps on the noise grid. */
    method AdvectHighRes()
      modifies this
      ensures trace == old(trace) + HighResTrace(config, Substeps(config.upres))
      ensures uv == old(uv) && textures == old(textures) && noiseFrame == old(noiseFrame) && timeTotal == old(timeTotal)
      ensures dataDict == old(dataDict) && noiseDict == old(noiseDict)
    {
      var substeps := Substeps(config.upres);
      var k := 0;
      while k < substeps
        invariant 0 <= k <= substeps
        invariant trace == old(trace) + HighResTrace(config, k)
        invariant uv == old(uv) && textures == old(textures) && noiseFrame == old(noiseFrame) && timeTotal == old(timeTotal)
        invariant dataDict == old(dataDict) && noiseDict == old(noiseDict)
      {
        if config.colors {
          trace := trace + [Advect(ColorR, HighRes, Open(config.doOpen)), Advect(ColorG, HighRes, Open(config.doOpen)),
                            Advect(ColorB, HighRes, Open(config.doOpen))];
        }
        if config.fire {
          trace := trace + [Advect(Fuel, HighRes, Open(config.doOpen)), Advect(React, HighRes, Open(config.doOpen))];
        }
        trace := trace + [Advect(Density, HighRes, Open(config.doOpen))];
        k := k + 1;
      }
    }

    /**
     * sn.step(): one step of the noise solver; the oracle says whether it
     * completed the frame. The solver's own time after the step is the
     * engine's business and is left unspecified.
     */
    method NoiseSolverStep(advance: bool)
      modifies this
      ensures noiseFrame == old(noiseFrame) + (if advance then 1 else 0)
      ensures trace == old(trace) + [SolverStep(HighRes)]
      ensures uv == old(uv) && textures == old(textures)
      ensures dataDict == old(dataDict) && noiseDict == old(noiseDict)
    {
      trace := trace + [SolverStep(HighRes)];
      if advance {
        noiseFrame := noiseFrame + 1;
      }
    }

    /** The start of smoke_adaptive_step_noise: sn.frame and sn.timeTotal. */
    method StartNoiseFrame(framenr: int, dt0: real)
      modifies this
      ensures noiseFrame == framenr && timeTotal == framenr as real * dt0
      ensures trace == old(trace) + [SetNoiseFrame(framenr, framenr as real * dt0)]
      ensures uv == old(uv) && textures == old(textures)
      ensures dataDict == old(dataDict) && noiseDict == old(noiseDict)
    {
      noiseFrame := framenr;
      timeTotal := noiseFrame as real * dt0;
      trace := trace + [SetNoiseFrame(noiseFrame, timeTotal)];
    }

    /** One pass of the while loop: flags, time step, burn, step_noise, flame, sn.step(). */
    method NoisePass(advance: bool)
      requires Valid() && |uv| == Uvs
      modifies this
      ensures Valid() && |uv| == Uvs
      ensures uv == StepUvs(old(uv))
      ensures trace == old(trace) + NoiseIteration(config, octaves)
      ensures noiseFrame == old(noiseFrame) + (if advance then 1 else 0)
      ensures textures == old(textures)
      ensures dataDict == old(dataDict) && noiseDict == old(noiseDict)
    {
      trace := trace + PassHead();
      ghost var t1 := trace;
      trace := trace + NoiseBurnPart(config);
      ghost var t2 := trace;
      StepNoise();
      ghost var t3 := trace;
      trace := trace + NoiseFlamePart(config);
      ghost var t4 := trace;
      NoiseSolverStep(advance);
      AppendFive(old(trace), PassHead(), NoiseBurnPart(config), StepNoiseTrace(config, octaves), NoiseFlamePart(config),
                 [SolverStep(HighRes)], t1, t2, t3, t4, trace);
    }

    /**
     * smoke_adaptive_step_noise. The engine decides after each step of the
     * noise solver whether the frame is complete: advances[k] is its answer
     * after the k-th pass, and some pass completes the frame.
     */
    method AdaptiveStepNoise(framenr: int, dt0: real, advances: seq<bool>)
      requires Valid() && true in advances
      modifies this
      ensures Valid() && |uv| == Uvs
      ensures noiseFrame == framenr + 1
      ensures trace == old(trace)
        + AdaptiveNoiseTrace(config, octaves, framenr, dt0, |old(uv)| == 0, FirstAdvance(advances) + 1)
      ensures uv == StepUvsTimes(PreStepUv(old(uv), old(textures)), FirstAdvance(advances) + 1)
      ensures textures == PostStepTextures(uv)
      ensures dataDict == old(dataDict) && noiseDict == old(noiseDict)
    {
      ghost var firstCall := |uv| == 0;
      ghost var n := FirstAdvance(advances) + 1;
      StartNoiseFrame(framenr, dt0);
      ghost var t1 := trace;
      PreStepNoise();
      ghost var t2 := trace;
      RunNoisePasses(advances);
      ghost var t3 := trace;
      PostStepNoise();
      AdaptiveNoiseTraceParts(config, octaves, framenr, dt0, firstCall, n);
      AppendFour(old(trace), [SetNoiseFrame(framenr, framenr as real * dt0)], PreStepTrace(config, firstCall),
                 Repeat(NoiseIteration(config, octaves), n), PostStepTrace(), t1, t2, t3, trace);
    }

    /**
     * The while loop of smoke_adaptive_step_noise: passes until the engine
     * reports that the noise solver has reached the next frame.
     */
    method RunNoisePasses(advances: seq<bool>)
      requires Valid() && |uv| == Uvs && true in advances
      modifies this
      ensures Valid() && |uv| == Uvs
      ensures noiseFrame == old(noiseFrame) + 1
      ensures trace == old(trace) + Repeat(NoiseIteration(config, octaves), FirstAdvance(advances) + 1)
      ensures uv == StepUvsTimes(old(uv), FirstAdvance(advances) + 1)
      ensures textures == old(textures)
      ensures dataDict == old(dataDict) && noiseDict == old(noiseDict)
    {
      var passes := FirstAdvance(advances);
      var lastFrame := noiseFrame;
      ghost var pass := NoiseIteration(config, octaves);
      var k := 0;
      while noiseFrame == lastFrame
        invariant Valid() && |uv| == Uvs
        invariant noiseFrame == lastFrame ==> k <= passes
        invariant noiseFrame != lastFrame ==> k == passes + 1 && noiseFrame == lastFrame + 1
        invariant uv == StepUvsTimes(old(uv), k)
        invariant trace == old(trace) + Repeat(pass, k)
        invariant textures == old(textures)
        invariant dataDict == old(dataDict) && noiseDict == old(noiseDict)
        decreases passes + 1 - k
      {
        ghost var before := trace;
        NoisePass(advances[k]);
        RepeatExtend(old(trace), pass, k, before, trace);
        k := k + 1;
      }
    }

    /** smoke_adaptive_step: one base-resolution frame step. */
    method AdaptiveStep(framenr: int)
      modifies this
      ensures trace == old(trace) + AdaptiveStepTrace(config)
      ensures uv == old(uv) && textures == old(textures) && noiseFrame == old(noiseFrame) && timeTotal == old(timeTotal)
      ensures dataDict == old(dataDict) && noiseDict == old(noiseDict)
    {
      trace := trace + AdaptiveStepTrace(config);
    }

    /** The standalone step(frame): the base step, then the noise step when noise is on. */
    method Step(frame: int, dt0: real, advances: seq<bool>)
      requires Valid() && true in advances
      modifies this
      ensures Valid()
      ensures config.noise ==> (trace == old(trace) + AdaptiveStepTrace(config)
        + AdaptiveNoiseTrace(config, octaves, frame, dt0, |old(uv)| == 0, FirstAdvance(advances) + 1))
      ensures config.noise ==>
        (uv == StepUvsTimes(PreStepUv(old(uv), old(textures)), FirstAdvance(advances) + 1)
         && textures == PostStepTextures(uv) && noiseFrame == frame + 1)
      ensures !config.noise ==>
        (trace == old(trace) + AdaptiveStepTrace(config)
         && uv == old(uv) && textures == old(textures) && noiseFrame == old(noiseFrame) && timeTotal == old(timeTotal))
      ensures dataDict == old(dataDict) && noiseDict == old(noiseDict)
    {
      AdaptiveStep(frame);
      if config.noise {
        AdaptiveStepNoise(frame, dt0, advances);
      }
    }
  }

  /** Allocation of the grids of the enabled features, one call per feature. */
  method AllocateAll(c: Config) returns (p: SmokeProgram)
    ensures fresh(p) && p.config == c
    ensures p.dataDict == AllocatedData(c.colors, c.heat, c.fire)
    ensures c.noise ==> p.noiseDict == AllocatedNoise(c.colors, c.fire)
    ensures p.trace == [] && p.uv == []
  {
    p := new SmokeProgram(c);
    if c.colors {
      p.AllocColors();
    }
    if c.heat {
      p.AllocHeat();
    }
    if c.fire {
      p.AllocFire();
    }
  }

  // ---------------------------------------------------------------------
  // Standalone mode: which cache directory each loader reads.
  // ---------------------------------------------------------------------

  /** The cache loaders load(frame) calls. */
  datatype Loader = FluidData | SmokeData | SmokeNoiseData | FluidGuiding

  /** A loader call, with the cache directory it reads, named by the bake kind that writes that directory. */
  datatype LoadCall = LoadCall(loader: Loader, dir: CacheFlags.CacheKind)

  /** The bake whose cache a loader is meant to read. */
  function Source(l: Loader): CacheFlags.CacheKind
  {
    match l
    case FluidData => CacheFlags.Data
    case SmokeData => CacheFlags.Data
    case SmokeNoiseData => CacheFlags.Noise
    case FluidGuiding => CacheFlags.Guiding
  }

  /** The loaders load(frame) calls, in order, whatever directory each reads. */
  function StandaloneLoaders(c: Config): seq<Loader>
  {
    [FluidData, SmokeData] + (if c.noise then [SmokeNoiseData] else []) + (if c.guiding then [FluidGuiding] else [])
  }

  function Loaders(calls: seq<LoadCall>): (r: seq<Loader>)
    ensures |r| == |calls| && forall i :: 0 <= i < |calls| ==> r[i] == calls[i].loader
  {
    seq(|calls|, i requires 0 <= i < |calls| => calls[i].loader)
  }

  /** load(frame) as written: the noise cache is read from the particles directory. */
  function StandaloneLoad(c: Config): seq<LoadCall>
  {
    [LoadCall(FluidData, CacheFlags.Data), LoadCall(SmokeData, CacheFlags.Data)]
    + (if c.noise then [LoadCall(SmokeNoiseData, CacheFlags.Particles)] else [])
    + (if c.guiding then [LoadCall(FluidGuiding, CacheFlags.Guiding)] else [])
  }

  /**
   * As written, with noise on, load(frame) reads the noise dictionary from
   * the directory the particle bake writes, not from the one the noise bake
   * writes.
   */
  lemma StandaloneLoadsNoiseFromParticles(c: Config)
    requires c.noise
    ensures Loaders(StandaloneLoad(c)) == StandaloneLoaders(c)
    ensures var call := StandaloneLoad(c)[2];
      call.loader == SmokeNoiseData && call.dir == CacheFlags.Particles && call.dir != Source(call.loader)
  {
  }

  /** load(frame) as evidently intended: the noise cache is read from the noise directory. */
  function StandaloneLoadIntended(c: Config): seq<LoadCall>
  {
    [LoadCall(FluidData, CacheFlags.Data), LoadCall(SmokeData, CacheFlags.Data)]
    + (if c.noise then [LoadCall(SmokeNoiseData, CacheFlags.Noise)] else [])
    + (if c.guiding then [LoadCall(FluidGuiding, CacheFlags.Guiding)] else [])
  }

  /** With the intended load, the same loaders run in the same order, each reading the cache its bake writes. */
  lemma IntendedLoadReadsOwnCaches(c: Config)
    ensures Loaders(StandaloneLoadIntended(c)) == StandaloneLoaders(c)
    ensures forall call :: call in StandaloneLoadIntended(c) ==> call.dir == Source(call.loader)
  {
  }
}
