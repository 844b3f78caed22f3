/**
 * Two settings the legacy fluid bake derives from the domain's resolution
 * before it starts the solver: the preview resolution, which may not
 * exceed the resolution, and the number of adaptive grid levels.
 */
module ElbeemResolution {

  /** The preview resolution the bake uses: lowered to the resolution when it is larger. */
  function ClampPreview(previewRes: int, res: int): (r: int)
    ensures r <= res && r <= previewRes
    ensures r == previewRes || r == res
  {
    if previewRes > res then res else previewRes
  }

  /** Clamping twice is clamping once, and a preview within the resolution is kept. */
  lemma ClampPreviewStable(previewRes: int, res: int)
    ensures ClampPreview(ClampPreview(previewRes, res), res) == ClampPreview(previewRes, res)
    ensures previewRes <= res ==> ClampPreview(previewRes, res) == previewRes
  {
  }

  /** A negative maxRefine means "choose from the resolution". */
  function GridLevels(maxRefine: int, res: int): (r: int)
    ensures maxRefine >= 0 ==> r == maxRefine
    ensures maxRefine < 0 ==> 0 <= r <= 2
  {
    if maxRefine < 0 then
      if res > 128 then 2
      else if res > 64 then 1
      else 0
    else maxRefine
  }

  /** The automatic choice uses more levels for finer grids, never fewer. */
  lemma GridLevelsMonotone(maxRefine: int, res1: int, res2: int)
    requires maxRefine < 0 && res1 <= res2
    ensures GridLevels(maxRefine, res1) <= GridLevels(maxRefine, res2)
  {
  }

  /** The thresholds of the automatic choice: no coarser level up to 64 cells, one up to 128, two beyond. */
  lemma GridLevelsThresholds(maxRefine: int, res: int)
    requires maxRefine < 0
    ensures GridLevels(maxRefine, res) == 0 <==> res <= 64
    ensures GridLevels(maxRefine, res) == 1 <==> 64 < res <= 128
    ensures GridLevels(maxRefine, res) == 2 <==> 128 < res
  {
  }
}
