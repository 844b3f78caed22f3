/**
 * The `cache_flag` word of a Mantaflow smoke domain.
 *
 * The word is modelled as the set of positions of its set bits, so
 * `flag &= ~X` is removal of X's position and `flag |= X` insertion.
 * Every cache a domain keeps (data, noise, mesh, particles, guiding) owns two
 * bits: BAKING while a bake job of that kind runs, BAKED once a bake of that
 * kind has ended. Bake jobs and free jobs move only these bits; every other
 * bit of the word is left as it was.
 */
module CacheFlags {

  /** The five caches, one per bake/free operator pair (MANTA_OT_bake_X / MANTA_OT_free_X). */
  datatype CacheKind = Data | Noise | Mesh | Particles | Guiding

  /** A cache_flag word, as the set of its set bit positions. */
  type Flags = set<nat>

  function KindIndex(k: CacheKind): nat
  {
    match k
    case Data => 0
    case Noise => 1
    case Mesh => 2
    case Particles => 3
    case Guiding => 4
  }

  /** Bit position of FLUID_DOMAIN_BAKING_X: a bake job of kind X is running. */
  function BakingBit(k: CacheKind): nat
  {
    2 * KindIndex(k)
  }

  /** Bit position of FLUID_DOMAIN_BAKED_X: a bake job of kind X has ended. */
  function BakedBit(k: CacheKind): nat
  {
    2 * KindIndex(k) + 1
  }

  /** Both bits owned by kind k. */
  function KindBits(k: CacheKind): set<nat>
  {
    {BakingBit(k), BakedBit(k)}
  }

  predicate IsBaking(f: Flags, k: CacheKind)
  {
    BakingBit(k) in f
  }

  predicate IsBaked(f: Flags, k: CacheKind)
  {
    BakedBit(k) in f
  }

  /** Kind k's two bits read the same in f and g. */
  predicate SameKind(f: Flags, g: Flags, k: CacheKind)
  {
    IsBaking(f, k) == IsBaking(g, k) && IsBaked(f, k) == IsBaked(g, k)
  }

  /**
   * The transition fluid_manta_bake_startjob applies: clear BAKED, set BAKING
   * of the job's own kind, and nothing else.
   */
  function StartBake(f: Flags, k: CacheKind): (r: Flags)
    ensures IsBaking(r, k) && !IsBaked(r, k)
    ensures forall k' :: k' != k ==> SameKind(f, r, k')
    ensures r - KindBits(k) == f - KindBits(k)
  {
    (f - {BakedBit(k)}) + {BakingBit(k)}
  }

  /**
   * The transition fluid_manta_bake_endjob applies, whether the bake
   * succeeded, failed or was paused: clear BAKING, set BAKED of its own kind.
   */
  function EndBake(f: Flags, k: CacheKind): (r: Flags)
    ensures !IsBaking(r, k) && IsBaked(r, k)
    ensures forall k' :: k' != k ==> SameKind(f, r, k')
    ensures r - KindBits(k) == f - KindBits(k)
  {
    (f - {BakingBit(k)}) + {BakedBit(k)}
  }

  /**
   * Which caches a free job of kind k wipes: freeing data also wipes noise,
   * mesh and particles (they are derived from it), but not guiding.
   */
  predicate Clears(k: CacheKind, k': CacheKind)
  {
    k' == k || (k == Data && k' != Guiding)
  }

  /** The bits a free job of kind k clears. */
  function FreeMask(k: CacheKind): set<nat>
  {
    if k == Data then KindBits(Data) + KindBits(Noise) + KindBits(Mesh) + KindBits(Particles)
    else KindBits(k)
  }

  /** The transition fluid_manta_free_startjob applies to cache_flag. */
  function FreeCache(f: Flags, k: CacheKind): (r: Flags)
    ensures forall k' :: Clears(k, k') ==> !IsBaking(r, k') && !IsBaked(r, k')
    ensures forall k' :: !Clears(k, k') ==> SameKind(f, r, k')
    ensures r <= f && f - r <= FreeMask(k)
  {
    f - FreeMask(k)
  }

  /** The BAKING bits fluid_manta_free_exec looks at: every kind but guiding. */
  function PendingMask(): set<nat>
  {
    {BakingBit(Data), BakingBit(Noise), BakingBit(Mesh), BakingBit(Particles)}
  }

  /** fluid_manta_free_exec lets a free job start only when this holds. */
  predicate FreeAllowed(f: Flags)
  {
    f * PendingMask() == {}
  }

  /** A free job may start exactly when no data, noise, mesh or particles bake is running. */
  lemma FreeAllowedIff(f: Flags)
    ensures FreeAllowed(f) <==> forall k :: k != Guiding ==> !IsBaking(f, k)
  {
    if !FreeAllowed(f) {
      var b :| b in f * PendingMask();
      assert IsBaking(f, Data) || IsBaking(f, Noise) || IsBaking(f, Mesh) || IsBaking(f, Particles);
    } else {
      forall k | k != Guiding ensures !IsBaking(f, k) {
        assert BakingBit(k) in PendingMask();
        assert BakingBit(k) !in f * PendingMask();
      }
    }
  }

  /** A running guiding bake never blocks a free job; every other running bake does. */
  lemma StartBakeBlocksFree(f: Flags, k: CacheKind)
    ensures FreeAllowed(StartBake(f, k)) <==> (k == Guiding && FreeAllowed(f))
  {
    FreeAllowedIff(f);
    FreeAllowedIff(StartBake(f, k));
  }

  /** After freeing data nothing blocks the next free job, whatever was running before. */
  lemma FreeDataUnblocksFree(f: Flags)
    ensures FreeAllowed(FreeCache(f, Data))
  {
    FreeAllowedIff(FreeCache(f, Data));
  }

  /**
   * A full bake job (start then end) leaves its kind baked and not baking and
   * touches no other bit: the outcome does not depend on the kind's bits before.
   */
  lemma BakeCycle(f: Flags, k: CacheKind)
    ensures EndBake(StartBake(f, k), k) == (f - KindBits(k)) + {BakedBit(k)}
  {
    var r := EndBake(StartBake(f, k), k);
    assert r == (f - KindBits(k)) + {BakedBit(k)};
  }

  /** Freeing a kind after a bake of it returns that kind's two bits to "never baked". */
  lemma BakeThenFree(f: Flags, k: CacheKind)
    ensures FreeCache(EndBake(StartBake(f, k), k), k) * KindBits(k) == {}
  {
  }
}
