/**
 * The Mantaflow bake and free operators of a smoke domain: the job that
 * walks the domain's frame range (and can be paused and resumed), the
 * cache_flag transitions around it, and the operators that start a free
 * job or request a pause.
 *
 * The engine work of a frame happens inside the scene update the job asks
 * for; here it is recorded as the frame number appended to Scene.frameUpdates.
 * A pause request arrives from another thread (fluid_manta_pause_exec sets
 * G.is_break); the interleaving is an input: pauses[k] says that a request
 * has arrived by the k-th time the job looks at the flag.
 */
module MantaBake {
  import opened CacheFlags

  /** The error text bake_sequence stores for an empty frame range. */
  const NoFramesError := "No frames to bake"

  /** The smoke domain settings the jobs read and update (SmokeDomainSettings). */
  class Domain {
    var cacheFlag: Flags
    var frameStart: int
    var frameEnd: int
    /** cache_frame_pause_X: where a paused bake of kind X resumes; 0 means "from the start". */
    var pauseData: int
    var pauseNoise: int
    var pauseMesh: int
    var pauseParticles: int
    var pauseGuiding: int
    var error: string

    constructor (cacheFlag: Flags, frameStart: int, frameEnd: int)
      ensures this.cacheFlag == cacheFlag && this.frameStart == frameStart && this.frameEnd == frameEnd
      ensures forall k :: Pause(k) == 0
      ensures error == ""
    {
      this.cacheFlag := cacheFlag;
      this.frameStart := frameStart;
      this.frameEnd := frameEnd;
      pauseData, pauseNoise, pauseMesh, pauseParticles, pauseGuiding := 0, 0, 0, 0, 0;
      error := "";
    }

    /** The pause frame a job of kind k keeps (job->pause_frame). */
    function Pause(k: CacheKind): int
      reads this
    {
      match k
      case Data => pauseData
      case Noise => pauseNoise
      case Mesh => pauseMesh
      case Particles => pauseParticles
      case Guiding => pauseGuiding
    }

    /** `*pause_frame = v` for the pause frame of kind k. */
    method SetPause(k: CacheKind, v: int)
      modifies this
      ensures Pause(k) == v
      ensures forall k' :: k' != k ==> Pause(k') == old(Pause(k'))
      ensures cacheFlag == old(cacheFlag) && frameStart == old(frameStart) && frameEnd == old(frameEnd)
      ensures error == old(error)
    {
      match k
      case Data => pauseData := v;
      case Noise => pauseNoise := v;
      case Mesh => pauseMesh := v;
      case Particles => pauseParticles := v;
      case Guiding => pauseGuiding := v;
    }
  }

  /** The scene's current frame, and the frames the scene was re-evaluated at. */
  class Scene {
    var cfra: int
    var frameUpdates: seq<int>

    constructor (cfra: int)
      ensures this.cfra == cfra && frameUpdates == []
    {
      this.cfra := cfra;
      frameUpdates := [];
    }

    /** ED_update_for_newframe: evaluate the scene (and so the simulation) at the current frame. */
    method UpdateForNewFrame()
      modifies this
      ensures cfra == old(cfra) && frameUpdates == old(frameUpdates) + [cfra]
    {
      frameUpdates := frameUpdates + [cfra];
    }
  }

  /** The two process-wide flags the jobs use (G.is_break, G.is_rendering). */
  class Globals {
    var isBreak: bool
    var isRendering: bool

    constructor ()
      ensures !isBreak && !isRendering
    {
      isBreak, isRendering := false, false;
    }
  }

  /** The smoke modifier of the active object; its domain settings may be missing. */
  class SmokeModifier {
    var domain: Domain?

    constructor (domain: Domain?)
      ensures this.domain == domain
    {
      this.domain := domain;
    }
  }

  /** What fluid_manta_bake_endjob / free_endjob report. */
  datatype EndReport = Complete | Failed(message: string) | Canceled

  /** What an operator's exec returns. */
  datatype OpResult = Cancelled(message: string) | Finished

  /** What the synchronous bake operator returns: cancelled, or finished with the job's report. */
  datatype BakeOutcome = BakeCancelled(message: string) | BakeFinished(report: EndReport)

  /** The report chosen from the job's success flag and the domain's error text. */
  function Report(success: bool, error: string): (r: EndReport)
    ensures r == Complete <==> success
    ensures r == Canceled <==> !success && error == ""
    ensures r.Failed? ==> r.message == error
  {
    if success then Complete
    else if |error| > 0 then Failed(error)
    else Canceled
  }

  /** Everything a bake job reads or writes, as a value. */
  datatype BakeState = BakeState(
    start: int, end: int,     // cache_frame_start, cache_frame_end
    cursor: int,              // the job's pause frame
    cfra: int,                // the scene's current frame
    updates: seq<int>,        // frames the scene was evaluated at, in order
    success: bool,            // job->success
    broken: bool,             // G.is_break
    error: string)            // sds->error

  /** A pause request has arrived by the k-th look at G.is_break. */
  predicate Paused(pauses: seq<bool>, k: nat)
  {
    k < |pauses| && pauses[k]
  }

  /** Where a bake starts: the start frame when the pause frame is 0, the pause frame otherwise. */
  function FirstFrame(start: int, cursor: int): int
  {
    if cursor == 0 then start else cursor
  }

  /** The frames a..b-1 in order. */
  function Range(a: int, b: int): (r: seq<int>)
    ensures |r| == if a < b then b - a else 0
    ensures forall i :: 0 <= i < |r| ==> r[i] == a + i
    decreases b - a
  {
    if a >= b then [] else [a] + Range(a + 1, b)
  }

  lemma {:induction false} RangeAppend(a: int, b: int, c: int)
    requires a <= b <= c
    ensures Range(a, b) + Range(b, c) == Range(a, c)
  {
    assert |Range(a, b) + Range(b, c)| == |Range(a, c)|;
  }

  /**
   * fluid_manta_bake_sequence as a function of the job's state: the effect
   * of the whole loop on the state.
   */
  function Bake(st: BakeState, pauses: seq<bool>): BakeState
  {
    if st.end - st.start + 1 <= 0 then st.(error := NoFramesError)
    else
      var first := FirstFrame(st.start, st.cursor);
      Sweep(st.(cfra := first), st.cfra, first, 0, pauses)
  }

  /**
   * The loop of bake_sequence from `frame` on, after k looks at G.is_break:
   * record the frame as the pause frame, stop if a pause was requested,
   * otherwise evaluate the scene at the frame; once past the end, restore the
   * scene frame the bake began on.
   */
  function Sweep(st: BakeState, orig: int, frame: int, k: nat, pauses: seq<bool>): (r: BakeState)
    ensures r.start == st.start && r.end == st.end && r.error == st.error
    ensures |st.updates| <= |r.updates| && r.updates[..|st.updates|] == st.updates
    ensures r.success ==> st.success
    ensures r.success != st.success ==> frame <= r.cursor <= st.end && r.broken
    decreases st.end - frame
  {
    if frame > st.end then st.(cfra := orig)
    else
      var marked := st.(cursor := frame, broken := st.broken || Paused(pauses, k));
      if marked.broken then marked.(success := false)
      else Sweep(marked.(cfra := frame, updates := st.updates + [frame]), orig, frame + 1, k + 1, pauses)
  }

  /** No pause request among the looks k..k+n-1 at G.is_break. */
  predicate NoPause(pauses: seq<bool>, k: nat, n: int)
  {
    forall j :: k <= j < k + n ==> !Paused(pauses, j)
  }

  /** Without a pause request the loop evaluates every remaining frame once, in order. */
  lemma {:induction false} SweepUnpaused(st: BakeState, orig: int, frame: int, k: nat, pauses: seq<bool>)
    requires !st.broken
    requires NoPause(pauses, k, st.end - frame + 1)
    ensures Sweep(st, orig, frame, k, pauses)
      == st.(cursor := if frame <= st.end then st.end else st.cursor, cfra := orig,
             updates := st.updates + Range(frame, st.end + 1))
    decreases st.end - frame
  {
    if frame > st.end {
      assert st.updates + Range(frame, st.end + 1) == st.updates;
    } else {
      var next := st.(cursor := frame, cfra := frame, updates := st.updates + [frame]);
      SweepUnpaused(next, orig, frame + 1, k + 1, pauses);
      assert [frame] + Range(frame + 1, st.end + 1) == Range(frame, st.end + 1);
      assert st.updates + [frame] + Range(frame + 1, st.end + 1) == st.updates + Range(frame, st.end + 1);
    }
  }

  /**
   * A pause request first seen at the m-th remaining frame stops the loop
   * there: that frame becomes the pause frame but is not evaluated, and the
   * scene stays on the last frame evaluated.
   */
  lemma {:induction false} SweepPausedAt(st: BakeState, orig: int, frame: int, k: nat, pauses: seq<bool>, m: nat)
    requires !st.broken && frame + m <= st.end
    requires NoPause(pauses, k, m) && Paused(pauses, k + m)
    ensures Sweep(st, orig, frame, k, pauses)
      == st.(cursor := frame + m, cfra := if m == 0 then st.cfra else frame + m - 1,
             updates := st.updates + Range(frame, frame + m), success := false, broken := true)
    decreases m
  {
    if m == 0 {
      assert st.updates + Range(frame, frame) == st.updates;
    } else {
      var next := st.(cursor := frame, cfra := frame, updates := st.updates + [frame]);
      assert Sweep(st, orig, frame, k, pauses) == Sweep(next, orig, frame + 1, k + 1, pauses) by {
        assert !Paused(pauses, k);
      }
      assert NoPause(pauses, k + 1, m - 1);
      SweepPausedAt(next, orig, frame + 1, k + 1, pauses, m - 1);
      assert next.updates + Range(frame + 1, frame + m) == st.updates + Range(frame, frame + m) by {
        assert [frame] + Range(frame + 1, frame + m) == Range(frame, frame + m);
      }
    }
  }

  /** The loop succeeds exactly when no pause request arrives before it runs out of frames. */
  lemma {:induction false} SweepSucceeds(st: BakeState, orig: int, frame: int, k: nat, pauses: seq<bool>)
    requires !st.broken
    ensures Sweep(st, orig, frame, k, pauses).success <==> st.success && NoPause(pauses, k, st.end - frame + 1)
    decreases st.end - frame
  {
    if frame <= st.end && !Paused(pauses, k) {
      var next := st.(cursor := frame, cfra := frame, updates := st.updates + [frame]);
      SweepSucceeds(next, orig, frame + 1, k + 1, pauses);
    }
  }

  /**
   * What a bake job reports, when it starts with success set (as startjob
   * sets it) on a non-empty frame range: complete when no pause request
   * arrives in time; otherwise "canceled", unless the domain still holds an
   * error text, which is then reported as the failure.
   */
  lemma BakeReport(st: BakeState, pauses: seq<bool>)
    requires st.start <= st.end && st.success && !st.broken
    ensures var r := Bake(st, pauses);
      Report(r.success, r.error)
        == if NoPause(pauses, 0, st.end - FirstFrame(st.start, st.cursor) + 1) then Complete
           else if st.error == "" then Canceled
           else Failed(st.error)
  {
    var first := FirstFrame(st.start, st.cursor);
    SweepSucceeds(st.(cfra := first), st.cfra, first, 0, pauses);
  }

  /** An uninterrupted bake from the start evaluates each frame of the range once, in order. */
  lemma FullBake(st: BakeState)
    requires st.start <= st.end && st.cursor == 0 && !st.broken
    ensures Bake(st, []) == st.(cursor := st.end, updates := st.updates + Range(st.start, st.end + 1))
  {
    SweepUnpaused(st.(cfra := st.start), st.cfra, st.start, 0, []);
  }

  /**
   * Pause and resume: a bake from the start paused at its m-th frame, then
   * started again (startjob sets success and clears G.is_break) and left to
   * run, evaluates every frame of the range exactly once, in order, and ends
   * with success and the pause frame on the last frame. The pause frame the
   * first run leaves must not be 0, which the loop reads as "not started".
   */
  lemma {:induction false} ResumeCoversEveryFrame(st: BakeState, pauses: seq<bool>, m: nat)
    requires st.start <= st.end && st.cursor == 0 && !st.broken
    requires st.start + m <= st.end && st.start + m != 0
    requires NoPause(pauses, 0, m) && Paused(pauses, m)
    ensures var r1 := Bake(st, pauses);
      var r2 := Bake(r1.(success := true, broken := false), []);
      !r1.success && r1.updates == st.updates + Range(st.start, st.start + m)
      && r2.success && r2.cursor == st.end && r2.updates == st.updates + Range(st.start, st.end + 1)
  {
    SweepPausedAt(st.(cfra := st.start), st.cfra, st.start, 0, pauses, m);
    var r1 := Bake(st, pauses);
    var s2 := r1.(success := true, broken := false);
    assert FirstFrame(s2.start, s2.cursor) == st.start + m;
    SweepUnpaused(s2.(cfra := st.start + m), s2.cfra, st.start + m, 0, []);
    RangeAppend(st.start, st.start + m, st.end + 1);
  }

  /**
   * A pause frame of 0 is read as "not started": when a range reaching
   * below 1 is paused at frame 0, the resumed bake begins again at the
   * start frame and evaluates the frames before 0 a second time.
   */
  lemma ZeroPauseFrameRestarts(st: BakeState)
    requires st.start == -1 && st.end == 1 && st.cursor == 0 && !st.broken && st.updates == []
    ensures var r1 := Bake(st, [false, true]);
      var r2 := Bake(r1.(success := true, broken := false), []);
      r1.cursor == 0 && r1.updates == [-1] && r2.updates == [-1, -1, 0, 1]
  {
    SweepPausedAt(st.(cfra := -1), st.cfra, -1, 0, [false, true], 1);
    var r1 := Bake(st, [false, true]);
    SweepUnpaused(r1.(success := true, broken := false, cfra := -1), r1.cfra, -1, 0, []);
    assert Range(-1, 2) == [-1, 0, 1];
  }

  /**
   * As written, an empty frame range sets the error text but leaves the
   * job's success flag as startjob set it, so endjob reports the bake
   * complete.
   */
  lemma EmptyRangeReportsComplete(st: BakeState, pauses: seq<bool>)
    requires st.end < st.start
    ensures var r := Bake(st.(success := true, broken := false), pauses);
      r.error == NoFramesError && r.updates == st.updates && Report(r.success, r.error) == Complete
  {
  }

  /**
   * As written, a pause request seen at the last frame leaves the pause
   * frame on the last frame, the value a finished bake leaves, although
   * that frame was never evaluated.
   */
  lemma {:induction false} LastFramePauseLooksFinished(st: BakeState, pauses: seq<bool>)
    requires st.start <= st.end && st.cursor == 0 && !st.broken && st.success
    requires NoPause(pauses, 0, st.end - st.start) && Paused(pauses, st.end - st.start)
    ensures var paused := Bake(st, pauses);
      var finished := Bake(st, []);
      !paused.success && finished.success
      && paused.cursor == finished.cursor == st.end
      && !PanelOffersResume(paused)
      && st.end !in paused.updates[|st.updates|..]
      && st.end in finished.updates[|st.updates|..]
  {
    SweepPausedAt(st.(cfra := st.start), st.cfra, st.start, 0, pauses, st.end - st.start);
    FullBake(st);
    var paused := Bake(st, pauses);
    var tail := paused.updates[|st.updates|..];
    assert tail == Range(st.start, st.end);
    assert forall i :: 0 <= i < |tail| ==> tail[i] < st.end;
    assert Bake(st, []).updates[|st.updates|..] == Range(st.start, st.end + 1);
    assert Range(st.start, st.end + 1)[st.end - st.start] == st.end;
  }

  /**
   * The bake as evidently intended: an empty frame range fails the job, and
   * a finished bake leaves its pause frame one past the last frame, so the
   * pause frame alone tells a finished bake from an interrupted one.
   */
  function BakeIntended(st: BakeState, pauses: seq<bool>): BakeState
  {
    if st.end - st.start + 1 <= 0 then st.(error := NoFramesError, success := false)
    else
      var r := Bake(st, pauses);
      if r.success then r.(cursor := st.end + 1) else r
  }

  /** With the intended bake, an empty frame range is reported as a failure naming it. */
  lemma IntendedEmptyRangeFails(st: BakeState, pauses: seq<bool>)
    requires st.end < st.start
    ensures var r := BakeIntended(st.(success := true, broken := false), pauses);
      Report(r.success, r.error) == Failed(NoFramesError)
  {
  }

  /**
   * The test the smoke panel uses to offer Resume instead of Bake: the pause
   * frame lies before the last frame.
   */
  predicate PanelOffersResume(st: BakeState)
  {
    st.cursor < st.end
  }

  /**
   * The test the panel evidently needs together with the intended bake: the
   * pause frame is not past the last frame.
   */
  predicate IntendedOffersResume(st: BakeState)
  {
    st.cursor <= st.end
  }

  /**
   * With the intended bake, the panel's test as written still hides Resume
   * after a pause at the last frame: the test must also become
   * IntendedOffersResume.
   */
  lemma {:induction false} IntendedBakeNeedsIntendedPanel(st: BakeState, pauses: seq<bool>)
    requires st.start <= st.end && st.cursor == 0 && !st.broken && st.success
    requires NoPause(pauses, 0, st.end - st.start) && Paused(pauses, st.end - st.start)
    ensures var r := BakeIntended(st, pauses);
      !r.success && !PanelOffersResume(r) && IntendedOffersResume(r)
  {
    SweepPausedAt(st.(cfra := st.start), st.cfra, st.start, 0, pauses, st.end - st.start);
  }

  /**
   * With the intended bake and the intended panel test, Resume is offered
   * exactly when the bake did not finish.
   */
  lemma IntendedPauseFrameTellsUnfinished(st: BakeState, pauses: seq<bool>)
    requires st.start <= st.end && st.success && !st.broken
    ensures var r := BakeIntended(st, pauses);
      IntendedOffersResume(r) <==> !r.success
  {
  }

  /**
   * With the intended bake, a pause at the last frame leaves something to
   * resume, and the resumed bake evaluates that frame and finishes.
   */
  lemma {:induction false} IntendedResumeAfterLastFramePause(st: BakeState, pauses: seq<bool>)
    requires st.start <= st.end && st.cursor == 0 && !st.broken && st.success && st.end != 0
    requires NoPause(pauses, 0, st.end - st.start) && Paused(pauses, st.end - st.start)
    ensures var r1 := BakeIntended(st, pauses);
      var r2 := BakeIntended(r1.(success := true, broken := false), []);
      r1.cursor <= r1.end && r2.success && r2.updates == st.updates + Range(st.start, st.end + 1)
  {
    SweepPausedAt(st.(cfra := st.start), st.cfra, st.start, 0, pauses, st.end - st.start);
    var r1 := BakeIntended(st, pauses);
    var s2 := r1.(success := true, broken := false);
    SweepUnpaused(s2.(cfra := st.end), s2.cfra, st.end, 0, []);
    RangeAppend(st.start, st.end, st.end + 1);
  }

  /**
   * The pause frame a free job of kind k leaves for kind k', as written:
   * only the freed kind's own pause frame is reset, also when freeing data
   * wipes the noise, mesh and particles caches.
   */
  function FreeCursor(k: CacheKind, k': CacheKind, cursor: int): (r: int)
    ensures k' == k ==> r == 0
    ensures k' != k ==> r == cursor
  {
    if k' == k then 0 else cursor
  }

  /**
   * As written, a paused noise bake's pause frame survives freeing the
   * data: the noise cache is wiped and its bits cleared, yet the next noise
   * bake starts at the old pause frame and skips the frames before it.
   */
  lemma {:induction false} FreeDataKeepsNoisePause(st: BakeState, f: Flags)
    requires st.start < st.cursor <= st.end && st.cursor != 0 && !st.broken
    ensures var flags := FreeCache(f, Data);
      var r := Bake(st.(cursor := FreeCursor(Data, Noise, st.cursor)), []);
      !IsBaking(flags, Noise) && !IsBaked(flags, Noise)
      && r.updates == st.updates + Range(st.cursor, st.end + 1)
      && st.start !in r.updates[|st.updates|..]
  {
    SweepUnpaused(st.(cfra := st.cursor), st.cfra, st.cursor, 0, []);
    var tail := Bake(st, []).updates[|st.updates|..];
    assert tail == Range(st.cursor, st.end + 1);
    assert forall i :: 0 <= i < |tail| ==> tail[i] > st.start;
  }

  /** The pause frames a free job evidently means to leave: every wiped cache starts over. */
  function FreeCursorIntended(k: CacheKind, k': CacheKind, cursor: int): (r: int)
    ensures Clears(k, k') ==> r == 0
    ensures !Clears(k, k') ==> r == cursor
  {
    if Clears(k, k') then 0 else cursor
  }

  /**
   * With the intended reset, the next bake of any cache a free job wiped
   * evaluates the whole frame range.
   */
  lemma IntendedFreeRestartsWiped(st: BakeState, k: CacheKind, k': CacheKind)
    requires Clears(k, k') && st.start <= st.end && !st.broken
    ensures var r := Bake(st.(cursor := FreeCursorIntended(k, k', st.cursor)), []);
      r.updates == st.updates + Range(st.start, st.end + 1) && r.cursor == st.end
  {
    FullBake(st.(cursor := 0));
  }

  /**
   * The world as a bake job of kind `kind` sees it: the domain's frame range,
   * pause frame and error, the scene's frame and updates, G.is_break, and the
   * job's success flag.
   */
  function JobState(domain: Domain, kind: CacheKind, scene: Scene, globals: Globals, success: bool): BakeState
    reads domain, scene, globals
  {
    BakeState(domain.frameStart, domain.frameEnd, domain.Pause(kind), scene.cfra,
              scene.frameUpdates, success, globals.isBreak, domain.error)
  }

  /** A bake or free job of one kind on one domain (FluidMantaflowJob). */
  class MantaJob {
    const kind: CacheKind
    const domain: Domain
    const scene: Scene
    const globals: Globals
    var success: bool

    constructor (kind: CacheKind, domain: Domain, scene: Scene, globals: Globals)
      ensures this.kind == kind && this.domain == domain && this.scene == scene && this.globals == globals
      ensures !success
    {
      this.kind := kind;
      this.domain := domain;
      this.scene := scene;
      this.globals := globals;
      success := false;
    }

    /** The job's view of the world as a BakeState. */
    function State(): BakeState
      reads this, domain, scene, globals
    {
      JobState(domain, kind, scene, globals, success)
    }

    /** fluid_manta_bake_sequence. */
    method BakeSequence(pauses: seq<bool>)
      modifies this, domain, scene, globals
      ensures State() == Bake(old(State()), pauses)
      ensures domain.cacheFlag == old(domain.cacheFlag) && globals.isRendering == old(globals.isRendering)
      ensures forall k :: k != kind ==> domain.Pause(k) == old(domain.Pause(k))
    {
      var frames := domain.frameEnd - domain.frameStart + 1;
      if frames <= 0 {
        domain.error := NoFramesError;
        return;
      }
      var frame := if domain.Pause(kind) == 0 then domain.frameStart else domain.Pause(kind);
      var origFrame := scene.cfra;
      scene.cfra := frame;
      var k: nat := 0;
      while frame <= domain.frameEnd
        invariant domain.frameEnd == old(domain.frameEnd)
        invariant Sweep(State(), origFrame, frame, k, pauses) == Bake(old(State()), pauses)
        invariant domain.cacheFlag == old(domain.cacheFlag) && globals.isRendering == old(globals.isRendering)
        invariant forall k' :: k' != kind ==> domain.Pause(k') == old(domain.Pause(k'))
        decreases domain.frameEnd - frame
      {
        var stop := SweepFrame(frame, k, pauses);
        if stop {
          return;
        }
        frame := frame + 1;
        k := k + 1;
      }
      scene.cfra := origFrame;
    }

    /**
     * One pass of the loop of bake_sequence: record the frame as the pause
     * frame, look at G.is_break, and evaluate the scene at the frame unless
     * a pause was requested.
     */
    method SweepFrame(frame: int, k: nat, pauses: seq<bool>) returns (stop: bool)
      modifies this, domain, scene, globals
      ensures var marked := old(State()).(cursor := frame, broken := old(State()).broken || Paused(pauses, k));
        stop == marked.broken
        && State() == if stop then marked.(success := false) else marked.(cfra := frame, updates := marked.updates + [frame])
      ensures domain.cacheFlag == old(domain.cacheFlag) && globals.isRendering == old(globals.isRendering)
      ensures forall k' :: k' != kind ==> domain.Pause(k') == old(domain.Pause(k'))
    {
      domain.SetPause(kind, frame);
      globals.isBreak := globals.isBreak || Paused(pauses, k);
      stop := globals.isBreak;
      if stop {
        success := false;
        return;
      }
      scene.cfra := frame;
      scene.UpdateForNewFrame();
    }

    /**
     * fluid_manta_bake_startjob: mark the job's kind as baking, clear
     * G.is_break, set success, and run the bake loop.
     */
    method BakeStartJob(pauses: seq<bool>)
      modifies this, domain, scene, globals
      ensures domain.cacheFlag == StartBake(old(domain.cacheFlag), kind)
      ensures State() == Bake(old(State()).(success := true, broken := false), pauses)
      ensures globals.isRendering
      ensures forall k :: k != kind ==> domain.Pause(k) == old(domain.Pause(k))
    {
      success := true;
      globals.isBreak := false;
      globals.isRendering := true;
      domain.cacheFlag := StartBake(domain.cacheFlag, kind);
      BakeSequence(pauses);
    }

    /**
     * fluid_manta_bake_endjob: mark the job's kind as baked (whether it
     * finished, failed or was paused) and report how it ended.
     */
    method BakeEndJob() returns (report: EndReport)
      modifies domain, globals
      ensures domain.cacheFlag == EndBake(old(domain.cacheFlag), kind)
      ensures !globals.isRendering
      ensures State() == old(State())
      ensures forall k :: domain.Pause(k) == old(domain.Pause(k))
      ensures report == Report(success, domain.error)
    {
      globals.isRendering := false;
      domain.cacheFlag := EndBake(domain.cacheFlag, kind);
      report := Report(success, domain.error);
    }

    /**
     * fluid_manta_free_startjob: clear the freed caches' bits, reset the
     * freed kind's pause frame, and move the scene back to the start frame.
     */
    method FreeStartJob()
      modifies this, domain, scene, globals
      ensures domain.cacheFlag == FreeCache(old(domain.cacheFlag), kind)
      ensures forall k :: domain.Pause(k) == FreeCursor(kind, k, old(domain.Pause(k)))
      ensures success && !globals.isBreak && globals.isRendering
      ensures scene.cfra == domain.frameStart
      ensures scene.frameUpdates == old(scene.frameUpdates) + [domain.frameStart]
      ensures domain.frameStart == old(domain.frameStart) && domain.frameEnd == old(domain.frameEnd)
      ensures domain.error == old(domain.error)
    {
      success := true;
      globals.isBreak := false;
      globals.isRendering := true;
      domain.cacheFlag := FreeCache(domain.cacheFlag, kind);
      domain.SetPause(kind, 0);
      scene.cfra := domain.frameStart;
      scene.UpdateForNewFrame();
    }

    /** fluid_manta_free_endjob: report how the free job ended. */
    method FreeEndJob() returns (report: EndReport)
      modifies globals
      ensures !globals.isRendering && globals.isBreak == old(globals.isBreak)
      ensures report == Report(success, domain.error)
    {
      globals.isRendering := false;
      report := Report(success, domain.error);
    }
  }

  /**
   * fluid_manta_bake_exec: the synchronous bake operator. It needs a smoke
   * modifier with domain settings, then runs a whole bake job of the given
   * kind: the job starts with success set and G.is_break cleared, walks the
   * frames as Bake says, and reports how it ended; afterwards the kind is
   * baked and not baking, whatever the outcome.
   */
  method BakeExec(smd: SmokeModifier?, kind: CacheKind, scene: Scene, globals: Globals, pauses: seq<bool>)
    returns (outcome: BakeOutcome)
    modifies if smd != null && smd.domain != null then {smd.domain, scene, globals} else {}
    ensures smd == null ==> outcome == BakeCancelled("Bake failed: no Fluid modifier found")
    ensures smd != null && smd.domain == null ==> outcome == BakeCancelled("Bake failed: invalid domain")
    ensures smd != null && smd.domain != null ==>
      var d := smd.domain;
      var post := Bake(old(JobState(d, kind, scene, globals, true)).(broken := false), pauses);
      outcome == BakeFinished(Report(post.success, post.error))
      && JobState(d, kind, scene, globals, post.success) == post
      && (forall k :: k != kind ==> d.Pause(k) == old(d.Pause(k)))
      && d.cacheFlag == (old(d.cacheFlag) - KindBits(kind)) + {BakedBit(kind)}
      && !globals.isRendering
  {
    if smd == null {
      return BakeCancelled("Bake failed: no Fluid modifier found");
    }
    if smd.domain == null {
      return BakeCancelled("Bake failed: invalid domain");
    }
    var job := new MantaJob(kind, smd.domain, scene, globals);
    job.BakeStartJob(pauses);
    var report := job.BakeEndJob();
    BakeCycle(old(smd.domain.cacheFlag), kind);
    return BakeFinished(report);
  }

  /**
   * fluid_manta_free_exec: refuse while a data, noise, mesh or particles bake
   * is running; otherwise run a free job of the given kind.
   */
  method FreeExec(smd: SmokeModifier?, kind: CacheKind, scene: Scene, globals: Globals)
    returns (result: OpResult)
    modifies if smd != null && smd.domain != null then {smd.domain, scene, globals} else {}
    ensures smd == null ==> result == Cancelled("Bake free failed: no Fluid modifier found")
    ensures smd != null && smd.domain == null ==> result == Cancelled("Bake free failed: invalid domain")
    ensures smd != null && smd.domain != null ==>
      var d := smd.domain;
      (result == Finished <==> FreeAllowed(old(d.cacheFlag)))
      && (result != Finished ==> result == Cancelled("Bake free failed: pending bake jobs found")
                                 && d.cacheFlag == old(d.cacheFlag)
                                 && (forall k :: d.Pause(k) == old(d.Pause(k)))
                                 && d.frameStart == old(d.frameStart) && d.frameEnd == old(d.frameEnd)
                                 && d.error == old(d.error)
                                 && globals.isBreak == old(globals.isBreak)
                                 && globals.isRendering == old(globals.isRendering)
                                 && scene.cfra == old(scene.cfra) && scene.frameUpdates == old(scene.frameUpdates))
      && (result == Finished ==>
            d.cacheFlag == FreeCache(old(d.cacheFlag), kind)
            && (forall k :: d.Pause(k) == FreeCursor(kind, k, old(d.Pause(k))))
            && d.frameStart == old(d.frameStart) && d.frameEnd == old(d.frameEnd) && d.error == old(d.error)
            && scene.cfra == d.frameStart && scene.frameUpdates == old(scene.frameUpdates) + [d.frameStart]
            && !globals.isBreak && !globals.isRendering)
  {
    if smd == null {
      return Cancelled("Bake free failed: no Fluid modifier found");
    }
    if smd.domain == null {
      return Cancelled("Bake free failed: invalid domain");
    }
    if !FreeAllowed(smd.domain.cacheFlag) {
      return Cancelled("Bake free failed: pending bake jobs found");
    }
    var job := new MantaJob(kind, smd.domain, scene, globals);
    job.FreeStartJob();
    var _ := job.FreeEndJob();
    return Finished;
  }

  /** fluid_manta_pause_exec: request that a running bake stop at its next frame. */
  method PauseExec(smd: SmokeModifier?, globals: Globals) returns (result: OpResult)
    modifies globals
    ensures smd == null ==> result == Cancelled("Bake free failed: no Fluid modifier found")
    ensures smd != null && smd.domain == null ==> result == Cancelled("Bake free failed: invalid domain")
    ensures smd != null && smd.domain != null ==> result == Finished && globals.isBreak
    ensures result != Finished ==> globals.isBreak == old(globals.isBreak)
    ensures globals.isRendering == old(globals.isRendering)
  {
    if smd == null {
      return Cancelled("Bake free failed: no Fluid modifier found");
    }
    if smd.domain == null {
      return Cancelled("Bake free failed: invalid domain");
    }
    globals.isBreak := true;
    return Finished;
  }
}
