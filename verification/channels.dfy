/**
 * Animation channels the legacy (elbeem) fluid bake fills before it exports
 * the scene: per-frame values of domain and object properties, each frame
 * stored as its values followed by a time stamp.
 *
 *   CHANNEL_FLOAT:  [value][time] [value][time] ...
 *   CHANNEL_VEC:    [x][y][z][time] [x][y][z][time] ...
 *   vertex cache:   [x0][y0][z0] ... [xn][yn][zn][time] ...
 *
 * Floats are modelled as `real`; rounding is not modelled.
 */
module FluidChannels {

  /** Values per frame of a scalar channel (CHANNEL_FLOAT). */
  const ChannelFloat := 1
  /** Values per frame of a vector channel (CHANNEL_VEC). */
  const ChannelVec := 3

  /** The role an object plays in the legacy fluid simulation (OB_FLUIDSIM_*). */
  datatype FluidsimType = Enabled | Domain | Fluid | Obstacle | Inflow | Outflow | Particle | Control

  /**
   * get_fluid_rate: the animated simulation speed, with negative rates
   * replaced by 0.
   */
  function FluidRate(animRate: real): (r: real)
    ensures r >= 0.0
    ensures animRate >= 0.0 ==> r == animRate
    ensures animRate < 0.0 ==> r == 0.0
  {
    if animRate < 0.0 then 0.0 else animRate
  }

  /** fluid_is_animated_mesh: objects whose vertex positions are baked per frame. */
  predicate IsAnimatedMesh(t: FluidsimType, domainNoVecGen: bool)
  {
    t == Control || domainNoVecGen
  }

  /** Frame i of a channel whose frames are `stride` entries wide. */
  function FrameOf(ch: seq<real>, i: nat, stride: nat): seq<real>
    requires (i + 1) * stride <= |ch|
  {
    ch[i * stride .. (i + 1) * stride]
  }

  /** Entries of frames before i lie before frame i; entries of frames after i lie after it. */
  lemma {:induction false} FramesApart(i: nat, j: nat, stride: nat)
    ensures j < i ==> (j + 1) * stride <= i * stride
    ensures i < j ==> (i + 1) * stride <= j * stride
  {
    if j < i {
      MulMono(j + 1, i, stride);
    } else if i < j {
      MulMono(i + 1, j, stride);
    }
  }

  lemma {:induction false} MulMono(a: nat, b: nat, c: nat)
    requires a <= b
    ensures a * c <= b * c
  {
    if a < b {
      MulMono(a, b - 1, c);
      assert b * c == (b - 1) * c + c;
    }
  }

  /**
   * A channel allocated for `frames` frames of `stride` entries (as
   * fluid_init_all_channels allocates them) holds every frame 0 <= i < frames.
   */
  lemma FrameFits(i: nat, frames: nat, stride: nat)
    requires i < frames
    ensures (i + 1) * stride <= frames * stride
  {
    MulMono(i + 1, frames, stride);
  }

  /** The channel with frame i replaced by the given values followed by the time stamp. */
  function WriteFrame(ch: seq<real>, i: nat, values: seq<real>, time: real): (r: seq<real>)
    requires (i + 1) * (|values| + 1) <= |ch|
    ensures |r| == |ch|
    ensures FrameOf(r, i, |values| + 1) == values + [time]
    ensures forall k :: 0 <= k < |ch| && !(i * (|values| + 1) <= k < (i + 1) * (|values| + 1)) ==> r[k] == ch[k]
  {
    var stride := |values| + 1;
    ch[..i * stride] + values + [time] + ch[(i + 1) * stride..]
  }

  /** Writing frame i leaves every other frame of the channel as it was. */
  lemma WriteFrameKeepsOthers(ch: seq<real>, i: nat, j: nat, values: seq<real>, time: real)
    requires (i + 1) * (|values| + 1) <= |ch| && (j + 1) * (|values| + 1) <= |ch|
    requires i != j
    ensures FrameOf(WriteFrame(ch, i, values, time), j, |values| + 1) == FrameOf(ch, j, |values| + 1)
  {
    var stride := |values| + 1;
    FramesApart(i, j, stride);
    var r := WriteFrame(ch, i, values, time);
    var lo := j * stride;
    assert (j + 1) * stride == lo + stride;
    var before, after := FrameOf(ch, j, stride), FrameOf(r, j, stride);
    assert |before| == |after| == stride;
    forall m | 0 <= m < stride ensures after[m] == before[m] {
      assert after[m] == r[lo + m] && before[m] == ch[lo + m];
    }
  }

  /** Writes to two different frames commute: each frame keeps what was written to it. */
  lemma WriteFramesCommute(ch: seq<real>, i: nat, j: nat, vi: seq<real>, ti: real, vj: seq<real>, tj: real)
    requires |vi| == |vj|
    requires (i + 1) * (|vi| + 1) <= |ch| && (j + 1) * (|vi| + 1) <= |ch|
    requires i != j
    ensures WriteFrame(WriteFrame(ch, i, vi, ti), j, vj, tj) == WriteFrame(WriteFrame(ch, j, vj, tj), i, vi, ti)
  {
    var stride := |vi| + 1;
    FramesApart(i, j, stride);
    var a := WriteFrame(WriteFrame(ch, i, vi, ti), j, vj, tj);
    var b := WriteFrame(WriteFrame(ch, j, vj, tj), i, vi, ti);
    assert |a| == |b|;
    forall k | 0 <= k < |a| ensures a[k] == b[k] {
      if i * stride <= k < (i + 1) * stride {
        assert a[k] == FrameOf(a, i, stride)[k - i * stride];
        assert b[k] == FrameOf(b, i, stride)[k - i * stride];
      } else if j * stride <= k < (j + 1) * stride {
        assert a[k] == FrameOf(a, j, stride)[k - j * stride];
        assert b[k] == FrameOf(b, j, stride)[k - j * stride];
      }
    }
  }

  /**
   * set_channel: store frame i of a scalar (size 1) or vector (size 3)
   * channel; any other size writes nothing.
   */
  method SetChannel(channel: array<real>, time: real, value: seq<real>, i: nat, size: int)
    requires size == ChannelFloat ==> |value| >= 1 && (i + 1) * 2 <= channel.Length
    requires size == ChannelVec ==> |value| >= 3 && (i + 1) * 4 <= channel.Length
    modifies channel
    ensures size == ChannelFloat ==> channel[..] == WriteFrame(old(channel[..]), i, value[..1], time)
    ensures size == ChannelVec ==> channel[..] == WriteFrame(old(channel[..]), i, value[..3], time)
    ensures size != ChannelFloat && size != ChannelVec ==> channel[..] == old(channel[..])
  {
    if size == ChannelFloat {
      channel[(i * 2) + 0] := value[0];
      channel[(i * 2) + 1] := time;
      assert channel[..] == WriteFrame(old(channel[..]), i, value[..1], time);
    } else if size == ChannelVec {
      channel[(i * 4) + 0] := value[0];
      channel[(i * 4) + 1] := value[1];
      channel[(i * 4) + 2] := value[2];
      channel[(i * 4) + 3] := time;
      assert channel[..] == WriteFrame(old(channel[..]), i, value[..3], time);
    }
  }

  /**
   * init_time: a fresh timeline of length + 1 entries; entries 0 and 1 hold
   * the animation start, and each later entry is one frame time past the one
   * before it.
   */
  method InitTime(animStart: real, aniFrameTime: real, length: nat) returns (timeAtFrame: array<real>)
    requires length >= 1
    ensures fresh(timeAtFrame) && timeAtFrame.Length == length + 1
    ensures timeAtFrame[0] == animStart && timeAtFrame[1] == animStart
    ensures forall i :: 2 <= i <= length ==> timeAtFrame[i] == timeAtFrame[i - 1] + aniFrameTime
    ensures Timeline(timeAtFrame[..], animStart, aniFrameTime)
  {
    timeAtFrame := new real[length + 1](_ => 0.0);
    timeAtFrame[0] := animStart;
    timeAtFrame[1] := animStart;
    var i := 2;
    while i <= length
      invariant 2 <= i <= length + 1
      invariant timeAtFrame[0] == animStart && timeAtFrame[1] == animStart
      invariant forall k :: 2 <= k < i ==> timeAtFrame[k] == timeAtFrame[k - 1] + aniFrameTime
    {
      timeAtFrame[i] := timeAtFrame[i - 1] + aniFrameTime;
      i := i + 1;
    }
  }

  /** The recurrence init_time establishes, on the timeline's values. */
  predicate Timeline(t: seq<real>, start: real, dt: real)
  {
    |t| >= 2 && t[0] == start && t[1] == start
    && forall i :: 2 <= i < |t| ==> t[i] == t[i - 1] + dt
  }

  /** With a non-negative frame time the timeline never goes back. */
  lemma {:induction false} TimelineSorted(t: seq<real>, start: real, dt: real, i: nat, j: nat)
    requires Timeline(t, start, dt) && dt >= 0.0
    requires i <= j < |t|
    ensures t[i] <= t[j]
  {
    if i < j {
      TimelineSorted(t, start, dt, i, j - 1);
      assert j == 1 || t[j] == t[j - 1] + dt;
    }
  }

  /** An object whose vertex positions are cached per frame for the legacy bake. */
  class FluidObject {
    var numVerts: nat
    var vertexCache: array?<real>
    /** Buffers handed back to the allocator (MEM_freeN) so far. */
    var released: set<array<real>>

    /** No field of the object refers to a released buffer. */
    predicate NoDangling()
      reads this
    {
      vertexCache != null ==> vertexCache !in released
    }

    constructor (numVerts: nat, cache: array<real>)
      ensures this.numVerts == numVerts && vertexCache == cache && released == {}
      ensures NoDangling()
    {
      this.numVerts := numVerts;
      vertexCache := cache;
      released := {};
    }

    /**
     * set_vertex_channel as written: store the mesh's vertex positions and
     * the time stamp as frame i of `channel`, the caller's fobj->VertexCache.
     * A mesh whose vertex count changed releases the buffer, but only the
     * local copy of the reference is cleared, so the object keeps referring to
     * the released buffer. reusedReleased reports that the buffer handed in
     * had already been released: the call then writes into released memory
     * or releases it again.
     */
    method SetVertexChannel(channel: array?<real>, time: real, verts: seq<real>, i: nat, frames: nat)
      returns (reusedReleased: bool)
      requires channel == vertexCache
      requires channel != null ==> channel.Length == frames * (3 * numVerts + 1) && i < frames
      modifies this, channel
      ensures reusedReleased <==> channel != null && channel in old(released)
      ensures vertexCache == old(vertexCache) && numVerts == old(numVerts)
      ensures channel == null ==> released == old(released)
      ensures channel != null && |verts| != 3 * numVerts ==>
        released == old(released) + {channel} && channel[..] == old(channel[..])
      ensures channel != null && |verts| == 3 * numVerts ==>
        released == old(released) && channel[..] == WriteFrame(old(channel[..]), i, verts, time)
    {
      reusedReleased := channel != null && channel in released;
      if channel == null {
        return;
      }
      if |verts| != 3 * numVerts {
        released := released + {channel};
        return;
      }
      WriteVertexFrame(channel, time, verts, i, frames);
    }

    /**
     * set_vertex_channel with the mismatch branch clearing the object's own
     * reference to the released buffer, so no call is handed a released one.
     */
    method SetVertexChannelFixed(time: real, verts: seq<real>, i: nat, frames: nat)
      returns (reusedReleased: bool)
      requires NoDangling()
      requires vertexCache != null ==> vertexCache.Length == frames * (3 * numVerts + 1) && i < frames
      modifies this, vertexCache
      ensures !reusedReleased
      ensures NoDangling()
      ensures numVerts == old(numVerts)
      ensures old(vertexCache) != null && |verts| != 3 * numVerts ==>
        vertexCache == null && released == old(released) + {old(vertexCache)}
        && old(vertexCache)[..] == old(vertexCache[..])
      ensures old(vertexCache) != null && |verts| == 3 * numVerts ==>
        vertexCache == old(vertexCache) && released == old(released)
        && vertexCache[..] == WriteFrame(old(vertexCache[..]), i, verts, time)
      ensures old(vertexCache) == null ==> vertexCache == null && released == old(released)
    {
      var channel := vertexCache;
      reusedReleased := channel != null && channel in released;
      if channel == null {
        return;
      }
      if |verts| != 3 * numVerts {
        released := released + {channel};
        vertexCache := null;
        return;
      }
      WriteVertexFrame(channel, time, verts, i, frames);
    }

    /**
     * The vertex-cache part of free_all_fluidobject_channels: a non-null
     * cache is released and cleared. doubleFree reports that the buffer
     * handed to the allocator had already been released.
     */
    method FreeVertexCache() returns (doubleFree: bool)
      modifies this
      ensures vertexCache == null && numVerts == old(numVerts) && NoDangling()
      ensures doubleFree <==> old(vertexCache) != null && old(vertexCache) in old(released)
      ensures old(vertexCache) != null ==> released == old(released) + {old(vertexCache)}
      ensures old(vertexCache) == null ==> released == old(released)
    {
      doubleFree := false;
      if vertexCache != null {
        doubleFree := vertexCache in released;
        released := released + {vertexCache};
        vertexCache := null;
      }
    }
  }

  /**
   * A mesh whose vertex count changes during the bake: set_vertex_channel
   * as written leaves the object referring to the released buffer, and the
   * cleanup at the end of the bake releases it a second time.
   */
  method MismatchThenFree() returns (doubleFree: bool)
    ensures doubleFree
  {
    var cache := new real[4];
    var o := new FluidObject(1, cache);
    var _ := o.SetVertexChannel(o.vertexCache, 0.0, [], 0, 1);
    assert !o.NoDangling();
    doubleFree := o.FreeVertexCache();
  }

  /**
   * A mesh whose vertex count changes at frame 0 of a two-frame bake: the
   * frame loop hands the object's (released) vertex cache to
   * set_vertex_channel again at frame 1, which writes into released memory
   * when the count is back to the original and releases it a second time
   * when it is not.
   */
  method MismatchThenNextFrame(nextVerts: seq<real>) returns (reused: bool)
    ensures reused
  {
    var cache := new real[8];
    var o := new FluidObject(1, cache);
    var _ := AnimatedMeshFrame(o, Control, false, 0.0, [], 0, 2);
    reused := AnimatedMeshFrame(o, Control, false, 1.0, nextVerts, 1, 2);
  }

  /**
   * The vertex-cache step of the legacy bake's per-object frame loop: only
   * an animated mesh has its vertex positions stored, through
   * set_vertex_channel on the object's own vertex cache.
   */
  method AnimatedMeshFrame(o: FluidObject, t: FluidsimType, domainNoVecGen: bool,
                           time: real, verts: seq<real>, i: nat, frames: nat)
    returns (reusedReleased: bool)
    requires o.vertexCache != null ==> o.vertexCache.Length == frames * (3 * o.numVerts + 1) && i < frames
    modifies o, o.vertexCache
    ensures o.vertexCache == old(o.vertexCache) && o.numVerts == old(o.numVerts)
    ensures reusedReleased <==>
      IsAnimatedMesh(t, domainNoVecGen) && o.vertexCache != null && o.vertexCache in old(o.released)
    ensures !IsAnimatedMesh(t, domainNoVecGen) ==>
      o.released == old(o.released) && (o.vertexCache != null ==> o.vertexCache[..] == old(o.vertexCache[..]))
    ensures IsAnimatedMesh(t, domainNoVecGen) && o.vertexCache == null ==> o.released == old(o.released)
    ensures IsAnimatedMesh(t, domainNoVecGen) && o.vertexCache != null && |verts| != 3 * o.numVerts ==>
      o.released == old(o.released) + {o.vertexCache} && o.vertexCache[..] == old(o.vertexCache[..])
    ensures IsAnimatedMesh(t, domainNoVecGen) && o.vertexCache != null && |verts| == 3 * o.numVerts ==>
      o.released == old(o.released) && o.vertexCache[..] == WriteFrame(old(o.vertexCache[..]), i, verts, time)
  {
    reusedReleased := false;
    if IsAnimatedMesh(t, domainNoVecGen) {
      reusedReleased := o.SetVertexChannel(o.vertexCache, time, verts, i, frames);
    }
  }

  /** With the corrected mismatch path, no frame of a two-frame bake is handed a released buffer. */
  method FixedTwoFrames(o: FluidObject, time0: real, verts0: seq<real>, time1: real, verts1: seq<real>, frames: nat)
    returns (reused: bool)
    requires o.NoDangling() && 1 < frames
    requires o.vertexCache != null ==> o.vertexCache.Length == frames * (3 * o.numVerts + 1)
    modifies o, o.vertexCache
    ensures !reused
    ensures o.NoDangling() && o.numVerts == old(o.numVerts)
    ensures old(o.vertexCache) == null ==> o.vertexCache == null && o.released == old(o.released)
    ensures var c := old(o.vertexCache); var n := 3 * o.numVerts;
      c != null && |verts0| != n ==>
        o.vertexCache == null && o.released == old(o.released) + {c} && c[..] == old(c[..])
    ensures var c := old(o.vertexCache); var n := 3 * o.numVerts;
      (FrameFits(0, frames, n + 1);
       c != null && |verts0| == n && |verts1| != n ==>
         o.vertexCache == null && o.released == old(o.released) + {c}
         && c[..] == WriteFrame(old(c[..]), 0, verts0, time0))
    ensures var c := old(o.vertexCache); var n := 3 * o.numVerts;
      (FrameFits(0, frames, n + 1); FrameFits(1, frames, n + 1);
       c != null && |verts0| == n && |verts1| == n ==>
         o.vertexCache == c && o.released == old(o.released)
         && c[..] == WriteFrame(WriteFrame(old(c[..]), 0, verts0, time0), 1, verts1, time1))
  {
    ghost var c := o.vertexCache;
    ghost var start := if c == null then [] else c[..];
    var reused0 := o.SetVertexChannelFixed(time0, verts0, 0, frames);
    ghost var mid := if c == null then [] else c[..];
    ghost var midReleased := o.released;
    assert c != null && |verts0| == 3 * o.numVerts ==> mid == WriteFrame(start, 0, verts0, time0);
    var reused1 := o.SetVertexChannelFixed(time1, verts1, 1, frames);
    assert c != null && |verts0| != 3 * o.numVerts ==> c[..] == mid && o.released == midReleased;
    reused := reused0 || reused1;
  }

  /** With the mismatch branch clearing the object's reference, the cleanup never releases a buffer twice. */
  method FixedThenFree(o: FluidObject, time: real, verts: seq<real>, i: nat, frames: nat) returns (doubleFree: bool)
    requires o.NoDangling()
    requires o.vertexCache != null ==> o.vertexCache.Length == frames * (3 * o.numVerts + 1) && i < frames
    modifies o, o.vertexCache
    ensures !doubleFree
    ensures o.vertexCache == null && o.NoDangling() && o.numVerts == old(o.numVerts)
    ensures old(o.vertexCache) == null ==> o.released == old(o.released)
    ensures var c := old(o.vertexCache);
      c != null ==>
        (FrameFits(i, frames, 3 * o.numVerts + 1);
         o.released == old(o.released) + {c}
         && c[..] == if |verts| == 3 * o.numVerts then WriteFrame(old(c[..]), i, verts, time) else old(c[..]))
  {
    var _ := o.SetVertexChannelFixed(time, verts, i, frames);
    doubleFree := o.FreeVertexCache();
  }

  /** The copy loop of set_vertex_channel: positions, then the time stamp, into frame i. */
  method WriteVertexFrame(channel: array<real>, time: real, verts: seq<real>, i: nat, frames: nat)
    requires |verts| % 3 == 0 && i < frames
    requires channel.Length == frames * (|verts| + 1)
    modifies channel
    ensures channel[..] == WriteFrame(old(channel[..]), i, verts, time)
  {
    var framesize := |verts| + 1;
    FrameFits(i, frames, framesize);
    var j := 0;
    while j < |verts|
      invariant 0 <= j <= |verts|
      invariant forall k :: 0 <= k < channel.Length ==>
        channel[k] == if i * framesize <= k < i * framesize + j then verts[k - i * framesize] else old(channel[k])
    {
      channel[i * framesize + j] := verts[j];
      j := j + 1;
    }
    channel[i * framesize + framesize - 1] := time;
    ghost var w := WriteFrame(old(channel[..]), i, verts, time);
    forall k | 0 <= k < channel.Length ensures channel[k] == w[k] {
      if i * framesize <= k < (i + 1) * framesize {
        assert w[k] == FrameOf(w, i, framesize)[k - i * framesize];
      }
    }
    assert channel[..] == w;
  }
}
