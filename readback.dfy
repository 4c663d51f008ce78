/**
 The lazy GPU-to-host readback cache as a state machine on values. The state
 is the device vertex buffer, the host copy, the "fresh" flag and the number
 of blocking readbacks so far. A processed frame rewrites the device buffer and
 clears the flag; a read copies the device buffer only when the flag is clear.
 The detector class is specified by these two steps, and the lemmas below are
 about any sequence of them.
 */
module Readback {
  import opened Shapes
  import Device

  datatype CacheState<V> = CacheState(device: seq<V>, host: seq<V>, upToDate: bool, readbacks: nat)

  /** The invariant the cache keeps: a fresh host copy equals the device buffer. */
  ghost predicate Coherent<V>(s: CacheState<V>)
  {
    s.upToDate ==> s.host == s.device
  }

  /**
   One processed frame: the postprocess dispatch writes `frame` into the
   vertex buffer and the cache is invalidated, whatever its state was.
   */
  function AfterProcess<V>(s: CacheState<V>, frame: seq<V>): (r: CacheState<V>)
    requires |s.device| == VertexCount && |frame| == VertexCount
    ensures !r.upToDate && Coherent(r)
    ensures r.device == frame
    ensures r.host == s.host && r.readbacks == s.readbacks
  {
    var threads := PostprocessGroups() * PostGroupSize;
    s.(device := Device.DispatchWrite(s.device, frame, threads), upToDate := false)
  }

  /**
   One host read: the new state and the records handed back. A fresh cache is
   returned as it is; a stale one is first refilled from the device buffer,
   which costs one readback.
   */
  function AfterRead<V>(s: CacheState<V>): (r: (CacheState<V>, seq<V>))
    ensures r.0.upToDate && r.0.device == s.device && r.1 == r.0.host
    ensures s.upToDate ==> r.0 == s
    ensures !s.upToDate ==> r.1 == s.device && r.0.readbacks == s.readbacks + 1
    ensures Coherent(s) ==> Coherent(r.0) && r.1 == s.device
  {
    if s.upToDate then (s, s.host)
    else (s.(host := s.device, upToDate := true, readbacks := s.readbacks + 1), s.device)
  }

  /** A call a client makes on the detector. */
  datatype Call<V> = ProcessImage(frame: seq<V>) | ReadVertexArray

  /** Every frame in the calls has one record per vertex. */
  predicate FramesSized<V>(calls: seq<Call<V>>)
  {
    forall i :: 0 <= i < |calls| && calls[i].ProcessImage? ==> |calls[i].frame| == VertexCount
  }

  /** The number of frames processed in the calls. */
  function ProcessCount<V>(calls: seq<Call<V>>): (r: nat)
  {
    if calls == [] then 0
    else ProcessCount(calls[..|calls| - 1]) + (if calls[|calls| - 1].ProcessImage? then 1 else 0)
  }

  /** The state after the calls, made one after the other. */
  function Run<V>(s: CacheState<V>, calls: seq<Call<V>>): (r: CacheState<V>)
    requires |s.device| == VertexCount && FramesSized(calls)
    ensures |r.device| == VertexCount
    decreases |calls|
  {
    if calls == [] then s
    else
      var before := Run(s, calls[..|calls| - 1]);
      match calls[|calls| - 1]
      case ProcessImage(frame) => AfterProcess(before, frame)
      case ReadVertexArray => AfterRead(before).0
  }

  /** The frame of the most recent ProcessImage in the calls, or `initial` if none. */
  function LastFrame<V>(calls: seq<Call<V>>, initial: seq<V>): (r: seq<V>)
  {
    if calls == [] then initial
    else if calls[|calls| - 1].ProcessImage? then calls[|calls| - 1].frame
    else LastFrame(calls[..|calls| - 1], initial)
  }

  /**
   Coherence holds after any calls, and the device buffer then holds the
   frame of the latest ProcessImage.
   */
  lemma {:induction false} RunTracksLastFrame<V>(s: CacheState<V>, calls: seq<Call<V>>)
    requires |s.device| == VertexCount && FramesSized(calls) && Coherent(s)
    ensures Coherent(Run(s, calls))
    ensures Run(s, calls).device == LastFrame(calls, s.device)
    decreases |calls|
  {
    if calls != [] {
      RunTracksLastFrame(s, calls[..|calls| - 1]);
    }
  }

  /**
   No stale frame: after any calls, a read returns exactly the records of the
   most recent ProcessImage, never those of an earlier frame.
   */
  lemma {:induction false} NoStaleFrame<V>(s: CacheState<V>, calls: seq<Call<V>>)
    requires |s.device| == VertexCount && FramesSized(calls) && Coherent(s)
    ensures AfterRead(Run(s, calls)).1 == LastFrame(calls, s.device)
  {
    RunTracksLastFrame(s, calls);
  }

  /** Two frames in a row without a read in between: the read sees the second. */
  lemma LatestFrameWins<V>(s: CacheState<V>, first: seq<V>, second: seq<V>)
    requires |s.device| == VertexCount && |first| == VertexCount && |second| == VertexCount
    requires Coherent(s)
    ensures AfterRead(Run(s, [ProcessImage(first), ProcessImage(second)])).1 == second
  {
    NoStaleFrame(s, [ProcessImage(first), ProcessImage(second)]);
  }

  /**
   Invalidation: after a ProcessImage the cache reports stale through any
   further ProcessImage calls, and the next read pays a readback.
   */
  lemma StaleUntilRead<V>(s: CacheState<V>, calls: seq<Call<V>>, frame: seq<V>, more: seq<Call<V>>)
    requires |s.device| == VertexCount && FramesSized(calls) && |frame| == VertexCount
    requires forall i :: 0 <= i < |more| ==> more[i].ProcessImage? && |more[i].frame| == VertexCount
    ensures FramesSized(calls + [ProcessImage(frame)] + more)
    ensures !Run(s, calls + [ProcessImage(frame)] + more).upToDate
    ensures AfterRead(Run(s, calls + [ProcessImage(frame)] + more)).0.readbacks
            == Run(s, calls + [ProcessImage(frame)] + more).readbacks + 1
  {
  }

  /**
   Two reads with no ProcessImage between them hand back the same records, and
   together they cost exactly one readback if the cache was stale, none if fresh.
   */
  lemma ReadIdempotent<V>(s: CacheState<V>)
    requires Coherent(s)
    ensures AfterRead(AfterRead(s).0).1 == AfterRead(s).1 == s.device
    ensures AfterRead(AfterRead(s).0).0 == AfterRead(s).0
    ensures AfterRead(AfterRead(s).0).0.readbacks == s.readbacks + (if s.upToDate then 0 else 1)
  {
  }

  /** Readbacks still owed: one while the cache is stale. */
  function Pending<V>(s: CacheState<V>): (r: nat)
  {
    if s.upToDate then 0 else 1
  }

  /**
   The cache pays at most one blocking readback per processed frame (plus one
   for the contents the buffer had before the first frame), however often the
   host reads.
   */
  lemma {:induction false} ReadbacksBounded<V>(s: CacheState<V>, calls: seq<Call<V>>)
    requires |s.device| == VertexCount && FramesSized(calls)
    ensures Run(s, calls).readbacks <= s.readbacks + Pending(s) + ProcessCount(calls)
  {
    ReadbacksPlusPending(s, calls);
  }

  /**
   The potential-function form of ReadbacksBounded: the readbacks so far plus
   the one still owed never exceed the frames processed plus what was owed at
   the start.
   */
  lemma {:induction false} ReadbacksPlusPending<V>(s: CacheState<V>, calls: seq<Call<V>>)
    requires |s.device| == VertexCount && FramesSized(calls)
    ensures Run(s, calls).readbacks + Pending(Run(s, calls)) <= s.readbacks + Pending(s) + ProcessCount(calls)
    decreases |calls|
  {
    if calls != [] {
      ReadbacksPlusPending(s, calls[..|calls| - 1]);
    }
  }
}
