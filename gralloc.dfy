/**
 * The allocation and release paths of the allocator: the RGB path, the
 * single-plane ("framework") YUV path, the multi-plane YUV path with its
 * rollback, the `alloc` entry point that tries RGB and then YUV, and the
 * `free` entry point.
 *
 * The layout helpers, handle validation and buffer registration are given
 * to these methods as functions; the kernel is an `Ion.Kernel`, whose logs
 * of requests and answers say what each path asked for and was granted.
 */
module Gralloc {
  import opened Defs
  import opened Policy
  import opened Handles
  import opened Ion
  import opened Device

  // ----- The kernel's logs -----

  /** `after` is `before` followed by what was logged since. */
  predicate Extends<T(==)>(before: seq<T>, after: seq<T>) {
    |before| <= |after| && after[..|before|] == before
  }

  /** What was logged since `before`. */
  function Since<T(==)>(before: seq<T>, after: seq<T>): seq<T>
    requires Extends(before, after)
  {
    after[|before|..]
  }

  /**
   * The answers from index `from` on: every request but the last was
   * granted, and the last was granted exactly when `ok`. A run of kernel
   * requests that stops at the first refusal.
   */
  predicate StoppedAtFirstRefusal(answers: seq<bool>, from: int, ok: bool) {
    0 <= from < |answers| &&
    (forall i :: from <= i < |answers| - 1 ==> answers[i]) &&
    (answers[|answers| - 1] <==> ok)
  }

  /** A granted request followed by a run that stops at the first refusal is such a run. */
  lemma StoppedAfterGrant(answers0: seq<bool>, answers1: seq<bool>, answers: seq<bool>, ok: bool)
    requires answers1 == answers0 + [true]
    requires Extends(answers1, answers) && StoppedAtFirstRefusal(answers, |answers1|, ok)
    ensures Extends(answers0, answers) && StoppedAtFirstRefusal(answers, |answers0|, ok)
  {
    assert answers[..|answers1|][..|answers0|] == answers[..|answers0|];
    assert answers[|answers0|] == answers[..|answers1|][|answers0|];
  }

  /** A single request whose answer is `ok` is a run that stops at the first refusal. */
  lemma StoppedAtOne(answers0: seq<bool>, answers: seq<bool>, ok: bool)
    requires answers == answers0 + [ok]
    ensures Extends(answers0, answers) && StoppedAtFirstRefusal(answers, |answers0|, ok)
  {
  }

  /** Every request went to `conn`, from the heaps the usage selects, with the cache flags it calls for. */
  predicate RequestsFor(rs: seq<Request>, conn: int, usage: bv32) {
    forall r :: r in rs ==>
      r.conn == conn && r.heapMask == SelectHeap(usage) && r.flags & IonCacheMask == CacheFlags(usage)
  }

  /** The extra bits each path adds leave the cache flags `gralloc_alloc` asked for intact. */
  lemma PathFlagsKeepCacheFlags(usage: bv32)
    ensures RgbIonFlags(usage, CacheFlags(usage)) & IonCacheMask == CacheFlags(usage)
    ensures YuvIonFlags(usage, CacheFlags(usage)) & IonCacheMask == CacheFlags(usage)
  {
  }

  /** Requests of the RGB path made with the cache flags of `usage`. */
  lemma RgbRequestsFor(rs: seq<Request>, conn: int, usage: bv32)
    requires forall r :: r in rs ==>
               r.conn == conn && r.heapMask == SelectHeap(usage) && r.flags == RgbIonFlags(usage, CacheFlags(usage))
    ensures RequestsFor(rs, conn, usage)
  {
    PathFlagsKeepCacheFlags(usage);
  }

  /** Requests of the multi-plane YUV path made with the cache flags of `usage`. */
  lemma YuvRequestsFor(rs: seq<Request>, conn: int, usage: bv32)
    requires forall r :: r in rs ==>
               r.conn == conn && r.heapMask == SelectHeap(usage) && r.flags == YuvIonFlags(usage, CacheFlags(usage))
    ensures RequestsFor(rs, conn, usage)
  {
    PathFlagsKeepCacheFlags(usage);
  }

  /** Two runs of well-formed requests, one after the other, make one. */
  lemma RequestsForJoin(reqs0: seq<Request>, reqs1: seq<Request>, reqs2: seq<Request>, conn: int, usage: bv32)
    requires Extends(reqs0, reqs1) && Extends(reqs1, reqs2)
    requires RequestsFor(Since(reqs0, reqs1), conn, usage) && RequestsFor(Since(reqs1, reqs2), conn, usage)
    ensures Extends(reqs0, reqs2)
    ensures RequestsFor(Since(reqs0, reqs2), conn, usage)
  {
    assert reqs2[..|reqs1|][..|reqs0|] == reqs2[..|reqs0|];
    assert Since(reqs0, reqs2) == Since(reqs0, reqs1) + Since(reqs1, reqs2);
  }

  /** The requests appended to `before` are among `rs`. */
  lemma SinceIsPrefix(before: seq<Request>, rs: seq<Request>, n: int)
    requires 0 <= n <= |rs|
    ensures Extends(before, before + rs[..n])
    ensures forall r :: r in Since(before, before + rs[..n]) ==> r in rs
  {
    assert (before + rs[..n])[..|before|] == before;
    assert Since(before, before + rs[..n]) == rs[..n];
  }

  // ----- Descriptor tables -----

  /** Distinct descriptors make a set of one per plane. */
  lemma PlaneFdsCount(count: int, fd: int, fd1: int, fd2: int)
    requires 1 <= count <= 3
    requires count >= 2 ==> fd1 != fd
    requires count == 3 ==> fd2 != fd && fd2 != fd1
    ensures |PlaneFds(count, fd, fd1, fd2)| == count
  {
  }

  /** Opening one buffer is adding a one-descriptor set. */
  lemma AddOneBuffer(fds: map<int, Kind>, fd: int)
    ensures fds[fd := Buffer] == AddBuffers(fds, {fd})
  {
  }

  /** Opening one more buffer grows the set of added descriptors. */
  lemma AddAnotherBuffer(fds: map<int, Kind>, s: set<int>, fd: int)
    ensures AddBuffers(fds, s)[fd := Buffer] == AddBuffers(fds, s + {fd})
  {
  }

  /** Opening two sets of buffers one after the other is opening their union. */
  lemma AddBuffersTwice(fds: map<int, Kind>, s: set<int>, t: set<int>)
    ensures AddBuffers(AddBuffers(fds, s), t) == AddBuffers(fds, s + t)
  {
  }

  /** Closing a descriptor just opened restores the table. */
  lemma CloseFresh(fds: map<int, Kind>, fd: int)
    requires fd !in fds
    ensures fds[fd := Buffer] - {fd} == fds
  {
  }

  /** Closing the descriptors just opened restores the table. */
  lemma ReleaseUndoesAdd(fds: map<int, Kind>, s: set<int>)
    requires s !! fds.Keys
    ensures AddBuffers(fds, s) - s == fds
  {
    assert (AddBuffers(fds, s) - s).Keys == fds.Keys;
  }

  /** The descriptors of a `count`-plane buffer: `fd`, then `fd1`, then `fd2`. */
  function PlaneFds(count: int, fd: int, fd1: int, fd2: int): set<int> {
    if count == 1 then {fd} else if count == 2 then {fd, fd1} else {fd, fd1, fd2}
  }

  // ----- The RGB path -----

  /** The RGB path gets as far as the kernel: the format is accepted and the layout helper succeeds. */
  predicate RgbReachesKernel(w: int, h: int, format: int, usage: bv32, layout: RgbLayoutFn) {
    CoerceRgbFormat(format, usage).Some? && layout(w, h, CoerceRgbFormat(format, usage).value, usage).err == 0
  }

  /** The layout of an RGB buffer that reaches the kernel. */
  function RgbLayoutOf(w: int, h: int, format: int, usage: bv32, layout: RgbLayoutFn): RgbLayout
    requires RgbReachesKernel(w, h, format, usage, layout)
  {
    layout(w, h, CoerceRgbFormat(format, usage).value, usage)
  }

  /** The one kernel request of the RGB path. */
  function RgbRequest(ionfd: int, w: int, h: int, format: int, usage: bv32, ionFlags: bv32, layout: RgbLayoutFn): Request
    requires RgbReachesKernel(w, h, format, usage, layout)
  {
    Request(ionfd, RgbLayoutOf(w, h, format, usage, layout).size, RgbAlignment(usage), SelectHeap(usage),
            RgbIonFlags(usage, ionFlags))
  }

  /** The handle the RGB path builds around descriptor `fd`: the coerced format and the helper's geometry. */
  function RgbHandle(fd: int, w: int, h: int, format: int, usage: bv32, layout: RgbLayoutFn): Handle
    requires RgbReachesKernel(w, h, format, usage, layout)
  {
    var lay := RgbLayoutOf(w, h, format, usage, layout);
    SinglePlane(fd, lay.size, usage, w, h, CoerceRgbFormat(format, usage).value, lay.stride, lay.vstride)
  }

  /**
   * `gralloc_alloc_rgb`, as written: once the layout is known it builds a
   * handle whether or not the kernel granted the buffer, and on a refusal
   * that handle carries `stale`, the never-written local descriptor.
   */
  method AllocRgb(k: Kernel, ionfd: int, w: int, h: int, format: int, usage: bv32, ionFlags: bv32,
                  layout: RgbLayoutFn, stale: int)
    returns (err: int, hnd: Option<Handle>, stride: int)
    requires k.Valid()
    modifies k
    ensures k.Valid()
    ensures Extends(old(k.requests), k.requests) && |k.requests| <= |old(k.requests)| + 1
    ensures forall r :: r in Since(old(k.requests), k.requests) ==>
              r.conn == ionfd && r.heapMask == SelectHeap(usage) && r.flags == RgbIonFlags(usage, ionFlags)
    // summary: a success opens exactly the handle's descriptor; a failure opens nothing
    ensures err == 0 ==>
              hnd.Some? && stride == hnd.value.stride && OwnedFds(hnd.value) == {hnd.value.fd} &&
              hnd.value.fd !in old(k.fds) && k.fds == AddBuffers(old(k.fds), {hnd.value.fd})
    ensures err != 0 ==> k.fds == old(k.fds) && (hnd.None? || OwnedFds(hnd.value) == {stale})
    // a refused format or a failed layout: no request and no handle
    ensures CoerceRgbFormat(format, usage).None? ==> err == -EINVAL
    ensures var c := CoerceRgbFormat(format, usage);
            c.Some? && layout(w, h, c.value, usage).err != 0 ==> err == layout(w, h, c.value, usage).err
    ensures !RgbReachesKernel(w, h, format, usage, layout) ==>
              err != 0 && hnd.None? &&
              k.fds == old(k.fds) && k.requests == old(k.requests) && k.answers == old(k.answers)
    // otherwise one request, and a handle whatever the kernel answers
    ensures RgbReachesKernel(w, h, format, usage, layout) ==>
              k.requests == old(k.requests) + [RgbRequest(ionfd, w, h, format, usage, ionFlags, layout)] &&
              k.answers == old(k.answers) + [err == 0] &&
              err <= 0 && stride == RgbLayoutOf(w, h, format, usage, layout).stride &&
              hnd.Some? && hnd.value == RgbHandle(hnd.value.fd, w, h, format, usage, layout) &&
              (err == 0 ==> hnd.value.fd >= 0 && hnd.value.fd !in old(k.fds) &&
                            k.fds == old(k.fds)[hnd.value.fd := Buffer]) &&
              (err < 0 ==> hnd.value.fd == stale && k.fds == old(k.fds))
  {
    var heapMask := SelectHeap(usage);
    hnd, stride := None, 0;
    var coerced := CoerceRgbFormat(format, usage);
    if coerced.None? {
      err := -EINVAL;
      return;
    }
    var fmt := coerced.value;
    var lay := layout(w, h, fmt, usage);
    stride := lay.stride;
    if lay.err != 0 {
      err := lay.err;
      return;
    }
    var alignment := RgbAlignment(usage);
    var flags := RgbIonFlags(usage, ionFlags);
    var fd;
    ghost var reqs0 := k.requests;
    err, fd := k.AllocFd(ionfd, lay.size, alignment, heapMask, flags, stale);
    assert Since(reqs0, k.requests) == [k.requests[|reqs0|]];
    hnd := Some(SinglePlane(fd, lay.size, usage, w, h, fmt, stride, lay.vstride));
    if err == 0 {
      AddOneBuffer(old(k.fds), fd);
    }
  }

  /**
   * The RGB path with the kernel's refusal checked before a handle is
   * built, as the framework YUV path does: no handle on any failure.
   */
  method AllocRgbChecked(k: Kernel, ionfd: int, w: int, h: int, format: int, usage: bv32, ionFlags: bv32,
                         layout: RgbLayoutFn)
    returns (err: int, hnd: Option<Handle>, stride: int)
    requires k.Valid()
    modifies k
    ensures k.Valid()
    ensures Extends(old(k.requests), k.requests) && |k.requests| <= |old(k.requests)| + 1
    ensures forall r :: r in Since(old(k.requests), k.requests) ==>
              r.conn == ionfd && r.heapMask == SelectHeap(usage) && r.flags == RgbIonFlags(usage, ionFlags)
    ensures err == 0 ==>
              hnd.Some? && stride == hnd.value.stride && OwnedFds(hnd.value) == {hnd.value.fd} &&
              hnd.value.fd !in old(k.fds) && k.fds == AddBuffers(old(k.fds), {hnd.value.fd})
    ensures err != 0 ==> hnd.None? && k.fds == old(k.fds)
    ensures !RgbReachesKernel(w, h, format, usage, layout) ==>
              err != 0 && k.requests == old(k.requests) && k.answers == old(k.answers)
    ensures RgbReachesKernel(w, h, format, usage, layout) ==>
              k.requests == old(k.requests) + [RgbRequest(ionfd, w, h, format, usage, ionFlags, layout)] &&
              k.answers == old(k.answers) + [err == 0] &&
              err <= 0 && stride == RgbLayoutOf(w, h, format, usage, layout).stride &&
              (err == 0 ==> hnd.value == RgbHandle(hnd.value.fd, w, h, format, usage, layout) &&
                            hnd.value.fd >= 0)
  {
    err, hnd, stride := AllocRgb(k, ionfd, w, h, format, usage, ionFlags, layout, -1);
    if err != 0 {
      hnd := None;
    }
  }

  // ----- The YUV paths -----

  /** `gralloc_alloc_framework_yuv`: one buffer, and a handle only when the kernel granted it. */
  method AllocFrameworkYuv(k: Kernel, ionfd: int, w: int, h: int, format: int, usage: bv32, ionFlags: bv32,
                           layout: FrameworkLayoutFn)
    returns (err: int, hnd: Option<Handle>, stride: int)
    requires k.Valid()
    modifies k
    ensures k.Valid()
    ensures err != 0 ==> hnd.None? && k.fds == old(k.fds)
    ensures layout(w, h, format).err != 0 ==>
              err == layout(w, h, format).err && k.requests == old(k.requests) && k.answers == old(k.answers)
    ensures var lay := layout(w, h, format);
            lay.err == 0 ==>
              err <= 0 && stride == lay.stride &&
              k.requests == old(k.requests) + [Request(ionfd, lay.size, 0, SelectHeap(usage), ionFlags)] &&
              k.answers == old(k.answers) + [err == 0]
    ensures var lay := layout(w, h, format);
            err == 0 ==>
              hnd.Some? && hnd.value == SinglePlane(hnd.value.fd, lay.size, usage, w, h, format, lay.stride, h) &&
              hnd.value.fd >= 0 && hnd.value.fd !in old(k.fds) && k.fds == old(k.fds)[hnd.value.fd := Buffer]
  {
    var heapMask := SelectHeap(usage);
    hnd := None;
    var lay := layout(w, h, format);
    stride := lay.stride;
    if lay.err != 0 {
      err := lay.err;
      return;
    }
    var fd: int := *;
    err, fd := k.AllocFd(ionfd, lay.size, 0, heapMask, ionFlags, fd);
    if err != 0 {
      return;
    }
    hnd := Some(SinglePlane(fd, lay.size, usage, w, h, format, stride, h));
  }

  /** The layout the multi-plane path asks for: resolved format, and stride preset to 16-aligned width. */
  function YuvLayoutFor(layout: YuvLayoutFn, ionfd: int, w: int, h: int, format: int, usage: bv32, ionFlags: bv32): YuvLayout {
    layout(ionfd, w, h, ResolveYuvFormat(format, usage), usage, ionFlags, Align16(w))
  }

  /**
   * The kernel requests of the multi-plane path, in order: the luma plane,
   * then one chroma plane per further descriptor.
   */
  function PlaneRequests(ionfd: int, lay: YuvLayout, usage: bv32, ionFlags: bv32): (rs: seq<Request>)
    ensures |rs| == PlaneCount(lay.planes)
    ensures rs[0].size == lay.lumaSize
    ensures forall i :: 1 <= i < |rs| ==> rs[i].size == lay.chromaSize
    ensures forall r :: r in rs ==>
              r.conn == ionfd && r.align == 0 && r.heapMask == SelectHeap(usage) &&
              r.flags == YuvIonFlags(usage, ionFlags)
  {
    var luma := Request(ionfd, lay.lumaSize, 0, SelectHeap(usage), YuvIonFlags(usage, ionFlags));
    var chroma := luma.(size := lay.chromaSize);
    if PlaneCount(lay.planes) == 1 then [luma]
    else if PlaneCount(lay.planes) == 2 then [luma, chroma]
    else [luma, chroma, chroma]
  }

  /**
   * The handle the multi-plane path builds for `planes` planes from the
   * descriptors it allocated, tagged with its colour metadata; an absent
   * descriptor is not recorded.
   */
  function PlaneHandle(planes: int, fd: int, fd1: int, fd2: int,
                       size: int, usage: bv32, w: int, h: int, format: int, stride: int, vstride: int,
                       color: (Chroma, Gamut)): (hnd: Handle)
    requires fd >= 0 && (PlaneCount(planes) >= 2 ==> fd1 >= 0) && (PlaneCount(planes) == 3 ==> fd2 >= 0)
    ensures Describes(hnd, size, usage, w, h, format, stride, vstride)
    ensures (hnd.chroma, hnd.gamut) == color
    ensures hnd.fd == fd
    ensures hnd.fd1 >= 0 <==> PlaneCount(planes) >= 2
    ensures hnd.fd2 >= 0 <==> PlaneCount(planes) == 3
    ensures OwnedFds(hnd) == PlaneFds(PlaneCount(planes), fd, fd1, fd2)
  {
    var plain :=
      if planes == 1 then SinglePlane(fd, size, usage, w, h, format, stride, vstride)
      else if planes == 3 then TriplePlane(fd, fd1, fd2, size, usage, w, h, format, stride, vstride)
      else DoublePlane(fd, fd1, size, usage, w, h, format, stride, vstride);
    plain.(chroma := color.0, gamut := color.1)
  }

  /**
   * The chroma part of the allocation sequence of `gralloc_alloc_yuv`: one
   * request per chroma plane, stopping at the first refusal. A refused
   * second chroma plane closes the first one, so a failure leaves the
   * descriptor table as it was.
   */
  method AcquireChroma(k: Kernel, cs: seq<Request>) returns (err: int, fd1: int, fd2: int)
    requires k.Valid()
    requires 1 <= |cs| <= 2
    modifies k
    ensures k.Valid()
    ensures err <= 0
    ensures |old(k.requests)| < |k.requests| <= |old(k.requests)| + |cs|
    ensures k.requests == old(k.requests) + cs[..|k.requests| - |old(k.requests)|]
    ensures Extends(old(k.answers), k.answers) && StoppedAtFirstRefusal(k.answers, |old(k.answers)|, err == 0)
    ensures err != 0 ==> k.fds == old(k.fds)
    ensures err == 0 ==>
              |k.requests| == |old(k.requests)| + |cs| &&
              fd1 >= 0 && (|cs| == 2 ==> fd2 >= 0 && fd2 != fd1) &&
              PlaneFds(|cs|, fd1, fd2, 0) !! old(k.fds).Keys &&
              k.fds == AddBuffers(old(k.fds), PlaneFds(|cs|, fd1, fd2, 0))
  {
    ghost var fds0 := k.fds;
    ghost var reqs0 := k.requests;
    ghost var answers0 := k.answers;
    fd1 := *;
    fd2 := 0;
    err, fd1 := k.AllocFd(cs[0].conn, cs[0].size, cs[0].align, cs[0].heapMask, cs[0].flags, fd1);
    assert k.requests == reqs0 + cs[..1];
    if err != 0 {
      StoppedAtOne(answers0, k.answers, false);
      return;
    }
    AddOneBuffer(fds0, fd1);
    if |cs| == 1 {
      StoppedAtOne(answers0, k.answers, true);
      return;
    }
    ghost var answers1 := k.answers;
    err, fd2 := k.AllocFd(cs[1].conn, cs[1].size, cs[1].align, cs[1].heapMask, cs[1].flags, fd2);
    assert k.requests == reqs0 + cs[..2];
    StoppedAtOne(answers1, k.answers, err == 0);
    StoppedAfterGrant(answers0, answers1, k.answers, err == 0);
    if err != 0 {
      // err2: the first chroma plane goes
      k.Close(fd1);
      CloseFresh(fds0, fd1);
      return;
    }
    AddAnotherBuffer(fds0, {fd1}, fd2);
    assert {fd1} + {fd2} == {fd1, fd2};
  }

  /**
   * The allocation sequence of `gralloc_alloc_yuv`: one kernel request per
   * plane, luma first, stopping at the first refusal. A refused luma plane
   * closes nothing; a refused chroma plane closes the luma descriptor after
   * the chroma rollback. So a failure leaves the descriptor table as it
   * was, and a success adds exactly one fresh buffer descriptor per plane.
   */
  method AcquirePlanes(k: Kernel, rs: seq<Request>) returns (err: int, fd: int, fd1: int, fd2: int)
    requires k.Valid()
    requires 1 <= |rs| <= 3
    modifies k
    ensures k.Valid()
    ensures err <= 0
    ensures |old(k.requests)| < |k.requests| <= |old(k.requests)| + |rs|
    ensures k.requests == old(k.requests) + rs[..|k.requests| - |old(k.requests)|]
    ensures Extends(old(k.answers), k.answers) && StoppedAtFirstRefusal(k.answers, |old(k.answers)|, err == 0)
    ensures err != 0 ==> k.fds == old(k.fds)
    ensures err == 0 ==>
              |k.requests| == |old(k.requests)| + |rs| &&
              fd >= 0 && (|rs| >= 2 ==> fd1 >= 0) && (|rs| == 3 ==> fd2 >= 0) &&
              |PlaneFds(|rs|, fd, fd1, fd2)| == |rs| &&
              PlaneFds(|rs|, fd, fd1, fd2) !! old(k.fds).Keys &&
              k.fds == AddBuffers(old(k.fds), PlaneFds(|rs|, fd, fd1, fd2))
  {
    ghost var fds0 := k.fds;
    ghost var reqs0 := k.requests;
    ghost var answers0 := k.answers;
    fd := *;
    fd1, fd2 := 0, 0;
    err, fd := k.AllocFd(rs[0].conn, rs[0].size, rs[0].align, rs[0].heapMask, rs[0].flags, fd);
    assert k.requests == reqs0 + rs[..1];
    if err != 0 {
      StoppedAtOne(answers0, k.answers, false);
      return;
    }
    AddOneBuffer(fds0, fd);
    if |rs| == 1 {
      StoppedAtOne(answers0, k.answers, true);
      PlaneFdsCount(1, fd, fd1, fd2);
      return;
    }
    ghost var reqs1 := k.requests;
    ghost var answers1 := k.answers;
    err, fd1, fd2 := AcquireChroma(k, rs[1..]);
    StoppedAfterGrant(answers0, answers1, k.answers, err == 0);
    ghost var n := |k.requests| - |reqs1|;
    assert k.requests == reqs0 + rs[..1 + n] by {
      assert rs[..1 + n] == rs[..1] + rs[1..][..n];
    }
    if err != 0 {
      // err1: the luma plane goes
      k.Close(fd);
      CloseFresh(fds0, fd);
      return;
    }
    assert PlaneFds(|rs|, fd, fd1, fd2) == {fd} + PlaneFds(|rs| - 1, fd1, fd2, 0);
    AddBuffersTwice(fds0, {fd}, PlaneFds(|rs| - 1, fd1, fd2, 0));
    PlaneFdsCount(|rs|, fd, fd1, fd2);
  }

  /**
   * What the multi-plane YUV path did, read off the kernel's logs from
   * index `from` on: a layout error makes no request; otherwise the planes
   * are requested in order and the run stops at the first refusal; and a
   * success returns the handle of the resolved format with its colour
   * metadata and one descriptor per plane.
   */
  predicate YuvOutcome(requests: seq<Request>, answers: seq<bool>, from: int,
                       err: int, hnd: Option<Handle>, stride: int,
                       ionfd: int, w: int, h: int, format: int, usage: bv32, ionFlags: bv32, layout: YuvLayoutFn)
  {
    var lay := YuvLayoutFor(layout, ionfd, w, h, format, usage, ionFlags);
    var rs := PlaneRequests(ionfd, lay, usage, ionFlags);
    0 <= from <= |requests| && |answers| == |requests| && stride == lay.stride &&
    (lay.err != 0 ==> err == lay.err && |requests| == from) &&
    (lay.err == 0 ==>
       err <= 0 && from < |requests| <= from + |rs| && requests[from..] == rs[..|requests| - from] &&
       StoppedAtFirstRefusal(answers, from, err == 0) &&
       (err == 0 ==> |requests| == from + |rs|)) &&
    (err == 0 ==>
       hnd.Some? &&
       Describes(hnd.value, lay.lumaSize, usage, w, h, ResolveYuvFormat(format, usage), lay.stride, lay.lumaVstride) &&
       (hnd.value.chroma, hnd.value.gamut) == YuvColor(usage) &&
       hnd.value.fd >= 0 &&
       (hnd.value.fd1 >= 0 <==> PlaneCount(lay.planes) >= 2) &&
       (hnd.value.fd2 >= 0 <==> PlaneCount(lay.planes) == 3) &&
       |OwnedFds(hnd.value)| == PlaneCount(lay.planes))
  }

  /** The multi-plane path's outcome once its planes were requested and, on success, its handle built. */
  lemma YuvOutcomeOfPlanes(requests0: seq<Request>, requests: seq<Request>, answers0: seq<bool>, answers: seq<bool>,
                           err: int, hnd: Option<Handle>, stride: int,
                           ionfd: int, w: int, h: int, format: int, usage: bv32, ionFlags: bv32, layout: YuvLayoutFn,
                           lay: YuvLayout, rs: seq<Request>, fd: int, fd1: int, fd2: int)
    requires lay == YuvLayoutFor(layout, ionfd, w, h, format, usage, ionFlags) && lay.err == 0 && stride == lay.stride
    requires rs == PlaneRequests(ionfd, lay, usage, ionFlags)
    requires |answers0| == |requests0| && |answers| == |requests|
    requires |requests0| < |requests| <= |requests0| + |rs| && requests == requests0 + rs[..|requests| - |requests0|]
    requires err <= 0 && StoppedAtFirstRefusal(answers, |answers0|, err == 0)
    requires err == 0 ==>
               |requests| == |requests0| + |rs| &&
               fd >= 0 && (|rs| >= 2 ==> fd1 >= 0) && (|rs| == 3 ==> fd2 >= 0) &&
               |PlaneFds(|rs|, fd, fd1, fd2)| == |rs| &&
               hnd == Some(PlaneHandle(lay.planes, fd, fd1, fd2, lay.lumaSize, usage, w, h,
                                       ResolveYuvFormat(format, usage), lay.stride, lay.lumaVstride, YuvColor(usage)))
    ensures YuvOutcome(requests, answers, |requests0|, err, hnd, stride, ionfd, w, h, format, usage, ionFlags, layout)
  {
    assert requests[|requests0|..] == rs[..|requests| - |requests0|];
  }

  /**
   * `gralloc_alloc_yuv`: resolves the format, asks the layout helper for
   * the planes with the stride preset to the 16-aligned width, allocates
   * the planes with rollback, and tags the handle with its colour metadata.
   */
  method AllocYuv(k: Kernel, ionfd: int, w: int, h: int, format: int, usage: bv32, ionFlags: bv32,
                  layout: YuvLayoutFn)
    returns (err: int, hnd: Option<Handle>, stride: int)
    requires k.Valid()
    modifies k
    ensures k.Valid()
    ensures Extends(old(k.requests), k.requests) && Extends(old(k.answers), k.answers)
    ensures forall r :: r in Since(old(k.requests), k.requests) ==>
              r.conn == ionfd && r.heapMask == SelectHeap(usage) && r.flags == YuvIonFlags(usage, ionFlags)
    ensures YuvOutcome(k.requests, k.answers, |old(k.requests)|, err, hnd, stride,
                       ionfd, w, h, format, usage, ionFlags, layout)
    // rollback: a failure opens nothing and closes nothing it did not open
    ensures err != 0 ==> hnd.None? && k.fds == old(k.fds)
    ensures err == 0 ==>
              OwnedFds(hnd.value) !! old(k.fds).Keys &&
              k.fds == AddBuffers(old(k.fds), OwnedFds(hnd.value))
  {
    hnd := None;
    stride := Align16(w);
    var fmt := ResolveYuvFormat(format, usage);
    var lay := layout(ionfd, w, h, fmt, usage, ionFlags, stride);
    assert lay == YuvLayoutFor(layout, ionfd, w, h, format, usage, ionFlags);
    stride := lay.stride;
    if lay.err != 0 {
      err := lay.err;
      return;
    }
    var rs := PlaneRequests(ionfd, lay, usage, ionFlags);
    var fd, fd1, fd2;
    ghost var reqs0 := k.requests;
    err, fd, fd1, fd2 := AcquirePlanes(k, rs);
    SinceIsPrefix(reqs0, rs, |k.requests| - |reqs0|);
    if err == 0 {
      // the handle, tagged with its chroma and gamut
      hnd := Some(PlaneHandle(lay.planes, fd, fd1, fd2, lay.lumaSize, usage, w, h, fmt, stride, lay.lumaVstride,
                              YuvColor(usage)));
    }
    YuvOutcomeOfPlanes(reqs0, k.requests, old(k.answers), k.answers, err, hnd, stride,
                       ionfd, w, h, format, usage, ionFlags, layout, lay, rs, fd, fd1, fd2);
  }

  // ----- gralloc_alloc and gralloc_free -----

  /** The closes `gralloc_alloc`'s error path and `gralloc_free` make for a handle. */
  method ReleaseHandle(k: Kernel, hnd: Handle)
    requires k.Valid()
    modifies k
    ensures k.Valid()
    ensures k.fds == old(k.fds) - OwnedFds(hnd)
    ensures k.requests == old(k.requests) && k.answers == old(k.answers)
  {
    k.Close(hnd.fd);
    if hnd.fd1 >= 0 {
      k.Close(hnd.fd1);
    }
    if hnd.fd2 >= 0 {
      k.Close(hnd.fd2);
    }
  }

  /** The RGB path reached the kernel and its request, at index `from`, was granted. */
  predicate RgbGranted(answers: seq<bool>, from: int, w: int, h: int, format: int, usage: bv32, rgbLayout: RgbLayoutFn) {
    RgbReachesKernel(w, h, format, usage, rgbLayout) && 0 <= from < |answers| && answers[from]
  }

  /** The RGB path reached the kernel and its request, at index `from`, was refused. */
  predicate RgbRefused(answers: seq<bool>, from: int, w: int, h: int, format: int, usage: bv32, rgbLayout: RgbLayoutFn) {
    RgbReachesKernel(w, h, format, usage, rgbLayout) && 0 <= from < |answers| && !answers[from]
  }

  /**
   * What the path selection of `gralloc_alloc` did, read off the kernel's
   * logs from index `from` on. The RGB request, if the RGB path gets that
   * far, comes first. When it is granted it is the only request and the
   * result is the RGB handle. Otherwise the remaining requests and the
   * result are those of the multi-plane YUV path.
   */
  predicate PathsOutcome(requests: seq<Request>, answers: seq<bool>, from: int,
                         err: int, hnd: Option<Handle>, stride: int,
                         ionfd: int, w: int, h: int, format: int, usage: bv32,
                         rgbLayout: RgbLayoutFn, yuvLayout: YuvLayoutFn)
  {
    var reached := RgbReachesKernel(w, h, format, usage, rgbLayout);
    var yuvFrom := if reached then from + 1 else from;
    0 <= from && yuvFrom <= |requests| && |answers| == |requests| &&
    (reached ==> requests[from] == RgbRequest(ionfd, w, h, format, usage, CacheFlags(usage), rgbLayout)) &&
    (RgbGranted(answers, from, w, h, format, usage, rgbLayout) ==>
       err == 0 && |requests| == yuvFrom && hnd.Some? &&
       hnd.value == RgbHandle(hnd.value.fd, w, h, format, usage, rgbLayout) && stride == hnd.value.stride) &&
    (!RgbGranted(answers, from, w, h, format, usage, rgbLayout) ==>
       YuvOutcome(requests, answers, yuvFrom, err, hnd, stride, ionfd, w, h, format, usage, CacheFlags(usage), yuvLayout))
  }

  /** The path selection's outcome when the kernel granted the RGB request. */
  lemma PathsOutcomeOfRgb(requests0: seq<Request>, requests: seq<Request>, answers0: seq<bool>, answers: seq<bool>,
                          err: int, hnd: Option<Handle>, stride: int,
                          ionfd: int, w: int, h: int, format: int, usage: bv32,
                          rgbLayout: RgbLayoutFn, yuvLayout: YuvLayoutFn)
    requires |answers0| == |requests0| && RgbReachesKernel(w, h, format, usage, rgbLayout)
    requires requests == requests0 + [RgbRequest(ionfd, w, h, format, usage, CacheFlags(usage), rgbLayout)]
    requires answers == answers0 + [true]
    requires err == 0 && hnd.Some? && hnd.value == RgbHandle(hnd.value.fd, w, h, format, usage, rgbLayout)
    requires stride == hnd.value.stride
    ensures PathsOutcome(requests, answers, |requests0|, err, hnd, stride, ionfd, w, h, format, usage, rgbLayout, yuvLayout)
    ensures answers[|requests0|]
  {
  }

  /**
   * The path selection's outcome when the RGB path did not get as far as
   * the kernel or was refused by it, and the multi-plane path ran after it.
   */
  lemma PathsOutcomeOfYuv(requests0: seq<Request>, requests1: seq<Request>, requests: seq<Request>,
                          answers0: seq<bool>, answers1: seq<bool>, answers: seq<bool>,
                          err: int, hnd: Option<Handle>, stride: int,
                          ionfd: int, w: int, h: int, format: int, usage: bv32,
                          rgbLayout: RgbLayoutFn, yuvLayout: YuvLayoutFn)
    requires |answers0| == |requests0|
    requires !RgbReachesKernel(w, h, format, usage, rgbLayout) ==> requests1 == requests0 && answers1 == answers0
    requires RgbReachesKernel(w, h, format, usage, rgbLayout) ==>
               requests1 == requests0 + [RgbRequest(ionfd, w, h, format, usage, CacheFlags(usage), rgbLayout)] &&
               answers1 == answers0 + [false]
    requires Extends(requests1, requests) && Extends(answers1, answers)
    requires YuvOutcome(requests, answers, |requests1|, err, hnd, stride,
                        ionfd, w, h, format, usage, CacheFlags(usage), yuvLayout)
    ensures PathsOutcome(requests, answers, |requests0|, err, hnd, stride, ionfd, w, h, format, usage, rgbLayout, yuvLayout)
    ensures RgbReachesKernel(w, h, format, usage, rgbLayout) ==> !answers[|requests0|]
  {
    if RgbReachesKernel(w, h, format, usage, rgbLayout) {
      assert requests[|requests0|] == requests[..|requests1|][|requests0|];
      assert answers[|requests0|] == answers[..|answers1|][|requests0|];
    }
  }

  /**
   * When the kernel refused the RGB request and the multi-plane layout
   * fails, the result is the RGB path's handle around `stale`.
   */
  lemma StaleHandleKept(answers: seq<bool>, from: int, err: int, hnd: Option<Handle>,
                        rgbHnd: Option<Handle>, yuvHnd: Option<Handle>, stale: int,
                        ionfd: int, w: int, h: int, format: int, usage: bv32,
                        rgbLayout: RgbLayoutFn, yuvLayout: YuvLayoutFn)
    requires rgbHnd.None? || OwnedFds(rgbHnd.value) == {stale}
    requires RgbReachesKernel(w, h, format, usage, rgbLayout) ==> rgbHnd.Some?
    requires YuvLayoutFor(yuvLayout, ionfd, w, h, format, usage, CacheFlags(usage)).err != 0 ==> err != 0
    requires err != 0 ==> yuvHnd.None?
    requires hnd == if yuvHnd.Some? then yuvHnd else rgbHnd
    ensures err != 0 ==> hnd.None? || OwnedFds(hnd.value) == {stale}
    ensures RgbRefused(answers, from, w, h, format, usage, rgbLayout) &&
            YuvLayoutFor(yuvLayout, ionfd, w, h, format, usage, CacheFlags(usage)).err != 0 ==>
              err != 0 && hnd.Some? && OwnedFds(hnd.value) == {stale}
  {
  }

  /**
   * The path selection of `gralloc_alloc`, as written: the RGB path, and
   * the multi-plane YUV path only when the RGB path fails. When both fail
   * after the RGB path built its handle around `stale`, that handle is
   * what is left for the error path to release.
   */
  method AllocPaths(k: Kernel, ionfd: int, w: int, h: int, format: int, usage: bv32,
                    rgbLayout: RgbLayoutFn, yuvLayout: YuvLayoutFn, stale: int)
    returns (err: int, hnd: Option<Handle>, stride: int)
    requires k.Valid()
    modifies k
    ensures k.Valid()
    ensures Extends(old(k.requests), k.requests)
    ensures RequestsFor(Since(old(k.requests), k.requests), ionfd, usage)
    ensures PathsOutcome(k.requests, k.answers, |old(k.requests)|, err, hnd, stride,
                         ionfd, w, h, format, usage, rgbLayout, yuvLayout)
    ensures err == 0 ==>
              hnd.Some? && stride == hnd.value.stride &&
              OwnedFds(hnd.value) !! old(k.fds).Keys &&
              k.fds == AddBuffers(old(k.fds), OwnedFds(hnd.value))
    ensures err != 0 ==> k.fds == old(k.fds) && (hnd.None? || OwnedFds(hnd.value) == {stale})
    // the stale handle survives when the kernel refuses the RGB buffer and the YUV layout fails
    ensures RgbRefused(k.answers, |old(k.requests)|, w, h, format, usage, rgbLayout) &&
            YuvLayoutFor(yuvLayout, ionfd, w, h, format, usage, CacheFlags(usage)).err != 0 ==>
              err != 0 && hnd.Some? && OwnedFds(hnd.value) == {stale}
  {
    var ionFlags := CacheFlags(usage);
    ghost var reqs0 := k.requests;
    err, hnd, stride := AllocRgb(k, ionfd, w, h, format, usage, ionFlags, rgbLayout, stale);
    ghost var reqs1 := k.requests;
    ghost var answers1 := k.answers;
    RgbRequestsFor(Since(reqs0, reqs1), ionfd, usage);
    if err == 0 {
      PathsOutcomeOfRgb(reqs0, reqs1, old(k.answers), answers1, err, hnd, stride,
                        ionfd, w, h, format, usage, rgbLayout, yuvLayout);
      return;
    }
    ghost var rgbHnd := hnd;
    var yuvHnd: Option<Handle>;
    err, yuvHnd, stride := AllocYuv(k, ionfd, w, h, format, usage, ionFlags, yuvLayout);
    YuvRequestsFor(Since(reqs1, k.requests), ionfd, usage);
    RequestsForJoin(reqs0, reqs1, k.requests, ionfd, usage);
    if yuvHnd.Some? {
      hnd := yuvHnd;
    }
    PathsOutcomeOfYuv(reqs0, reqs1, k.requests, old(k.answers), answers1, k.answers, err, hnd, stride,
                      ionfd, w, h, format, usage, rgbLayout, yuvLayout);
    StaleHandleKept(k.answers, |old(k.requests)|, err, hnd, rgbHnd, yuvHnd, stale,
                    ionfd, w, h, format, usage, rgbLayout, yuvLayout);
  }

  /**
   * `gralloc_alloc`, as written. `hasHandleOut` and `hasStrideOut` say
   * whether the output addresses are non-null; `handleOut` and `strideOut`
   * are what gets written through them. `stale` is what the RGB path's
   * never-written descriptor holds. `pathErr`, `pathHnd` and `pathStride`
   * are what the path selection returned, before registration.
   */
  method Alloc(m: PrivateModule, w: int, h: int, format: int, usage: bv32,
               hasHandleOut: bool, hasStrideOut: bool,
               rgbLayout: RgbLayoutFn, yuvLayout: YuvLayoutFn, register: Handle -> int, stale: int)
    returns (err: int, handleOut: Option<Handle>, strideOut: Option<int>,
             ghost pathErr: int, ghost pathHnd: Option<Handle>, ghost pathStride: int)
    requires m.kernel.Valid()
    modifies m.kernel
    ensures m.kernel.Valid()
    ensures !(hasHandleOut && hasStrideOut) ==>
              err == -EINVAL && m.kernel.fds == old(m.kernel.fds) &&
              m.kernel.requests == old(m.kernel.requests) && m.kernel.answers == old(m.kernel.answers)
    // RGB first, YUV only when RGB fails, read off the kernel's logs
    ensures hasHandleOut && hasStrideOut ==>
              PathsOutcome(m.kernel.requests, m.kernel.answers, |old(m.kernel.requests)|, pathErr, pathHnd, pathStride,
                           m.ionfd, w, h, format, usage, rgbLayout, yuvLayout)
    // the path's error, else the registration's, else 0 with the path's handle and stride written out
    ensures hasHandleOut && hasStrideOut && pathErr != 0 ==> err == pathErr
    ensures hasHandleOut && hasStrideOut && pathErr == 0 ==>
              pathHnd.Some? && err == register(pathHnd.value)
    ensures err == 0 <==> handleOut.Some?
    ensures handleOut.Some? <==> strideOut.Some?
    ensures err == 0 ==> handleOut == pathHnd && strideOut == Some(pathStride)
    ensures Extends(old(m.kernel.requests), m.kernel.requests)
    ensures RequestsFor(Since(old(m.kernel.requests), m.kernel.requests), m.ionfd, usage)
    ensures err == 0 ==>
              register(handleOut.value) == 0 && strideOut.value == handleOut.value.stride &&
              OwnedFds(handleOut.value) !! old(m.kernel.fds).Keys &&
              m.kernel.fds == AddBuffers(old(m.kernel.fds), OwnedFds(handleOut.value))
    // a failure opens nothing, but may close the stale descriptor ...
    ensures err != 0 ==> m.kernel.fds == old(m.kernel.fds) || m.kernel.fds == old(m.kernel.fds) - {stale}
    // ... which it does when the kernel refuses the RGB buffer and the YUV layout fails
    ensures hasHandleOut && hasStrideOut &&
            RgbRefused(m.kernel.answers, |old(m.kernel.requests)|, w, h, format, usage, rgbLayout) &&
            YuvLayoutFor(yuvLayout, m.ionfd, w, h, format, usage, CacheFlags(usage)).err != 0 ==>
              err != 0 && m.kernel.fds == old(m.kernel.fds) - {stale}
  {
    var k := m.kernel;
    handleOut, strideOut := None, None;
    pathErr, pathHnd, pathStride := -EINVAL, None, 0;
    if !hasHandleOut || !hasStrideOut {
      err := -EINVAL;
      return;
    }
    ghost var fds0 := k.fds;
    var hnd: Option<Handle>;
    var stride: int;
    err, hnd, stride := AllocPaths(k, m.ionfd, w, h, format, usage, rgbLayout, yuvLayout, stale);
    pathErr, pathHnd, pathStride := err, hnd, stride;
    if err == 0 {
      err := register(hnd.value);
      if err != 0 {
        ReleaseUndoesAdd(fds0, OwnedFds(hnd.value));
      }
    }
    if err != 0 {
      if hnd.Some? {
        ReleaseHandle(k, hnd.value);
      }
      return;
    }
    handleOut, strideOut := hnd, Some(stride);
  }

  /** The path selection of `gralloc_alloc` over the checked RGB path: a failure leaves no handle. */
  method AllocPathsChecked(k: Kernel, ionfd: int, w: int, h: int, format: int, usage: bv32,
                           rgbLayout: RgbLayoutFn, yuvLayout: YuvLayoutFn)
    returns (err: int, hnd: Option<Handle>, stride: int)
    requires k.Valid()
    modifies k
    ensures k.Valid()
    ensures Extends(old(k.requests), k.requests)
    ensures RequestsFor(Since(old(k.requests), k.requests), ionfd, usage)
    ensures PathsOutcome(k.requests, k.answers, |old(k.requests)|, err, hnd, stride,
                         ionfd, w, h, format, usage, rgbLayout, yuvLayout)
    ensures err == 0 ==>
              hnd.Some? && stride == hnd.value.stride &&
              OwnedFds(hnd.value) !! old(k.fds).Keys &&
              k.fds == AddBuffers(old(k.fds), OwnedFds(hnd.value))
    ensures err != 0 ==> hnd.None? && k.fds == old(k.fds)
  {
    var ionFlags := CacheFlags(usage);
    ghost var reqs0 := k.requests;
    err, hnd, stride := AllocRgbChecked(k, ionfd, w, h, format, usage, ionFlags, rgbLayout);
    ghost var reqs1 := k.requests;
    ghost var answers1 := k.answers;
    RgbRequestsFor(Since(reqs0, reqs1), ionfd, usage);
    if err == 0 {
      PathsOutcomeOfRgb(reqs0, reqs1, old(k.answers), answers1, err, hnd, stride,
                        ionfd, w, h, format, usage, rgbLayout, yuvLayout);
      return;
    }
    err, hnd, stride := AllocYuv(k, ionfd, w, h, format, usage, ionFlags, yuvLayout);
    YuvRequestsFor(Since(reqs1, k.requests), ionfd, usage);
    RequestsForJoin(reqs0, reqs1, k.requests, ionfd, usage);
    PathsOutcomeOfYuv(reqs0, reqs1, k.requests, old(k.answers), answers1, k.answers, err, hnd, stride,
                      ionfd, w, h, format, usage, rgbLayout, yuvLayout);
  }

  /**
   * `gralloc_alloc` over the checked RGB path: the same path selection and
   * results, but every failure leaves the descriptor table exactly as it
   * was, and the ION connection is never closed.
   */
  method AllocChecked(m: PrivateModule, w: int, h: int, format: int, usage: bv32,
                      hasHandleOut: bool, hasStrideOut: bool,
                      rgbLayout: RgbLayoutFn, yuvLayout: YuvLayoutFn, register: Handle -> int)
    returns (err: int, handleOut: Option<Handle>, strideOut: Option<int>,
             ghost pathErr: int, ghost pathHnd: Option<Handle>, ghost pathStride: int)
    requires m.kernel.Valid()
    modifies m.kernel
    ensures m.kernel.Valid()
    ensures !(hasHandleOut && hasStrideOut) ==>
              err == -EINVAL && m.kernel.fds == old(m.kernel.fds) &&
              m.kernel.requests == old(m.kernel.requests) && m.kernel.answers == old(m.kernel.answers)
    ensures hasHandleOut && hasStrideOut ==>
              PathsOutcome(m.kernel.requests, m.kernel.answers, |old(m.kernel.requests)|, pathErr, pathHnd, pathStride,
                           m.ionfd, w, h, format, usage, rgbLayout, yuvLayout)
    ensures hasHandleOut && hasStrideOut && pathErr != 0 ==> err == pathErr
    ensures hasHandleOut && hasStrideOut && pathErr == 0 ==>
              pathHnd.Some? && err == register(pathHnd.value)
    ensures err == 0 <==> handleOut.Some?
    ensures handleOut.Some? <==> strideOut.Some?
    ensures err == 0 ==> handleOut == pathHnd && strideOut == Some(pathStride)
    ensures Extends(old(m.kernel.requests), m.kernel.requests)
    ensures RequestsFor(Since(old(m.kernel.requests), m.kernel.requests), m.ionfd, usage)
    ensures err == 0 ==>
              register(handleOut.value) == 0 && strideOut.value == handleOut.value.stride &&
              OwnedFds(handleOut.value) !! old(m.kernel.fds).Keys &&
              m.kernel.fds == AddBuffers(old(m.kernel.fds), OwnedFds(handleOut.value))
    ensures err != 0 ==> m.kernel.fds == old(m.kernel.fds)
    ensures Connections(m.kernel.fds) == Connections(old(m.kernel.fds))
  {
    var k := m.kernel;
    handleOut, strideOut := None, None;
    pathErr, pathHnd, pathStride := -EINVAL, None, 0;
    if !hasHandleOut || !hasStrideOut {
      err := -EINVAL;
      return;
    }
    ghost var fds0 := k.fds;
    var hnd: Option<Handle>;
    var stride: int;
    err, hnd, stride := AllocPathsChecked(k, m.ionfd, w, h, format, usage, rgbLayout, yuvLayout);
    pathErr, pathHnd, pathStride := err, hnd, stride;
    if err == 0 {
      err := register(hnd.value);
      if err != 0 {
        ReleaseUndoesAdd(fds0, OwnedFds(hnd.value));
        ReleaseHandle(k, hnd.value);
        return;
      }
      assert Connections(k.fds) == Connections(fds0);
      handleOut, strideOut := hnd, Some(stride);
    }
  }

  /**
   * `gralloc_free`: a handle that does not validate is refused and nothing
   * is closed; otherwise its descriptors are closed and 0 returned.
   */
  method Free(m: PrivateModule, hnd: Handle, validate: Handle -> int) returns (err: int)
    requires m.kernel.Valid()
    modifies m.kernel
    ensures m.kernel.Valid()
    ensures m.kernel.requests == old(m.kernel.requests) && m.kernel.answers == old(m.kernel.answers)
    ensures validate(hnd) < 0 ==> err == -EINVAL && m.kernel.fds == old(m.kernel.fds)
    ensures validate(hnd) >= 0 ==> err == 0 && m.kernel.fds == old(m.kernel.fds) - OwnedFds(hnd)
  {
    if validate(hnd) < 0 {
      return -EINVAL;
    }
    ReleaseHandle(m.kernel, hnd);
    err := 0;
  }
}
