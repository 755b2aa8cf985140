/**
 The request-id allocator of a work queue: a stack of free indices over an array, released in any
 order, which is also the queue's flow control. `Wq` is the value of a queue's counters and arrays;
 the class below updates them in place and is proved against the functions on `Wq`.
 */
module WridPool {
  import opened Words

  /** The fields of efa_wq. Widths: posted and completed 32 bits, pc and next 16 bits. */
  datatype Wq = Wq(
    cnt: nat,            // wqe_cnt
    mask: nat,           // desc_mask
    wrid: seq<nat>,
    pool: seq<nat>,      // wrid_idx_pool
    posted: nat,
    completed: nat,
    pc: nat,
    next: nat,           // wrid_idx_pool_next
    phase: nat)

  /** The flow-control test of both post paths, on 32-bit counters. */
  predicate Full(w: Wq) { Wrap32(w.posted - w.completed) == w.cnt }

  function HeadIndex(w: Wq): nat
    requires w.next < |w.pool|
  {
    w.pool[w.next]
  }

  /** Takes the next free index and records the caller's work-request id under it. */
  function Reserve(w: Wq, wrId: nat): Wq
    requires w.next < |w.pool| && w.pool[w.next] < |w.wrid|
  {
    w.(wrid := w.wrid[w.pool[w.next] := wrId], next := Wrap16(w.next + 1))
  }

  /** Counts one posted request. */
  function CountPosted(w: Wq): Wq { w.(posted := Wrap32(w.posted + 1)) }

  /** Moves the producer counter over one descriptor; the phase changes when a lap ends. */
  function StepPc(w: Wq): Wq {
    var pc := Wrap16(w.pc + 1);
    w.(pc := pc, phase := if BitAnd(pc, w.mask) == 0 then w.phase + 1 else w.phase)
  }

  /** Releases an index: it becomes the next one to be handed out. */
  function Put(w: Wq, idx: nat): Wq
    requires 0 < w.next <= |w.pool|
  {
    var next := PutPosition(w);
    assert next < U16;
    w.(next := next, pool := if next < |w.pool| then w.pool[next := idx] else w.pool,
       completed := Wrap32(w.completed + 1))
  }

  /** Where a release writes its index; the position has 16 bits. */
  function PutPosition(w: Wq): nat { Wrap16(w.next - 1) }

  /** A release writes within the pool exactly if some index is out. */
  lemma PutInBounds(w: Wq)
    requires Sized(w)
    ensures PutPosition(w) < |w.pool| <==> 0 < w.next
  {
  }

  /** Takes back the last n requests, none of which had more than one descriptor. */
  function RollBack(w: Wq, n: nat, phaseRb: nat): Wq {
    w.(posted := Wrap32(w.posted - n), pc := Wrap16(w.pc - n), next := Wrap16(w.next - n),
       phase := phaseRb)
  }

  /** The move to RESET: four counters return to zero, the arrays and the phase stay. */
  function InitIndices(w: Wq): Wq {
    w.(posted := 0, completed := 0, pc := 0, next := 0)
  }

  /** What efa_setup_qp and efa_wq_initialize leave behind. */
  function Fresh(cnt: nat, mask: nat, wrid: seq<nat>): Wq {
    Wq(cnt, mask, wrid, seq(cnt, i => i), 0, 0, 0, 0, 0)
  }

  /** The array bounds. */
  predicate Sized(w: Wq) {
    && |w.wrid| == |w.pool| == w.cnt <= 0x8000
    && w.next <= w.cnt
    && (forall i :: 0 <= i < w.cnt ==> w.pool[i] < w.cnt)
  }

  /** The counters' widths, and the pool position as the difference of the 32-bit counters. */
  predicate Counts(w: Wq) {
    && w.posted < U32 && w.completed < U32 && w.pc < U16
    && w.next == Wrap32(w.posted - w.completed)
  }

  /** Kept by every operation, whatever the caller does. */
  predicate Shape(w: Wq) { Sized(w) && Counts(w) }

  /** No index occurs twice. */
  ghost predicate NoDuplicates(s: seq<nat>) {
    forall i, j :: 0 <= i < j < |s| ==> s[i] != s[j]
  }

  /** The free indices pool[next..] are distinct, and none of them is in flight. */
  ghost predicate FreeList(pool: seq<nat>, next: nat, inflight: set<nat>) {
    && next == |inflight| <= |pool|
    && (forall x :: x in inflight ==> x < |pool|)
    && (forall i :: next <= i < |pool| ==> pool[i] !in inflight)
    && (forall i, j :: next <= i < j < |pool| ==> pool[i] != pool[j])
  }

  /** The allocator's invariant; next counts the indices in flight. */
  ghost predicate PoolInv(w: Wq, inflight: set<nat>) {
    Shape(w) && FreeList(w.pool, w.next, inflight)
  }

  /** The indices 0..n-1. */
  ghost function Below(n: nat): (r: set<nat>)
    ensures |r| == n
    ensures forall x: nat :: x in r <==> x < n
  {
    if n == 0 then {} else Below(n - 1) + {n - 1}
  }

  ghost function Elems(s: seq<nat>): set<nat> { set x | x in s }

  lemma {:induction false} ElemsSize(s: seq<nat>)
    requires NoDuplicates(s)
    ensures |Elems(s)| == |s|
  {
    if s == [] {
      assert Elems(s) == {};
    } else {
      var t := s[..|s| - 1];
      ElemsSize(t);
      assert s == t + [s[|s| - 1]];
      assert s[|s| - 1] !in t;
      assert Elems(s) == Elems(t) + {s[|s| - 1]};
    }
  }

  lemma SubsetSize<T>(a: set<T>, b: set<T>)
    requires a <= b
    ensures |a| <= |b|
    ensures |a| == |b| ==> a == b
  {
    assert b == a + (b - a);
    if |a| == |b| { assert |b - a| == 0; assert b - a == {}; }
  }

  /** The free and the in-flight indices together are exactly 0..cnt-1, each once. */
  lemma PoolPartition(w: Wq, inflight: set<nat>)
    requires PoolInv(w, inflight)
    ensures Elems(w.pool[w.next..]) !! inflight
    ensures Elems(w.pool[w.next..]) + inflight == Below(w.cnt)
    ensures |Elems(w.pool[w.next..])| == w.cnt - w.next
  {
    var free := Elems(w.pool[w.next..]);
    ElemsSize(w.pool[w.next..]);
    assert free !! inflight by {
      forall x | x in free ensures x !in inflight {
        var i :| 0 <= i < |w.pool[w.next..]| && w.pool[w.next..][i] == x;
        assert w.pool[w.next + i] == x;
      }
    }
    assert |free + inflight| == |free| + |inflight|;
    SubsetSize(free + inflight, Below(w.cnt));
  }

  /** The flow-control test refuses a request exactly when no index is free. */
  lemma FullMeansNoneFree(w: Wq, inflight: set<nat>)
    requires PoolInv(w, inflight)
    ensures Full(w) <==> inflight == Below(w.cnt)
    ensures Full(w) <==> w.next == w.cnt
  {
    PoolPartition(w, inflight);
    SubsetSize(inflight, Below(w.cnt));
  }

  lemma FreshInv(cnt: nat, mask: nat, wrid: seq<nat>)
    requires |wrid| == cnt <= 0x8000
    ensures PoolInv(Fresh(cnt, mask, wrid), {})
  {
  }

  /** Counting one more posted request, or one more completed, moves the difference by one. */
  lemma CountersMove(w: Wq)
    requires Shape(w)
    ensures !Full(w) ==> w.next < w.cnt && Wrap32(Wrap32(w.posted + 1) - w.completed) == w.next + 1
    ensures 0 < w.next ==> Wrap32(w.posted - Wrap32(w.completed + 1)) == w.next - 1
    ensures Wrap16(w.next + 1) == w.next + 1
    ensures 0 < w.next ==> Wrap16(w.next - 1) == w.next - 1
  {
    hide Wrap16, Wrap32;
    Wrap32Add(w.posted + 1, 0 - w.completed);
    Wrap32Add(w.posted - w.completed, 1);
    Wrap32Sub(w.posted, w.completed + 1);
    Wrap32Add(w.posted - w.completed, 0 - 1);
  }

  /** Posting keeps the invariant; the new index was free, and only its wrid entry changes. */
  lemma ReserveKeeps(w: Wq, inflight: set<nat>, wrId: nat)
    requires PoolInv(w, inflight) && !Full(w)
    ensures w.next < w.cnt && HeadIndex(w) < w.cnt && HeadIndex(w) !in inflight
    ensures PoolInv(CountPosted(Reserve(w, wrId)), inflight + {HeadIndex(w)})
    ensures forall x :: x in inflight ==> Reserve(w, wrId).wrid[x] == w.wrid[x]
  {
    CountersMove(w);
  }

  /** Releasing any in-flight index, in any order, keeps the invariant and all other wrid entries. */
  lemma PutKeeps(w: Wq, inflight: set<nat>, idx: nat)
    requires PoolInv(w, inflight) && idx in inflight
    ensures 0 < w.next
    ensures PoolInv(Put(w, idx), inflight - {idx})
    ensures Put(w, idx).wrid == w.wrid
  {
    assert inflight == (inflight - {idx}) + {idx};
    CountersMove(w);
  }

  lemma RollBackCounters(w: Wq, n: nat, phaseRb: nat)
    requires Shape(w) && n <= w.next
    ensures Shape(RollBack(w, n, phaseRb))
    ensures RollBack(w, n, phaseRb).next == w.next - n
  {
    hide Wrap16, Wrap32;
    Wrap32Add(w.posted - n, 0 - w.completed);
    Wrap32Add(w.posted - w.completed, 0 - n);
  }

  /** The indices handed out while the pool position moved from lo to hi. */
  ghost function Taken(pool: seq<nat>, lo: nat, hi: nat): set<nat>
    requires lo <= hi <= |pool|
  {
    if lo == hi then {} else Taken(pool, lo, hi - 1) + {pool[hi - 1]}
  }

  lemma {:induction false} TakenMember(pool: seq<nat>, lo: nat, hi: nat, x: nat)
    requires lo <= hi <= |pool|
    ensures x in Taken(pool, lo, hi) <==> exists i :: lo <= i < hi && pool[i] == x
  {
    if lo < hi { TakenMember(pool, lo, hi - 1, x); }
  }

  /** Lowering the pool position frees the indices above it. */
  lemma {:induction false} LowerNext(pool: seq<nat>, lo: nat, hi: nat, inflight: set<nat>)
    requires FreeList(pool, hi, inflight) && lo <= hi
    requires forall i :: lo <= i < hi ==> pool[i] in inflight
    requires forall i, j :: lo <= i < j < hi ==> pool[i] != pool[j]
    ensures FreeList(pool, lo, inflight - Taken(pool, lo, hi))
  {
    if lo == hi {
      assert inflight - {} == inflight;
    } else {
      var x := pool[hi - 1];
      var rest := inflight - {x};
      assert |inflight| == |rest| + 1;
      assert FreeList(pool, hi - 1, rest);
      LowerNext(pool, lo, hi - 1, rest);
      assert inflight - Taken(pool, lo, hi) == rest - Taken(pool, lo, hi - 1);
    }
  }

  /** Rolling back the n most recent requests, when nothing was released since, frees exactly them. */
  lemma RollBackKeeps(w: Wq, inflight: set<nat>, n: nat, phaseRb: nat)
    requires PoolInv(w, inflight) && n <= w.next
    requires forall i :: w.next - n <= i < w.next ==> w.pool[i] in inflight
    requires forall i, j :: w.next - n <= i < j < w.next ==> w.pool[i] != w.pool[j]
    ensures PoolInv(RollBack(w, n, phaseRb), inflight - Taken(w.pool, w.next - n, w.next))
  {
    hide Wrap16, Wrap32, Counts;
    RollBackCounters(w, n, phaseRb);
    LowerNext(w.pool, w.next - n, w.next, inflight);
  }

  /** A work queue's counters and arrays, updated in place. */
  class WorkQueue {
    const wqeCnt: nat
    const descMask: nat
    const wrid: array<nat>
    const wridIdxPool: array<nat>
    var wqePosted: nat
    var wqeCompleted: nat
    var pc: nat
    var wridIdxPoolNext: nat
    var phase: nat

    function View(): Wq
      reads this, wrid, wridIdxPool
    {
      Wq(wqeCnt, descMask, wrid[..], wridIdxPool[..], wqePosted, wqeCompleted, pc, wridIdxPoolNext, phase)
    }

    ghost predicate Valid()
      reads this, wrid, wridIdxPool
    {
      wrid != wridIdxPool && Shape(View())
    }

    /** Allocates the arrays and fills the pool with every index. */
    constructor (cnt: nat, mask: nat)
      requires cnt <= 0x8000
      ensures Valid() && fresh(wrid) && fresh(wridIdxPool) && |View().wrid| == cnt
      ensures View() == Fresh(cnt, mask, View().wrid)
      ensures PoolInv(View(), {})
    {
      wqeCnt, descMask := cnt, mask;
      wqePosted, wqeCompleted, pc, wridIdxPoolNext, phase := 0, 0, 0, 0, 0;
      wrid := new nat[cnt](_ => 0);
      wridIdxPool := new nat[cnt](_ => 0);
      new;
      for i := 0 to cnt
        invariant forall k :: 0 <= k < i ==> wridIdxPool[k] == k
        invariant wqePosted == wqeCompleted == pc == wridIdxPoolNext == phase == 0
      {
        wridIdxPool[i] := i;
      }
      assert wridIdxPool[..] == seq(cnt, i => i);
      FreshInv(cnt, mask, wrid[..]);
    }

    /** Hands out the next free index and records the work-request id under it. */
    method GetNextWridIdx(wrId: nat) returns (wridIdx: nat)
      requires Valid() && wridIdxPoolNext < wqeCnt
      modifies this`wridIdxPoolNext, wrid
      ensures wridIdx == HeadIndex(old(View())) && View() == Reserve(old(View()), wrId)
      ensures Sized(View())
    {
      wridIdx := wridIdxPool[wridIdxPoolNext];
      wrid[wridIdx] := wrId;
      wridIdxPoolNext := Wrap16(wridIdxPoolNext + 1);
    }

    /** Gives an index back and counts its request as completed. */
    method PutWridIdx(wridIdx: nat)
      requires Valid() && 0 < wridIdxPoolNext && wridIdx < wqeCnt
      modifies this`wridIdxPoolNext, this`wqeCompleted, wridIdxPool
      ensures View() == Put(old(View()), wridIdx) && Valid()
      ensures forall inflight {:trigger PoolInv(old(View()), inflight)} ::
                PoolInv(old(View()), inflight) && wridIdx in inflight ==> PoolInv(View(), inflight - {wridIdx})
    {
      ghost var w := View();
      CountersMove(w);
      wridIdxPoolNext := Wrap16(wridIdxPoolNext - 1);
      wridIdxPool[wridIdxPoolNext] := wridIdx;
      wqeCompleted := Wrap32(wqeCompleted + 1);
      forall inflight | PoolInv(w, inflight) && wridIdx in inflight
        ensures PoolInv(Put(w, wridIdx), inflight - {wridIdx})
      {
        PutKeeps(w, inflight, wridIdx);
      }
    }

    method CountPostedRequest()
      modifies this`wqePosted
      ensures View() == CountPosted(old(View()))
    {
      wqePosted := Wrap32(wqePosted + 1);
    }

    method StepProducer()
      modifies this`pc, this`phase
      ensures View() == StepPc(old(View()))
    {
      pc := Wrap16(pc + 1);
      if BitAnd(pc, descMask) == 0 {
        phase := phase + 1;
      }
    }

    method RollBackRequests(n: nat, phaseRb: nat)
      modifies this`wqePosted, this`pc, this`wridIdxPoolNext, this`phase
      ensures View() == RollBack(old(View()), n, phaseRb)
    {
      wqePosted := Wrap32(wqePosted - n);
      pc := Wrap16(pc - n);
      wridIdxPoolNext := Wrap16(wridIdxPoolNext - n);
      phase := phaseRb;
    }

    method ResetIndices()
      modifies this`wqePosted, this`wqeCompleted, this`pc, this`wridIdxPoolNext
      ensures View() == InitIndices(old(View()))
    {
      wqePosted, wqeCompleted, pc, wridIdxPoolNext := 0, 0, 0, 0;
    }
  }
}
