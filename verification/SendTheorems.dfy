/** What the two ways of posting sends do to the ring, the doorbells and the index pool. */
module SendTheorems {
  import opened Words
  import opened WridPool
  import opened DeviceRing
  import opened SendRing

  /** A queue's counters and arrays after it took these requests. */
  function TakeAll(w: Wq, ids: seq<nat>): (r: Wq)
    requires Shape(w) && |ids| <= w.cnt - w.next
    ensures Shape(r) && r.next == w.next + |ids| && r.cnt == w.cnt && r.pool == w.pool && r.mask == w.mask
    ensures r.completed == w.completed
    decreases |ids|
  {
    if ids == [] then w else TakeAll(Take(w, ids[0]), ids[1..])
  }

  function Ids(wrs: seq<SendWr>): seq<nat> { seq(|wrs|, i requires 0 <= i < |wrs| => wrs[i].wrId) }

  /** The descriptors of a list of requests, posted one after the other. */
  function Descs(w: Wq, wrs: seq<SendWr>): (r: seq<TxWqe>)
    requires Shape(w) && |wrs| <= w.cnt - w.next
    ensures |r| == |wrs|
    decreases |wrs|
  {
    if wrs == [] then []
    else [Build(wrs[0], w.phase, HeadIndex(w))] + Descs(Take(w, wrs[0].wrId), wrs[1..])
  }

  lemma NotFull(w: Wq)
    requires Shape(w) && w.next < w.cnt
    ensures !Full(w)
  {
  }

  lemma TakeFields(w: Wq, wrId: nat)
    requires Shape(w) && !Full(w)
    ensures w.next < w.cnt && w.posted < 0x1_0000_0000 && w.pc < 0x1_0000
    ensures var r := Take(w, wrId);
            && r.posted == Wrap32(w.posted + 1) && r.pc == Wrap16(w.pc + 1) && r.pool == w.pool
            && r.wrid == w.wrid[HeadIndex(w) := wrId] && r.cnt == w.cnt && r.mask == w.mask
            && r.completed == w.completed
  {
    hide Wrap16, Wrap32, BitAnd;
    CountersMove(w);
  }

  /** The counters after n requests, in closed form, across every wraparound. */
  lemma {:induction false} TakeAllCounters(w: Wq, ids: seq<nat>)
    requires Shape(w) && |ids| <= w.cnt - w.next
    ensures TakeAll(w, ids).posted == Wrap32(w.posted + |ids|)
    ensures TakeAll(w, ids).pc == Wrap16(w.pc + |ids|)
    decreases |ids|
  {
    hide Wrap16, Wrap32, Take, Sized, Full;
    if ids != [] {
      NotFull(w);
      TakeFields(w, ids[0]);
      TakeAllCounters(Take(w, ids[0]), ids[1..]);
      Wrap32Add(w.posted + 1, |ids| - 1);
      Wrap16Add(w.pc + 1, |ids| - 1);
    }
  }

  /** Taking requests touches only the records of the indices it takes, which are free before. */
  lemma {:induction false} TakeAllRecords(w: Wq, ids: seq<nat>)
    requires Shape(w) && |ids| <= w.cnt - w.next
    requires forall i, j :: w.next <= i < j < w.cnt ==> w.pool[i] != w.pool[j]
    ensures forall k :: 0 <= k < |ids| ==> TakeAll(w, ids).wrid[w.pool[w.next + k]] == ids[k]
    ensures forall x :: 0 <= x < w.cnt && (forall k :: w.next <= k < w.next + |ids| ==> w.pool[k] != x) ==>
              TakeAll(w, ids).wrid[x] == w.wrid[x]
    decreases |ids|
  {
    if ids != [] {
      var w1, r := Take(w, ids[0]), TakeAll(w, ids);
      assert w1.pool == w.pool && w1.wrid == w.wrid[w.pool[w.next] := ids[0]] && w1.next == w.next + 1;
      TakeAllRecords(w1, ids[1..]);
      assert r == TakeAll(w1, ids[1..]);
      hide Take, TakeAll, Counts, Wrap16, Wrap32;
      forall k | 0 <= k < |ids| ensures r.wrid[w.pool[w.next + k]] == ids[k] {
        if k > 0 { assert ids[k] == ids[1..][k - 1] && w.pool[w.next + k] == w1.pool[w1.next + (k - 1)]; }
      }
    }
  }

  lemma WidthsFit(w: Wq)
    requires Shape(w)
    ensures w.posted < 0x1_0000_0000 && w.pc < 0x1_0000 && w.next <= w.cnt == |w.pool| <= 0x8000
  {
  }

  /** Rolling back undoes taking, but for the records of indices that are free again. */
  lemma RollBackUndoes(w: Wq, ids: seq<nat>, r: Wq)
    requires Shape(w) && |ids| <= w.cnt - w.next && r == TakeAll(w, ids)
    ensures RollBack(r, |ids|, w.phase) == w.(wrid := r.wrid)
  {
    hide TakeAll, RollBack, Wrap16, Wrap32, Shape;
    WidthsFit(w);
    TakeAllCounters(w, ids);
    UnwrapBack(w.posted, w.pc, w.next, |ids|);
    RollBackFields(w, r, |ids|);
  }

  lemma UnwrapBack(posted: nat, pc: nat, next: nat, n: nat)
    requires posted < 0x1_0000_0000 && pc < 0x1_0000 && next < 0x1_0000
    ensures Wrap32(Wrap32(posted + n) - n) == posted
    ensures Wrap16(Wrap16(pc + n) - n) == pc
    ensures Wrap16(next + n - n) == next
  {
    hide Wrap16, Wrap32;
    Wrap32Add(posted + n, 0 - n);
    Wrap16Add(pc + n, 0 - n);
  }

  lemma RollBackFields(w: Wq, r: Wq, n: nat)
    requires Wrap32(r.posted - n) == w.posted && Wrap16(r.pc - n) == w.pc && Wrap16(r.next - n) == w.next
    requires r.cnt == w.cnt && r.mask == w.mask && r.pool == w.pool && r.completed == w.completed
    ensures RollBack(r, n, w.phase) == w.(wrid := r.wrid)
  {
    hide Wrap16, Wrap32;
  }

  // ---- the list form -----------------------------------------------------------------------------

  lemma PostOneStep(sq: Sq, wr: SendWr)
    requires SqOk(sq) && !Full(sq.wq)
    ensures sq.wq.next < sq.wq.cnt && Take(sq.wq, wr.wrId).pc == Wrap16(sq.wq.pc + 1)
    ensures PostOne(sq, wr)
         == sq.(wq := Take(sq.wq, wr.wrId),
                ring := sq.ring[SlotOf(sq.wq.pc, |sq.ring|) := Build(wr, sq.wq.phase, HeadIndex(sq.wq))])
  {
    Slot(sq.wq.pc, |sq.ring|);
    hide Build, SlotOf, BitAnd, Wrap32;
  }

  /** The queue after posting these requests, with cur descriptors unannounced before. */
  ghost predicate Posts(sq: Sq, done: seq<SendWr>, cur: nat, batch: nat, out: Sq)
    requires SqOk(sq)
  {
    && |done| <= sq.wq.cnt - sq.wq.next
    && out.wq == TakeAll(sq.wq, Ids(done))
    && out.ring == WriteAll(sq.ring, sq.wq.pc, Descs(sq.wq, done))
    && out.bells == sq.bells + Doorbells(sq.wq.pc, |done|, cur, batch)
    && out == sq.(wq := out.wq, ring := out.ring, bells := out.bells)
  }

  lemma PostsNone(sq: Sq, cur: nat, batch: nat)
    requires SqOk(sq)
    ensures Posts(sq, [], cur, batch, if cur > 0 then RingBell(sq) else sq)
  {
    assert Ids([]) == [];
    assert Doorbells(sq.wq.pc, 0, cur, batch) == if cur > 0 then [sq.wq.pc] else [];
    assert sq.bells + [] == sq.bells;
    hide SqOk, Shape;
  }

  lemma PostsTake(w: Wq, wr: SendWr, rest: seq<SendWr>)
    requires Shape(w) && !Full(w) && |rest| <= w.cnt - w.next - 1
    ensures w.next < w.cnt
    ensures Descs(w, [wr] + rest) == [Build(wr, w.phase, HeadIndex(w))] + Descs(Take(w, wr.wrId), rest)
    ensures TakeAll(w, Ids([wr] + rest)) == TakeAll(Take(w, wr.wrId), Ids(rest))
  {
    hide Build, Take, Wrap16, Wrap32, Shape, Full;
    TakeFields(w, wr.wrId);
    var all := [wr] + rest;
    assert all[1..] == rest && all[0] == wr;
    assert Ids(all)[1..] == Ids(rest) && Ids(all)[0] == wr.wrId;
  }

  lemma PostsWrite(ring: seq<TxWqe>, pc: nat, d: TxWqe, ds: seq<TxWqe>)
    requires RingSize(|ring|) && |ring| > 0
    ensures WriteAll(ring[SlotOf(pc, |ring|) := d], Wrap16(pc + 1), ds) == WriteAll(ring, pc, [d] + ds)
  {
    Wrap16Add(pc + 1, 0);
    hide SlotOf, Wrap16;
    var ring' := ring[SlotOf(pc, |ring|) := d];
    WriteAllWraps(ring', Wrap16(pc + 1), pc + 1, ds);
    assert ([d] + ds)[1..] == ds;
  }

  lemma PostsRing(sq: Sq, wr: SendWr, rest: seq<SendWr>, w1: Wq, ring1: seq<TxWqe>)
    requires Shape(sq.wq) && !Full(sq.wq) && |rest| <= sq.wq.cnt - sq.wq.next - 1
    requires RingSize(|sq.ring|) && |sq.ring| > 0 && w1 == Take(sq.wq, wr.wrId) && w1.pc == Wrap16(sq.wq.pc + 1)
    requires sq.wq.next < |sq.wq.pool|
    requires ring1 == sq.ring[SlotOf(sq.wq.pc, |sq.ring|) := Build(wr, sq.wq.phase, HeadIndex(sq.wq))]
    ensures WriteAll(ring1, w1.pc, Descs(w1, rest)) == WriteAll(sq.ring, sq.wq.pc, Descs(sq.wq, [wr] + rest))
  {
    PostsTake(sq.wq, wr, rest);
    hide Build, Take, Descs, TakeAll, SlotOf, Wrap16, Wrap32, Full, WriteAll, Shape;
    PostsWrite(sq.ring, sq.wq.pc, Build(wr, sq.wq.phase, HeadIndex(sq.wq)), Descs(w1, rest));
  }

  lemma PostsOneMore(sq: Sq, wr: SendWr, rest: seq<SendWr>, cur: nat, batch: nat, out: Sq)
    requires SqOk(sq) && !Full(sq.wq)
    requires var sq1 := PostOne(sq, wr);
             if cur + 1 == batch then Posts(RingBell(sq1), rest, 0, batch, out)
             else Posts(sq1, rest, cur + 1, batch, out)
    ensures Posts(sq, [wr] + rest, cur, batch, out)
  {
    hide PostOne, RingSize, Counts, WriteAll, TakeAll, Descs, Build, Take, PutInRing, Wrap16, Wrap32, Ids;
    PostOneStep(sq, wr);
    var sq1 := PostOne(sq, wr);
    PostsRing(sq, wr, rest, sq1.wq, sq1.ring);
    PostsTake(sq.wq, wr, rest);
  }

  /** The requests a list post accepts are posted, and nothing else happens. */
  lemma {:induction false} PostListPostsPrefix(sq: Sq, cfg: Config, wrs: seq<SendWr>, i: nat, cur: nat)
    requires SqOk(sq) && i <= |wrs|
    ensures var r := PostList(sq, cfg, wrs, i, cur);
            && Posts(sq, wrs[i..r.bad], cur, cfg.maxBatch, r.sq)
            && (ListRoom(cfg) ==> forall k :: i <= k < r.bad ==> PayloadFits(wrs[k]))
    decreases |wrs| - i
  {
    hide PostOne, RingBell, Posts, SqOk, ValidateFlags, ValidateBody, Full, PayloadFits, ListRoom;
    AcceptedRequestsFit(cfg);
    var r := PostList(sq, cfg, wrs, i, cur);
    if i < |wrs| && ValidateWr(sq.wq, cfg, wrs[i]) == OK {
      var sq1 := PostOne(sq, wrs[i]);
      if cur + 1 == cfg.maxBatch {
        PostListPostsPrefix(RingBell(sq1), cfg, wrs, i + 1, 0);
      } else {
        PostListPostsPrefix(sq1, cfg, wrs, i + 1, cur + 1);
      }
      assert wrs[i..r.bad] == [wrs[i]] + wrs[i + 1..r.bad];
      PostsOneMore(sq, wrs[i], wrs[i + 1..r.bad], cur, cfg.maxBatch, r.sq);
    } else {
      assert wrs[i..i] == [];
      PostsNone(sq, cur, cfg.maxBatch);
    }
  }

  /** A list post stops at the first request that does not validate, and reports it. */
  lemma {:induction false} PostListStops(sq: Sq, cfg: Config, wrs: seq<SendWr>, i: nat, cur: nat)
    requires SqOk(sq) && i <= |wrs|
    ensures var r := PostList(sq, cfg, wrs, i, cur);
            && (r.err == OK <==> r.bad == |wrs|)
            && (r.bad < |wrs| ==> ValidateWr(r.sq.wq, cfg, wrs[r.bad]) == r.err)
            && (forall k :: i <= k < r.bad ==>
                  ValidateFlags(cfg, wrs[k].flags) == OK && ValidateBody(cfg, wrs[k]) == OK)
    decreases |wrs| - i
  {
    hide PostOne, RingBell, SqOk, ValidateFlags, ValidateBody, Full;
    if i < |wrs| && ValidateWr(sq.wq, cfg, wrs[i]) == OK {
      var sq1 := PostOne(sq, wrs[i]);
      if cur + 1 == cfg.maxBatch {
        PostListStops(RingBell(sq1), cfg, wrs, i + 1, 0);
      } else {
        PostListStops(sq1, cfg, wrs, i + 1, cur + 1);
      }
    }
  }

  // ---- sessions ----------------------------------------------------------------------------------

  lemma {:induction false} TakeAllSnoc(w: Wq, ids: seq<nat>, x: nat)
    requires Shape(w) && |ids| < w.cnt - w.next
    ensures !Full(TakeAll(w, ids)) && TakeAll(w, ids + [x]) == Take(TakeAll(w, ids), x)
    decreases |ids|
  {
    hide Take, Full, Sized;
    NotFull(TakeAll(w, ids));
    if ids == [] {
      assert ids + [x] == [x];
      assert TakeAll(Take(w, x), []) == Take(w, x);
    } else {
      NotFull(w);
      TakeAllSnoc(Take(w, ids[0]), ids[1..], x);
      assert (ids + [x])[1..] == ids[1..] + [x];
    }
  }

  /** The requests a session call adds: one, if it is a builder that succeeds. */
  function Accepted(sq: Sq, cfg: Config, op: Op): seq<nat> {
    if !IsBuilder(op) || sq.err != OK || Validate(sq.wq, cfg, op.flags) != OK then [] else [op.wrId]
  }

  /** The work-request ids of all the send calls of a session. */
  function BuilderIds(ops: seq<Op>): seq<nat> {
    if ops == [] then [] else (if IsBuilder(ops[0]) then [ops[0].wrId] else []) + BuilderIds(ops[1..])
  }

  /** The error of the first call that fails, each call judged in the state it is made in. */
  function FirstError(sq: Sq, cfg: Config, ops: seq<Op>): Errno
    requires SessionSq(sq) && Scripted(sq, ops) && sq.err == OK
    decreases |ops|
  {
    if ops == [] then OK
    else
      var err := CallError(sq, cfg, ops[0]);
      if err != OK then err else CallSucceeds(sq, cfg, ops[0]); FirstError(Do(sq, cfg, ops[0]), cfg, ops[1..])
  }

  /** A call fails exactly with its own error, or with the one the session already has. */
  lemma CallSucceeds(sq: Sq, cfg: Config, op: Op)
    requires SessionSq(sq) && (IsBuilder(op) || Ready(sq))
    ensures sq.err == OK ==> Do(sq, cfg, op).err == CallError(sq, cfg, op)
    ensures sq.err != OK ==> Do(sq, cfg, op) == sq
  {
    hide SqOk, ValidateFlags, Full, SetMetaAndOp, SetCtrl2, SetHasImm, PhaseBit, AsRdma, Wrap16, Wrap32, Take;
  }

  lemma {:induction false} ErrorSticks(sq: Sq, cfg: Config, ops: seq<Op>)
    requires SessionSq(sq) && Scripted(sq, ops) && sq.err != OK
    ensures RunOps(sq, cfg, ops) == sq
    decreases |ops|
  {
    hide SqOk, Do;
    if ops != [] {
      CallSucceeds(sq, cfg, ops[0]);
      ErrorSticks(sq, cfg, ops[1..]);
    }
  }

  /** A session's error is its first call's to fail; without one, no send call was left out. */
  lemma {:induction false} SessionErrorIsFirst(sq: Sq, cfg: Config, ops: seq<Op>)
    requires SessionSq(sq) && Scripted(sq, ops) && sq.err == OK
    ensures RunOps(sq, cfg, ops).err == FirstError(sq, cfg, ops)
    ensures RunOps(sq, cfg, ops).err == OK ==> SessionIds(sq, cfg, ops) == BuilderIds(ops)
    decreases |ops|
  {
    hide SqOk, Do, Validate, SetterError;
    if ops != [] {
      CallSucceeds(sq, cfg, ops[0]);
      var r := Do(sq, cfg, ops[0]);
      if r.err == OK { SessionErrorIsFirst(r, cfg, ops[1..]); } else { ErrorSticks(r, cfg, ops[1..]); }
    }
  }

  function SessionIds(sq: Sq, cfg: Config, ops: seq<Op>): seq<nat>
    requires SessionSq(sq) && Scripted(sq, ops)
    decreases |ops|
  {
    if ops == [] then [] else Accepted(sq, cfg, ops[0]) + SessionIds(Do(sq, cfg, ops[0]), cfg, ops[1..])
  }

  /** A session in progress: it has taken these requests' indices, and published nothing. */
  ghost predicate Staged(sq0: Sq, ids: seq<nat>, sq: Sq)
    requires SqOk(sq0)
  {
    && SessionSq(sq) && |ids| <= sq0.wq.cnt - sq0.wq.next
    && sq.wq == TakeAll(sq0.wq, ids) && sq.pending == |ids|
    && sq.ring == sq0.ring && sq.bells == sq0.bells && sq.phaseRb == sq0.wq.phase
    && (forall k :: 0 <= k < |ids| ==> sq.local[k].reqId == Wrap16(sq0.wq.pool[sq0.wq.next + k]))
  }

  /** Setters change the current descriptor at most, and never its request id or phase. */
  lemma SetterKeeps(sq: Sq, cfg: Config, op: Op)
    requires SessionSq(sq) && !IsBuilder(op) && Ready(sq)
    ensures var r := Do(sq, cfg, op);
            && r == sq.(local := r.local, err := r.err)
            && (forall k :: 0 <= k < |sq.local| ==>
                  r.local[k].reqId == sq.local[k].reqId && r.local[k].ctrl2 == sq.local[k].ctrl2)
  {
    hide SqOk, OpType, AsRdma, ToTxBuf, ToTxBufs, SetInlineMsg, Wrap16, Wrap32, TotalBytes, Gather;
  }

  /** Builders append one descriptor with the next free index and the current phase, or record an error. */
  lemma BuilderKeeps(sq: Sq, cfg: Config, op: Op)
    requires SessionSq(sq) && IsBuilder(op)
    ensures var r := Do(sq, cfg, op);
            if Accepted(sq, cfg, op) == [] then r == sq.(err := r.err) && r.err != OK
            else
              && !Full(sq.wq) && sq.wq.next < sq.wq.cnt && sq.pending < |sq.local| && sq.err == OK
              && r == sq.(local := r.local, wq := Take(sq.wq, op.wrId), pending := sq.pending + 1)
              && r.local == sq.local[sq.pending := r.local[sq.pending]]
              && r.local[sq.pending].reqId == Wrap16(HeadIndex(sq.wq))
              && r.local[sq.pending].ctrl2 == SetCtrl2(0, PhaseBit(sq.wq.phase))
  {
    CountersMove(sq.wq);
    hide Take, SetMetaAndOp, SetCtrl2, SetHasImm, PhaseBit, AsRdma, Wrap16, Wrap32, ValidateFlags;
  }

  lemma DoKeepsStaged(sq0: Sq, ids: seq<nat>, sq: Sq, cfg: Config, op: Op)
    requires SqOk(sq0) && Staged(sq0, ids, sq) && (IsBuilder(op) || Ready(sq))
    ensures Staged(sq0, ids + Accepted(sq, cfg, op), Do(sq, cfg, op))
  {
    hide Do, RingSize, Shape, TakeAll, Take, Full, Wrap16, Validate;
    if IsBuilder(op) {
      BuilderKeeps(sq, cfg, op);
    } else {
      SetterKeeps(sq, cfg, op);
    }
    if Accepted(sq, cfg, op) == [] {
      assert ids + [] == ids;
    } else {
      TakeAllSnoc(sq0.wq, ids, op.wrId);
    }
  }

  lemma {:induction false} RunKeepsStaged(sq0: Sq, ids: seq<nat>, sq: Sq, cfg: Config, ops: seq<Op>)
    requires SqOk(sq0) && SessionSq(sq) && Staged(sq0, ids, sq) && Scripted(sq, ops)
    ensures Staged(sq0, ids + SessionIds(sq, cfg, ops), RunOps(sq, cfg, ops))
    decreases |ops|
  {
    hide Do, Staged, Accepted, SessionSq;
    if ops == [] {
      assert ids + [] == ids;
    } else {
      DoKeepsStaged(sq0, ids, sq, cfg, ops[0]);
      RunKeepsStaged(sq0, ids + Accepted(sq, cfg, ops[0]), Do(sq, cfg, ops[0]), cfg, ops[1..]);
      var a, b := Accepted(sq, cfg, ops[0]), SessionIds(Do(sq, cfg, ops[0]), cfg, ops[1..]);
      assert ids + (a + b) == (ids + a) + b;
    }
  }

  lemma SessionStages(sq: Sq, cfg: Config, ops: seq<Op>)
    requires SqOk(sq) && Scripted(Start(sq), ops)
    ensures SessionSq(Start(sq))
    ensures Staged(sq, SessionIds(Start(sq), cfg, ops), RunOps(Start(sq), cfg, ops))
  {
    hide RunOps, SessionIds, Counts, RingSize;
    assert TakeAll(sq.wq, []) == sq.wq;
    RunKeepsStaged(sq, [], Start(sq), cfg, ops);
    assert [] + SessionIds(Start(sq), cfg, ops) == SessionIds(Start(sq), cfg, ops);
  }

  /** How a session in progress can end. */
  lemma SessionEnds(sq: Sq, ids: seq<nat>, mid: Sq, cfg: Config)
    requires SqOk(sq) && Staged(sq, ids, mid)
    ensures |ids| == mid.pending <= sq.wq.cnt - sq.wq.next && mid.pending <= |mid.local|
    ensures mid.wq == TakeAll(sq.wq, ids) && mid.ring == sq.ring && mid.bells == sq.bells
    ensures forall k :: 0 <= k < |ids| ==> mid.local[k].reqId == Wrap16(sq.wq.pool[sq.wq.next + k])
    ensures Abort(mid).wq == sq.wq.(wrid := TakeAll(sq.wq, ids).wrid)
    ensures Abort(mid).ring == sq.ring && Abort(mid).bells == sq.bells
    ensures mid.err != OK ==> Complete(mid, cfg) == Abort(mid)
    ensures mid.err == OK ==>
              && Complete(mid, cfg).wq == mid.wq
              && Complete(mid, cfg).ring == WriteAll(sq.ring, sq.wq.pc, mid.local[..|ids|])
              && Complete(mid, cfg).bells == sq.bells + Doorbells(sq.wq.pc, |ids|, 0, cfg.maxBatch)
  {
    hide Wrap16, Wrap32, TakeAll, WriteAll, Doorbells, RollBack, Shape, RingSize;
    WidthsFit(sq.wq);
    RollBackUndoes(sq.wq, ids, mid.wq);
    TakeAllCounters(sq.wq, ids);
    Wrap16Add(sq.wq.pc + |ids|, 0 - |ids|);
  }

  /**
   Session atomicity. After any sequence of send and setter calls, completing either publishes the request
   of every send call in order, each under the index it was given and with the batched doorbells, or, with
   the error of the first call that failed, leaves ring and doorbells alone and puts every counter,
   the phase and the whole free-index pool back;
   the only trace is in records of indices that are free. Aborting always does the latter.
   */
  lemma SessionIsAtomic(sq: Sq, cfg: Config, ops: seq<Op>)
    requires SqOk(sq) && Scripted(Start(sq), ops)
    ensures SessionSq(Start(sq))
    ensures var ids := SessionIds(Start(sq), cfg, ops); var mid := RunOps(Start(sq), cfg, ops);
            && |ids| == mid.pending <= sq.wq.cnt - sq.wq.next && mid.pending <= |mid.local|
            && mid.wq == TakeAll(sq.wq, ids)
            && mid.ring == sq.ring && mid.bells == sq.bells
            && (forall k :: 0 <= k < |ids| ==> mid.local[k].reqId == Wrap16(sq.wq.pool[sq.wq.next + k]))
            && Abort(mid).wq == sq.wq.(wrid := TakeAll(sq.wq, ids).wrid)
            && Abort(mid).ring == sq.ring && Abort(mid).bells == sq.bells
            && mid.err == FirstError(Start(sq), cfg, ops)
            && (mid.err != OK ==> Complete(mid, cfg) == Abort(mid))
            && (mid.err == OK ==>
                  && ids == BuilderIds(ops)
                  && Complete(mid, cfg).wq == mid.wq
                  && Complete(mid, cfg).ring == WriteAll(sq.ring, sq.wq.pc, mid.local[..|ids|])
                  && Complete(mid, cfg).bells == sq.bells + Doorbells(sq.wq.pc, |ids|, 0, cfg.maxBatch))
  {
    hide RunOps, SessionIds, Staged, Complete, Abort, SqOk;
    SessionStages(sq, cfg, ops);
    SessionErrorIsFirst(Start(sq), cfg, ops);
    SessionEnds(sq, SessionIds(Start(sq), cfg, ops), RunOps(Start(sq), cfg, ops), cfg);
  }

  /** With a sound pool, a rolled-back session changed no record of a request in flight. */
  lemma AbortedSessionSparesInFlight(w: Wq, inflight: set<nat>, ids: seq<nat>)
    requires PoolInv(w, inflight) && |ids| <= w.cnt - w.next
    ensures PoolInv(w.(wrid := TakeAll(w, ids).wrid), inflight)
    ensures forall x :: x in inflight ==> TakeAll(w, ids).wrid[x] == w.wrid[x]
  {
    hide TakeAll, Wrap16, Wrap32;
    TakeAllRecords(w, ids);
  }

  // ---- the two forms agree -----------------------------------------------------------------------

  /** The session calls that post one request of a list. */
  function Script(wr: SendWr): seq<Op> {
    [if wr.opcode == SendWithImm then WrSendImm(wr.flags, wr.wrId, wr.imm) else WrSend(wr.flags, wr.wrId),
     if wr.flags & SEND_INLINE != 0 then SetInlineList(wr.sgl) else SetSgeList(wr.sgl),
     SetAddr(wr.ah, wr.remoteQpn, wr.remoteQkey)]
  }

  function ScriptAll(wrs: seq<SendWr>): seq<Op> {
    if wrs == [] then [] else Script(wrs[0]) + ScriptAll(wrs[1..])
  }

  /** Built in the session's order, a request's descriptor is the one the list form builds. */
  lemma SameDescriptor(wr: SendWr, phase: nat, idx: nat)
    requires wr.opcode != OtherOpcode
    ensures var d := CommonFlags(ZERO, phase, OP_SEND).(reqId := Wrap16(idx));
            var d := if wr.opcode == SendWithImm then SetImm(d, wr.imm) else d;
            && OpType(d) == OP_SEND
            && Build(wr, phase, idx)
            == SetAddress(if wr.flags & SEND_INLINE != 0 then WithInline(d, Gather(wr.sgl))
                          else d.(data := Sgl(Held(ToTxBufs(wr.sgl), NUM_BUFS)), length := Wrap16(|wr.sgl|)),
                          wr.ah, wr.remoteQpn, wr.remoteQkey)
  {
    FlagsCommute(0, OP_SEND);
    FlagsCommute(SetInlineMsg(0), OP_SEND);
    FlagsCommute(SetMetaAndOp(0, OP_SEND), OP_SEND);
    FlagsDecode(0, 0, 0, OP_SEND);
    FlagsDecode(SetHasImm(0), 0, 0, OP_SEND);
    hide SetMetaAndOp, SetHasImm, SetInlineMsg, SetCtrl2, Wrap16, ToTxBufs, Gather, PhaseBit;
  }

  lemma CtrlReads(inline: bool, imm: bool, phase: nat)
    ensures var a := if inline then SetInlineMsg(0) else 0;
            var b := SetMetaAndOp(if imm then SetHasImm(a) else a, OP_SEND);
            && b & 0x0F == OP_SEND && b & 0x80 != 0 && (b & 0x20 != 0 <==> inline) && (b & 0x10 != 0 <==> imm)
    ensures SetCtrl2(0, PhaseBit(phase)) & 0x01 == PhaseBit(phase) && SetCtrl2(0, PhaseBit(phase)) & 0x1C == 0x1C
  {
  }

  /** The request's payload has room in a descriptor. */
  predicate PayloadFits(wr: SendWr) {
    if wr.flags & SEND_INLINE != 0 then TotalBytes(wr.sgl) <= 32 else |wr.sgl| <= 2
  }

  /** The limits the queue pair was created with keep list posts within a descriptor. */
  predicate ListRoom(cfg: Config) { cfg.maxInline <= 32 && cfg.maxSge <= 2 }

  /** And session calls too. */
  predicate SessionRoom(cfg: Config) { ListRoom(cfg) && cfg.maxRdmaSge <= 1 }

  /**
   Every request that passes the checks fits its descriptor exactly when the limits do. The inline limit
   is the application's own, which nothing checks: with 64, a send of 64 inline bytes is accepted.
   */
  lemma AcceptedRequestsFit(cfg: Config)
    ensures (forall wr :: ValidateBody(cfg, wr) == OK ==> PayloadFits(wr)) <==> ListRoom(cfg)
  {
    if cfg.maxInline > INLINE_MAX {
      var wr := SendWr(0, Send, SEND_INLINE, 0, [Sge(0, 0, seq(cfg.maxInline, i => 0))], 0, 0, 0);
      assert TotalBytes(wr.sgl[1..]) == 0;
      assert TotalBytes(wr.sgl) == cfg.maxInline;
      assert ValidateBody(cfg, wr) == OK && !PayloadFits(wr);
    } else if cfg.maxSge > NUM_BUFS {
      var wr := SendWr(0, Send, 0, 0, seq(cfg.maxSge, i => Sge(0, 0, [])), 0, 0, 0);
      assert ValidateBody(cfg, wr) == OK && !PayloadFits(wr);
    }
  }

  /** A queue pair created with max_inline_data 64 accepts 64 inline bytes, of which 32 reach a device. */
  lemma OversizedInlineAccepted(w: Wq, phase: nat, idx: nat)
    requires !Full(w)
    ensures var cfg := Config(RTS, true, 2, 64, 1, 1);
            var wr := SendWr(0, Send, SEND_INLINE, 0, [Sge(0, 0, seq(64, i => 7))], 0, 0, 0);
            && ValidateWr(w, cfg, wr) == OK && !PayloadFits(wr) && |Gather(wr.sgl)| == 64
            && Build(wr, phase, idx).data.InlineBytes? && |Build(wr, phase, idx).data.bytes| == 32
  {
    hide SetMetaAndOp, SetCtrl2, PhaseBit, Wrap16, Full;
    var wr := SendWr(0, Send, SEND_INLINE, 0, [Sge(0, 0, seq(64, i => 7))], 0, 0, 0);
    assert TotalBytes(wr.sgl[1..]) == 0;
    assert TotalBytes(wr.sgl) == 64;
  }

  /** The payload of a setter has room in the current descriptor. */
  predicate SetterFits(d: TxWqe, op: Op) {
    match op
    case SetSgeList(sgl) =>
      (OpType(d) == OP_SEND ==> |sgl| <= 2) && (OpType(d) == OP_RDMA_READ ==> |sgl| <= 1)
    case SetInline(bytes) => |bytes| <= 32
    case SetInlineList(bufs) => TotalBytes(bufs) <= 32
    case _ => true
  }

  /** The same for session calls, with the third limit for RDMA reads. */
  lemma AcceptedSettersFit(cfg: Config)
    ensures (forall d, op {:trigger SetterError(d, cfg, op)} ::
               !IsBuilder(op) && SetterError(d, cfg, op) == OK ==> SetterFits(d, op)) <==> SessionRoom(cfg)
  {
    if cfg.maxInline > INLINE_MAX {
      var op := SetInline(seq(cfg.maxInline, i => 0));
      assert SetterError(ZERO, cfg, op) == OK && !SetterFits(ZERO, op);
    } else if cfg.maxSge > NUM_BUFS {
      var op := SetSgeList(seq(cfg.maxSge, i => Sge(0, 0, [])));
      assert OpType(ZERO) == OP_SEND;
      assert SetterError(ZERO, cfg, op) == OK && !SetterFits(ZERO, op);
    } else if cfg.maxRdmaSge > NUM_RDMA_BUFS {
      var op, d := SetSgeList(seq(cfg.maxRdmaSge, i => Sge(0, 0, []))), ZERO.(ctrl1 := OP_RDMA_READ);
      assert OpType(d) == OP_RDMA_READ;
      assert SetterError(d, cfg, op) == OK && !SetterFits(d, op);
    }
  }

  /**
   What a device decodes from the descriptor of a request: every field of the request, and nothing stale;
   the payload is all there exactly if it fits.
   */
  lemma DescriptorMeans(wr: SendWr, phase: nat, idx: nat)
    requires wr.opcode != OtherOpcode
    ensures var d := Build(wr, phase, idx); var inline := wr.flags & SEND_INLINE != 0;
            && d.reqId == Wrap16(idx) && d.destQpNum == Wrap16(wr.remoteQpn) && d.ah == wr.ah && d.qkey == wr.remoteQkey
            && d.ctrl1 & 0x0F == 0 && d.ctrl1 & 0x80 != 0
            && (d.ctrl1 & 0x10 != 0 <==> wr.opcode == SendWithImm)
            && d.imm == (if wr.opcode == SendWithImm then wr.imm else 0)
            && (d.ctrl1 & 0x20 != 0 <==> inline)
            && d.ctrl2 & 0x01 == PhaseBit(phase) && d.ctrl2 & 0x1C == 0x1C
            && (inline ==> d.data.InlineBytes? && d.data.bytes <= Gather(wr.sgl) && d.length == Wrap16(|Gather(wr.sgl)|)
                           && (d.data.bytes == Gather(wr.sgl) <==> PayloadFits(wr)))
            && (!inline ==> d.data.Sgl? && d.length == Wrap16(|wr.sgl|) && |d.data.bufs| <= |wr.sgl|
                            && (|d.data.bufs| == |wr.sgl| <==> PayloadFits(wr)))
            && (!inline ==> forall i :: 0 <= i < |d.data.bufs| ==>
                  var b := d.data.bufs[i]; Rejoin(b) == wr.sgl[i].addr && b.lkey == wr.sgl[i].lkey & 0xFF_FFFF
                                           && b.length == |wr.sgl[i].mem|)
  {
    hide SetMetaAndOp, SetHasImm, SetInlineMsg, SetCtrl2, Wrap16, Gather, PhaseBit, Rejoin, TotalBytes, Held;
    CtrlReads(wr.flags & SEND_INLINE != 0, wr.opcode == SendWithImm, phase);
    if wr.flags & SEND_INLINE == 0 {
      forall i | 0 <= i < |wr.sgl| ensures Rejoin(ToTxBufs(wr.sgl)[i]) == wr.sgl[i].addr { AddressSurvives(wr.sgl[i]); }
    }
  }

  /** Setting one buffer is setting a list of one, for sends and for reads. */
  lemma OneSgeIsList(sq: Sq, cfg: Config, sge: Sge)
    requires SessionSq(sq) && Ready(sq) && 1 <= cfg.maxSge && 1 <= cfg.maxRdmaSge && |sge.mem| < U32
    requires sq.err == OK ==> OpType(Current(sq)) == OP_SEND || OpType(Current(sq)) == OP_RDMA_READ
    ensures Do(sq, cfg, SetSge(sge)) == Do(sq, cfg, SetSgeList([sge]))
  {
    hide SqOk, ToTxBuf;
    assert TotalBytes([sge]) == |sge.mem| by { assert TotalBytes([]) == 0; }
    assert ToTxBufs([sge]) == [ToTxBuf(sge)];
  }

  /** Inline data given in pieces is the pieces joined. */
  lemma InlineListIsInline(sq: Sq, cfg: Config, bufs: seq<Sge>)
    requires SessionSq(sq) && Ready(sq)
    ensures Do(sq, cfg, SetInlineList(bufs)) == Do(sq, cfg, SetInline(Gather(bufs)))
  {
    hide SqOk, SetInlineMsg;
  }

  /** What a device decodes from the descriptor of a session's RDMA read. */
  lemma RdmaReadMeans(sq: Sq, cfg: Config, flags: bv32, wrId: nat, rkey: bv32, addr: bv64, sgl: seq<Sge>)
    requires SessionSq(sq) && sq.err == OK && Validate(sq.wq, cfg, flags) == OK && |sgl| <= cfg.maxRdmaSge
    ensures var op := Op.WrRdmaRead(flags, wrId, rkey, addr); var r := Do(Do(sq, cfg, op), cfg, SetSgeList(sgl));
            && r.err == OK && r.pending == sq.pending + 1
            && var d := Current(r);
            && d.reqId == Wrap16(HeadIndex(sq.wq)) && d.ctrl1 & 0x0F == 1 && d.length == Wrap16(|sgl|)
            && d.ctrl2 & 0x01 == PhaseBit(sq.wq.phase)
            && d.data.Rdma? && d.data.rkey == rkey && d.data.length == Wrap32(TotalBytes(sgl))
            && Rejoin(TxBuf(0, 0, d.data.lo, d.data.hi)) == addr && d.data.local <= ToTxBufs(sgl)
            && (d.data.local == ToTxBufs(sgl) <==> |sgl| <= 1)
  {
    hide SqOk, Do, ValidateFlags, Validate, Take, Rejoin, Wrap16, Wrap32, ToTxBufs, TotalBytes, PhaseBit;
    RdmaBuilt(sq, cfg, flags, wrId, rkey, addr);
    RdmaListed(Do(sq, cfg, Op.WrRdmaRead(flags, wrId, rkey, addr)), cfg, sgl);
  }

  lemma RdmaBuilt(sq: Sq, cfg: Config, flags: bv32, wrId: nat, rkey: bv32, addr: bv64)
    requires SessionSq(sq) && sq.err == OK && Validate(sq.wq, cfg, flags) == OK
    ensures var r := Do(sq, cfg, Op.WrRdmaRead(flags, wrId, rkey, addr));
            && r.err == OK && r.pending == sq.pending + 1 && sq.wq.next < |sq.wq.pool|
            && var d := Current(r);
            && d.reqId == Wrap16(HeadIndex(sq.wq)) && OpType(d) == OP_RDMA_READ
            && d.ctrl2 & 0x01 == PhaseBit(sq.wq.phase)
            && d.data.Rdma? && d.data.rkey == rkey && Rejoin(TxBuf(0, 0, d.data.lo, d.data.hi)) == addr
  {
    hide Take, SetCtrl2, PhaseBit, SetMetaAndOp, Wrap16, Wrap32, ValidateFlags, Rejoin, RingSize, Counts;
    CountersMove(sq.wq);
    PhaseBitFits(sq.wq.phase);
    FlagsDecode(0, 0, PhaseBit(sq.wq.phase), OP_RDMA_READ);
    RejoinAnyBuf(addr);
  }

  lemma RdmaListed(sq: Sq, cfg: Config, sgl: seq<Sge>)
    requires SessionSq(sq) && sq.err == OK && sq.pending > 0 && OpType(Current(sq)) == OP_RDMA_READ
    requires |sgl| <= cfg.maxRdmaSge && Current(sq).data.Rdma?
    ensures var r := Do(sq, cfg, SetSgeList(sgl)); var d := Current(sq);
            && r.err == OK && r.pending == sq.pending
            && Current(r) == d.(length := Wrap16(|sgl|),
                                data := d.data.(length := Wrap32(TotalBytes(sgl)),
                                                local := Held(ToTxBufs(sgl), NUM_RDMA_BUFS)))
            && OpType(Current(r)) == OP_RDMA_READ
  {
    hide RingSize, Counts, ToTxBufs, TotalBytes, Wrap16, Wrap32;
  }

  lemma PhaseBitFits(phase: nat)
    ensures PhaseBit(phase) <= 1
  {
  }

  lemma RejoinAnyBuf(addr: bv64)
    ensures Rejoin(TxBuf(0, 0, (addr & 0xFFFF_FFFF) as bv32, (addr >> 32) as bv32)) == addr
  {
  }

  lemma RunOpsThree(sq: Sq, cfg: Config, a: Op, b: Op, c: Op, rest: seq<Op>)
    requires SessionSq(sq) && IsBuilder(a)
    ensures RunOps(sq, cfg, [a, b, c] + rest)
         == RunOps(Do(Do(Do(sq, cfg, a), cfg, b), cfg, c), cfg, rest)
  {
    hide Do, SessionSq;
    var ops := [a, b, c] + rest;
    assert ops[1..] == [b, c] + rest;
    assert ([b, c] + rest)[1..] == [c] + rest;
    assert ([c] + rest)[1..] == rest;
    var s1 := Do(sq, cfg, a);
    var s2 := Do(s1, cfg, b);
    assert RunOps(sq, cfg, ops) == RunOps(s1, cfg, [b, c] + rest);
    assert RunOps(s1, cfg, [b, c] + rest) == RunOps(s2, cfg, [c] + rest);
  }

  /** One request posted through the session calls: its descriptor is staged. */
  lemma ScriptStages(sq: Sq, cfg: Config, wr: SendWr)
    requires SessionSq(sq) && sq.err == OK
    requires ValidateWr(sq.wq, cfg, wr) == OK
    ensures var ops := Script(wr); var r := Do(Do(Do(sq, cfg, ops[0]), cfg, ops[1]), cfg, ops[2]);
            && !Full(sq.wq) && sq.wq.next < sq.wq.cnt && sq.pending < |sq.local|
            && r == sq.(wq := Take(sq.wq, wr.wrId), pending := sq.pending + 1,
                        local := sq.local[sq.pending := Build(wr, sq.wq.phase, HeadIndex(sq.wq))])
  {
    hide SetMetaAndOp, SetHasImm, SetInlineMsg, SetCtrl2, Wrap16, Wrap32, ToTxBufs, Gather, PhaseBit, Take, Build,
      OpType, TotalBytes, ValidateFlags, SetAddress, SetImm, WithInline;
    SameDescriptor(wr, sq.wq.phase, HeadIndex(sq.wq));
  }

  ghost predicate Postable(cfg: Config, wrs: seq<SendWr>) {
    forall k :: 0 <= k < |wrs| ==> ValidateFlags(cfg, wrs[k].flags) == OK && ValidateBody(cfg, wrs[k]) == OK
  }

  lemma ScriptOne(sq: Sq, cfg: Config, wrs: seq<SendWr>)
    requires SessionSq(sq) && sq.err == OK && wrs != []
    requires Postable(cfg, wrs) && |wrs| <= sq.wq.cnt - sq.wq.next
    ensures !Full(sq.wq) && sq.wq.next < sq.wq.cnt == |sq.wq.pool| && sq.pending < |sq.local|
    ensures var sq1 := sq.(wq := Take(sq.wq, wrs[0].wrId), pending := sq.pending + 1,
                           local := sq.local[sq.pending := Build(wrs[0], sq.wq.phase, HeadIndex(sq.wq))]);
            && SessionSq(sq1)
            && Scripted(sq, ScriptAll(wrs)) && Scripted(sq1, ScriptAll(wrs[1..]))
            && RunOps(sq, cfg, ScriptAll(wrs)) == RunOps(sq1, cfg, ScriptAll(wrs[1..]))
  {
    hide RunOps, Do, Build, Take, ValidateFlags, ValidateBody, Sized, Wrap32;
    NotFull(sq.wq);
    WidthsFit(sq.wq);
    ScriptStages(sq, cfg, wrs[0]);
    var ops, rest := Script(wrs[0]), ScriptAll(wrs[1..]);
    assert ops == [ops[0], ops[1], ops[2]];
    RunOpsThree(sq, cfg, ops[0], ops[1], ops[2], rest);
  }

  /** The session calls for a list of valid requests stage exactly the descriptors the list form writes. */
  lemma {:induction false} ScriptAllStages(sq: Sq, cfg: Config, wrs: seq<SendWr>)
    requires SessionSq(sq) && sq.err == OK && Postable(cfg, wrs) && |wrs| <= sq.wq.cnt - sq.wq.next
    ensures Scripted(sq, ScriptAll(wrs))
    ensures var r := RunOps(sq, cfg, ScriptAll(wrs));
            && r == sq.(wq := TakeAll(sq.wq, Ids(wrs)), pending := sq.pending + |wrs|, local := r.local)
            && sq.pending + |wrs| <= |r.local| == |sq.local|
            && r.local[..sq.pending + |wrs|] == sq.local[..sq.pending] + Descs(sq.wq, wrs)
    decreases |wrs|
  {
    hide RunOps, Do, Build, Take, ValidateFlags, ValidateBody, Shape, RingSize, Script, Full, ScriptAll, Ids;
    if wrs == [] {
      NoScript(wrs);
      RunNothing(sq, cfg);
    } else {
      ScriptOne(sq, cfg, wrs);
      var d := Build(wrs[0], sq.wq.phase, HeadIndex(sq.wq));
      var sq1 := sq.(wq := Take(sq.wq, wrs[0].wrId), pending := sq.pending + 1, local := sq.local[sq.pending := d]);
      ScriptAllStages(sq1, cfg, wrs[1..]);
      IdsFirst(wrs);
      assert sq1.local[..sq1.pending] == sq.local[..sq.pending] + [d];
      assert sq.local[..sq.pending] + ([d] + Descs(sq1.wq, wrs[1..]))
        == sq1.local[..sq1.pending] + Descs(sq1.wq, wrs[1..]);
    }
  }

  lemma NoScript(wrs: seq<SendWr>)
    requires wrs == []
    ensures Ids(wrs) == [] && ScriptAll(wrs) == []
  {
  }

  lemma IdsFirst(wrs: seq<SendWr>)
    requires wrs != []
    ensures |Ids(wrs)| == |wrs| && Ids(wrs)[0] == wrs[0].wrId && Ids(wrs)[1..] == Ids(wrs[1..])
  {
  }

  lemma RunNothing(sq: Sq, cfg: Config)
    requires SessionSq(sq)
    ensures RunOps(sq, cfg, []) == sq
  {
  }

  /**
   A session posting a list's requests one by one leaves the same ring, counters, phase, index pool and
   records, and rings the same doorbells, as posting the list.
   */
  lemma ListEqualsSession(sq: Sq, cfg: Config, wrs: seq<SendWr>)
    requires SqOk(sq) && PostList(sq, cfg, wrs, 0, 0).err == OK
    ensures SessionSq(Start(sq)) && Scripted(Start(sq), ScriptAll(wrs))
    ensures var list := PostList(sq, cfg, wrs, 0, 0).sq;
            var session := Complete(RunOps(Start(sq), cfg, ScriptAll(wrs)), cfg);
            && session.err == OK && session.wq == list.wq && session.ring == list.ring && session.bells == list.bells
    ensures ListRoom(cfg) ==> forall k :: 0 <= k < |wrs| ==> PayloadFits(wrs[k])
  {
    hide PayloadFits, ListRoom, PostList, RunOps, ScriptAll, Descs, TakeAll, Shape, RingSize, Ids, Postable, Posts,
      Complete, Wrap16, Wrap32;
    ListDone(sq, cfg, wrs);
    RoomForList(sq, cfg, wrs, PostList(sq, cfg, wrs, 0, 0).sq);
    ScriptAllStages(Start(sq), cfg, wrs);
    PublishesSame(sq, cfg, wrs, RunOps(Start(sq), cfg, ScriptAll(wrs)), PostList(sq, cfg, wrs, 0, 0).sq);
  }

  lemma RoomForList(sq: Sq, cfg: Config, wrs: seq<SendWr>, out: Sq)
    requires SqOk(sq) && Posts(sq, wrs, 0, cfg.maxBatch, out)
    ensures SessionSq(Start(sq)) && |wrs| <= sq.wq.cnt - sq.wq.next
  {
    hide Descs, TakeAll, WriteAll, Doorbells, Shape, RingSize, Ids;
  }

  /** Publishing what a list's session staged is what the list post did. */
  lemma PublishesSame(sq: Sq, cfg: Config, wrs: seq<SendWr>, mid: Sq, list: Sq)
    requires SqOk(sq) && Posts(sq, wrs, 0, cfg.maxBatch, list) && SessionSq(mid) && |wrs| <= sq.wq.cnt - sq.wq.next
    requires mid == Start(sq).(wq := TakeAll(sq.wq, Ids(wrs)), pending := |wrs|, local := mid.local)
    requires |wrs| <= |mid.local| && mid.local[..|wrs|] == sq.local[..0] + Descs(sq.wq, wrs)
    ensures var session := Complete(mid, cfg);
            && session.err == OK && session.wq == list.wq && session.ring == list.ring && session.bells == list.bells
  {
    hide Descs, TakeAll, WriteAll, Doorbells, Shape, RingSize, Ids, Wrap16, Wrap32;
    IdsSize(wrs);
    SessionPc(sq.wq, Ids(wrs));
    assert sq.local[..0] + Descs(sq.wq, wrs) == Descs(sq.wq, wrs);
  }

  /** A list post without an error posted the whole list. */
  lemma ListDone(sq: Sq, cfg: Config, wrs: seq<SendWr>)
    requires SqOk(sq) && PostList(sq, cfg, wrs, 0, 0).err == OK
    ensures Posts(sq, wrs, 0, cfg.maxBatch, PostList(sq, cfg, wrs, 0, 0).sq) && Postable(cfg, wrs)
    ensures ListRoom(cfg) ==> forall k :: 0 <= k < |wrs| ==> PayloadFits(wrs[k])
  {
    hide PayloadFits, ListRoom, PostList, Posts, SqOk, ValidateFlags, ValidateBody;
    var r := PostList(sq, cfg, wrs, 0, 0);
    PostListPostsPrefix(sq, cfg, wrs, 0, 0);
    PostListStops(sq, cfg, wrs, 0, 0);
    assert wrs[0..r.bad] == wrs;
  }

  lemma SessionPc(w: Wq, ids: seq<nat>)
    requires Shape(w) && |ids| <= w.cnt - w.next
    ensures Wrap16(TakeAll(w, ids).pc - |ids|) == w.pc
  {
    hide Wrap16, Wrap32, TakeAll, Shape;
    WidthsFit(w);
    TakeAllCounters(w, ids);
    Wrap16Add(w.pc + |ids|, 0 - |ids|);
  }

  // ---- doorbells over whole runs -----------------------------------------------------------------

  /** Outside a call or session: each bell so far announced 1 to maxBatch descriptors, the last one all. */
  ghost predicate Rung(sq: Sq, cfg: Config) {
    sq.wq.pc < U16 && Advances(0, sq.bells, cfg.maxBatch, sq.wq.pc)
  }

  lemma RungMore(sq: Sq, cfg: Config, n: nat, pc': nat, bells': seq<nat>)
    requires Rung(sq, cfg) && 1 <= cfg.maxBatch < U16
    requires pc' == Wrap16(sq.wq.pc + n) && bells' == sq.bells + Doorbells(sq.wq.pc, n, 0, cfg.maxBatch)
    ensures Advances(0, bells', cfg.maxBatch, pc')
  {
    hide Wrap16, Doorbells, Advances;
    DoorbellsAdvance(sq.wq.pc, sq.wq.pc, n, 0, cfg.maxBatch);
    AdvancesJoin(0, sq.bells, sq.wq.pc, Doorbells(sq.wq.pc, n, 0, cfg.maxBatch), pc', cfg.maxBatch);
  }

  /** Every list post keeps the doorbell discipline, whatever prefix it accepts. */
  lemma PostListKeepsRung(sq: Sq, cfg: Config, wrs: seq<SendWr>)
    requires SqOk(sq) && Rung(sq, cfg) && 1 <= cfg.maxBatch < U16
    ensures Rung(PostList(sq, cfg, wrs, 0, 0).sq, cfg)
  {
    hide PostList, Descs, TakeAll, WriteAll, Doorbells, Advances, Counts, RingSize, Ids, Wrap16;
    var r := PostList(sq, cfg, wrs, 0, 0);
    PostListPostsPrefix(sq, cfg, wrs, 0, 0);
    TakeAllCounters(sq.wq, Ids(wrs[0..r.bad]));
    IdsSize(wrs[0..r.bad]);
    RungMore(sq, cfg, r.bad, r.sq.wq.pc, r.sq.bells);
  }

  lemma IdsSize(wrs: seq<SendWr>)
    ensures |Ids(wrs)| == |wrs|
  {
  }

  /** So does every session, completed or rolled back. */
  lemma SessionKeepsRung(sq: Sq, cfg: Config, ops: seq<Op>)
    requires SqOk(sq) && Rung(sq, cfg) && 1 <= cfg.maxBatch < U16 && SessionSq(Start(sq)) && Scripted(Start(sq), ops)
    ensures Rung(Complete(RunOps(Start(sq), cfg, ops), cfg), cfg)
    ensures Rung(Abort(RunOps(Start(sq), cfg, ops)), cfg)
  {
    hide RunOps, SessionIds, Complete, Abort, TakeAll, WriteAll, Doorbells, Advances, Counts, RingSize, Wrap16;
    SessionIsAtomic(sq, cfg, ops);
    var ids, mid := SessionIds(Start(sq), cfg, ops), RunOps(Start(sq), cfg, ops);
    TakeAllCounters(sq.wq, ids);
    if mid.err == OK {
      RungMore(sq, cfg, |ids|, mid.wq.pc, Complete(mid, cfg).bells);
    }
  }
}
