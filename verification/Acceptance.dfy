/**
 Which requests the posting calls accept, said in the fields of the requests, the limits of the queue pair
 and the number of free indices.
 */
module Acceptance {
  import opened Words
  import opened WridPool
  import opened DeviceRing
  import opened SendRing
  import opened SendTheorems
  import opened ReceiveRing

  // ---- sends -------------------------------------------------------------------------------------

  /** Sends may be posted in these states only. */
  predicate CanSend(cfg: Config) { cfg.state == RTS || cfg.state == SQD }

  /** Signalled (bit 1), by itself or by the queue pair, and asking for nothing but that and inlining (bit 3). */
  predicate GoodFlags(cfg: Config, flags: bv32) {
    (cfg.sigAll || flags & 0x2 != 0) && flags & 0xFFFF_FFF5 == 0
  }

  /** A list request is a send, with or without immediate, whose payload keeps the queue pair's limit. */
  predicate GoodBody(cfg: Config, wr: SendWr) {
    && (wr.opcode == Send || wr.opcode == SendWithImm)
    && (wr.flags & 0x8 != 0 ==> TotalBytes(wr.sgl) <= cfg.maxInline)
    && (wr.flags & 0x8 == 0 ==> |wr.sgl| <= cfg.maxSge)
  }

  /** How many indices are free. */
  function Room(w: Wq): int { w.cnt - w.next }

  /** The k-th request of a list can be posted after those before it. */
  predicate Sendable(cfg: Config, wr: SendWr, k: int, room: int) {
    CanSend(cfg) && GoodFlags(cfg, wr.flags) && GoodBody(cfg, wr) && k < room
  }

  lemma FullMeansNoRoom(w: Wq)
    requires Shape(w)
    ensures Full(w) <==> Room(w) == 0
    ensures 0 <= Room(w)
  {
    if w.next < w.cnt { NotFull(w); }
  }

  /** One request against the checks of a list post. */
  lemma CheckedOne(w: Wq, cfg: Config, wr: SendWr)
    requires Shape(w)
    ensures ValidateWr(w, cfg, wr) == OK <==> Sendable(cfg, wr, 0, Room(w))
    ensures ValidateWr(w, cfg, wr) == ENOMEM <==> CanSend(cfg) && GoodFlags(cfg, wr.flags) && Room(w) == 0
  {
    FullMeansNoRoom(w);
    hide Shape, Full;
  }

  lemma OneLess(sq: Sq, wr: SendWr)
    requires SqOk(sq) && !Full(sq.wq)
    ensures Room(PostOne(sq, wr).wq) == Room(sq.wq) - 1
  {
    hide Take, Build, PutInRing, Full, RingSize, Counts;
    CountersMove(sq.wq);
  }

  /** Posting from position i on goes as far as requests are sendable, counting from there. */
  lemma {:induction false} PostListGoes(sq: Sq, cfg: Config, wrs: seq<SendWr>, i: nat, cur: nat)
    requires SqOk(sq) && i <= |wrs|
    ensures var r := PostList(sq, cfg, wrs, i, cur); var room := Room(sq.wq);
            && (r.err == OK <==> r.bad == |wrs|)
            && (forall k :: i <= k < r.bad ==> Sendable(cfg, wrs[k], k - i, room))
            && (r.bad < |wrs| ==>
                  && !Sendable(cfg, wrs[r.bad], r.bad - i, room)
                  && (r.err == ENOMEM <==> CanSend(cfg) && GoodFlags(cfg, wrs[r.bad].flags) && r.bad - i == room)
                  && (r.err == EINVAL <==> r.err != ENOMEM))
    decreases |wrs| - i
  {
    hide PostOne, RingBell, SqOk, ValidateWr, Full, GoodFlags, GoodBody, CanSend;
    if i < |wrs| {
      ShapeOf(sq);
      CheckedOne(sq.wq, cfg, wrs[i]);
      if ValidateWr(sq.wq, cfg, wrs[i]) == OK {
        ValidFull(sq.wq, cfg, wrs[i]);
        OneLess(sq, wrs[i]);
        var sq1 := PostOne(sq, wrs[i]);
        if cur + 1 == cfg.maxBatch {
          PostListGoes(RingBell(sq1), cfg, wrs, i + 1, 0);
        } else {
          PostListGoes(sq1, cfg, wrs, i + 1, cur + 1);
        }
      }
    }
  }

  lemma ShapeOf(sq: Sq)
    requires SqOk(sq)
    ensures Shape(sq.wq)
  {
    hide Shape;
  }

  lemma ValidFull(w: Wq, cfg: Config, wr: SendWr)
    requires ValidateWr(w, cfg, wr) == OK
    ensures !Full(w)
  {
    hide Full;
  }

  /**
   efa_post_send returns 0 if and only if the list is empty, or the queue pair is in RTS or SQD, there are
   free indices for all of it, and each request is a send with good flags and a payload within the limits.
   Otherwise the request it names is the first one that breaks this; the error is ENOMEM exactly when that
   request's state and flags are good and the indices have run out, and else EINVAL.
   */
  lemma PostSendAccepts(sq: Sq, cfg: Config, wrs: seq<SendWr>)
    requires SqOk(sq)
    ensures var r := PostList(sq, cfg, wrs, 0, 0); var room := Room(sq.wq);
            && (r.err == OK <==>
                  wrs == [] ||
                  (CanSend(cfg) && |wrs| <= room
                   && forall k :: 0 <= k < |wrs| ==> GoodFlags(cfg, wrs[k].flags) && GoodBody(cfg, wrs[k])))
            && (r.err == OK ==> r.bad == |wrs|)
            && (r.err != OK ==>
                  && r.bad < |wrs| && !Sendable(cfg, wrs[r.bad], r.bad, room)
                  && (forall k :: 0 <= k < r.bad ==> Sendable(cfg, wrs[k], k, room))
                  && r.err == if CanSend(cfg) && GoodFlags(cfg, wrs[r.bad].flags) && r.bad == room then ENOMEM
                              else EINVAL)
  {
    hide PostList, GoodFlags, GoodBody, CanSend, SqOk;
    PostListGoes(sq, cfg, wrs, 0, 0);
    var r := PostList(sq, cfg, wrs, 0, 0);
    if r.err == OK && wrs != [] {
      assert Sendable(cfg, wrs[|wrs| - 1], |wrs| - 1, Room(sq.wq));
    }
  }

  // ---- send sessions -----------------------------------------------------------------------------

  /** A setter keeps the limit of the request it is for, which is a read or a send. */
  predicate WithinLimits(cfg: Config, op: Op, read: bool) {
    match op
    case SetSgeList(sgl) => |sgl| <= if read then cfg.maxRdmaSge else cfg.maxSge
    case SetInline(bytes) => |bytes| <= cfg.maxInline
    case SetInlineList(bufs) => TotalBytes(bufs) <= cfg.maxInline
    case _ => true
  }

  /** The calls up to the first one that has to fail, by their own fields; `read` is the current request's kind. */
  function Fault(cfg: Config, ops: seq<Op>, read: bool, room: int): Errno
    decreases |ops|
  {
    if ops == [] then OK
    else if IsBuilder(ops[0]) then
      if !CanSend(cfg) || !GoodFlags(cfg, ops[0].flags) then EINVAL
      else if room == 0 then ENOMEM
      else Fault(cfg, ops[1..], ops[0].WrRdmaRead?, room - 1)
    else if !WithinLimits(cfg, ops[0], read) then EINVAL
    else Fault(cfg, ops[1..], read, room)
  }

  /** No call breaks a rule by its own fields. */
  predicate GoodCalls(cfg: Config, ops: seq<Op>, read: bool)
    decreases |ops|
  {
    ops == [] ||
    if IsBuilder(ops[0]) then
      CanSend(cfg) && GoodFlags(cfg, ops[0].flags) && GoodCalls(cfg, ops[1..], ops[0].WrRdmaRead?)
    else WithinLimits(cfg, ops[0], read) && GoodCalls(cfg, ops[1..], read)
  }

  /** The current request is of this kind. */
  ghost predicate Kind(sq: Sq, read: bool)
    requires SessionSq(sq)
  {
    sq.pending > 0 && OpType(Current(sq)) == if read then OP_RDMA_READ else OP_SEND
  }

  lemma OpTypeStays(x: bv8)
    ensures SetInlineMsg(x) & 0x0F == x & 0x0F && SetHasImm(x) & 0x0F == x & 0x0F
  {
  }

  lemma CommonType(phase: nat, op: bv8)
    requires op < 16
    ensures OpType(CommonFlags(ZERO, phase, op)) == op
  {
    FlagsDecode(0, 0, 0, op);
    hide SetMetaAndOp, SetCtrl2, PhaseBit;
  }

  /** A send call that does not fail makes its request current. */
  lemma BuilderKind(sq: Sq, cfg: Config, op: Op)
    requires SessionSq(sq) && sq.err == OK && IsBuilder(op) && Validate(sq.wq, cfg, op.flags) == OK
    ensures var r := Do(sq, cfg, op); r.err == OK && Kind(r, op.WrRdmaRead?) && Room(r.wq) == Room(sq.wq) - 1
  {
    hide Take, SetMetaAndOp, SetCtrl2, PhaseBit, Wrap16, Wrap32, ValidateFlags, RingSize, Counts, SetHasImm, OpType,
      CommonFlags;
    CountersMove(sq.wq);
    var kind: bv8 := if op.WrRdmaRead? then OP_RDMA_READ else OP_SEND;
    CommonType(sq.wq.phase, kind);
    TypeOnly(CommonFlags(ZERO, sq.wq.phase, kind));
  }

  /** The changes of send calls and setters that leave the op type alone. */
  lemma TypeOnly(d: TxWqe)
    ensures forall i :: OpType(d.(reqId := i)) == OpType(d)
    ensures forall i, imm :: OpType(SetImm(d.(reqId := i), imm)) == OpType(d)
    ensures forall i, k, a :: OpType(WithRemote(d.(reqId := i), k, a)) == OpType(d)
  {
    OpTypeStays(d.ctrl1);
    hide SetHasImm;
  }

  /** A setter that does not fail keeps the current request's kind. */
  lemma SetterKind(sq: Sq, cfg: Config, op: Op, read: bool)
    requires SessionSq(sq) && sq.err == OK && !IsBuilder(op) && Kind(sq, read)
    ensures var r := Do(sq, cfg, op);
            && r.err == (if WithinLimits(cfg, op, read) then OK else EINVAL)
            && r.wq == sq.wq && (r.err == OK ==> Kind(r, read))
  {
    OpTypeStays(Current(sq).ctrl1);
    hide RingSize, Counts, ToTxBuf, ToTxBufs, SetInlineMsg, Wrap16, Wrap32, TotalBytes, Gather, AsRdma, Held;
  }

  lemma CheckedBuilder(w: Wq, cfg: Config, flags: bv32)
    requires Shape(w)
    ensures Validate(w, cfg, flags) ==
              if !CanSend(cfg) || !GoodFlags(cfg, flags) then EINVAL else if Room(w) == 0 then ENOMEM else OK
  {
    FullMeansNoRoom(w);
    hide Shape, Full;
  }

  lemma {:induction false} SessionFaults(sq: Sq, cfg: Config, ops: seq<Op>, read: bool)
    requires SessionSq(sq) && Scripted(sq, ops) && sq.err == OK && (sq.pending > 0 ==> Kind(sq, read))
    ensures RunOps(sq, cfg, ops).err == Fault(cfg, ops, read, Room(sq.wq))
    decreases |ops|
  {
    hide SqOk, Do, Validate, CanSend, GoodFlags, WithinLimits, Kind, Room;
    if ops != [] {
      var op, r := ops[0], Do(sq, cfg, ops[0]);
      CallSucceeds(sq, cfg, op);
      ShapeOf(sq);
      if IsBuilder(op) {
        CheckedBuilder(sq.wq, cfg, op.flags);
        if r.err == OK {
          BuilderKind(sq, cfg, op);
          SessionFaults(r, cfg, ops[1..], op.WrRdmaRead?);
        } else {
          ErrorSticks(r, cfg, ops[1..]);
        }
      } else {
        SetterKind(sq, cfg, op, read);
        if r.err == OK {
          SessionFaults(r, cfg, ops[1..], read);
        } else {
          ErrorSticks(r, cfg, ops[1..]);
        }
      }
    }
  }

  /** Without a fault every call is good and the send calls find room; and the other way round. */
  lemma {:induction false} FaultFree(cfg: Config, ops: seq<Op>, read: bool, room: int)
    requires 0 <= room
    ensures Fault(cfg, ops, read, room) == OK <==> GoodCalls(cfg, ops, read) && |BuilderIds(ops)| <= room
    decreases |ops|
  {
    hide CanSend, GoodFlags, WithinLimits;
    if ops != [] {
      if IsBuilder(ops[0]) {
        if room > 0 { FaultFree(cfg, ops[1..], ops[0].WrRdmaRead?, room - 1); }
      } else {
        FaultFree(cfg, ops[1..], read, room);
      }
    }
  }

  /**
   A session's error, and with it what efa_send_wr_complete returns, is decided by the fields of its calls,
   the limits and the free indices: it is 0 if and only if every send call has good flags in RTS or SQD,
   every setter keeps the limit of the request it is for, and there are indices for all send calls.
   */
  lemma SessionAccepts(sq: Sq, cfg: Config, ops: seq<Op>)
    requires SqOk(sq) && Scripted(Start(sq), ops)
    ensures SessionSq(Start(sq))
    ensures var r := Complete(RunOps(Start(sq), cfg, ops), cfg);
            && r.err == Fault(cfg, ops, false, Room(sq.wq))
            && (r.err == OK <==> GoodCalls(cfg, ops, false) && |BuilderIds(ops)| <= Room(sq.wq))
            && (r.err != OK ==> r.ring == sq.ring && r.bells == sq.bells && r.wq == sq.wq.(wrid := r.wq.wrid))
  {
    hide RunOps, SessionIds, Complete, Abort, SqOk, Fault, GoodCalls, TakeAll, FirstError, BuilderIds;
    SessionIsAtomic(sq, cfg, ops);
    SessionFaults(Start(sq), cfg, ops, false);
    ShapeOf(sq);
    FullMeansNoRoom(sq.wq);
    FaultFree(cfg, ops, false, Room(sq.wq));
    CompleteKeepsError(RunOps(Start(sq), cfg, ops), cfg);
  }

  lemma CompleteKeepsError(sq: Sq, cfg: Config)
    requires SessionSq(sq)
    ensures Complete(sq, cfg).err == sq.err
  {
    hide SqOk, WriteAll, Doorbells, RollBack;
  }

  /** What is wrong with a send call whatever went before it. */
  predicate Refused(cfg: Config, op: Op) { IsBuilder(op) && (!CanSend(cfg) || !GoodFlags(cfg, op.flags)) }

  lemma {:induction false} FaultAt(cfg: Config, ops: seq<Op>, k: nat, read: bool, room: int)
    requires k < |ops| && Refused(cfg, ops[k]) && Fault(cfg, ops[..k], read, room) == OK
    ensures Fault(cfg, ops, read, room) == EINVAL
    decreases k
  {
    hide CanSend, GoodFlags, WithinLimits;
    if k > 0 {
      assert ops[..k][1..] == ops[1..][..k - 1];
      if IsBuilder(ops[0]) {
        FaultAt(cfg, ops[1..], k - 1, ops[0].WrRdmaRead?, room - 1);
      } else {
        FaultAt(cfg, ops[1..], k - 1, read, room);
      }
    }
  }

  /**
   A send call in a state other than RTS and SQD, unsignalled where it has to be signalled, or with a flag
   that is not known fails the session with EINVAL, if no earlier call failed; nothing is published.
   */
  lemma RefusedCallFailsSession(sq: Sq, cfg: Config, ops: seq<Op>, k: nat)
    requires SqOk(sq) && Scripted(Start(sq), ops) && k < |ops| && Refused(cfg, ops[k])
    requires SessionSq(Start(sq)) && Scripted(Start(sq), ops[..k]) && RunOps(Start(sq), cfg, ops[..k]).err == OK
    ensures var r := Complete(RunOps(Start(sq), cfg, ops), cfg);
            r.err == EINVAL && r.ring == sq.ring && r.bells == sq.bells && r.wq == sq.wq.(wrid := r.wq.wrid)
  {
    hide RunOps, Complete, SqOk, Fault, GoodCalls, BuilderIds, Refused;
    SessionAccepts(sq, cfg, ops);
    SessionFaults(Start(sq), cfg, ops[..k], false);
    FaultAt(cfg, ops, k, false, Room(sq.wq));
  }

  /** In a state other than RTS and SQD every session with a call in it fails with EINVAL and publishes nothing. */
  lemma WrongStateFailsSession(sq: Sq, cfg: Config, ops: seq<Op>)
    requires SqOk(sq) && Scripted(Start(sq), ops) && ops != [] && cfg.state != RTS && cfg.state != SQD
    ensures SessionSq(Start(sq))
    ensures var r := Complete(RunOps(Start(sq), cfg, ops), cfg);
            r.err == EINVAL && r.ring == sq.ring && r.bells == sq.bells && r.wq == sq.wq.(wrid := r.wq.wrid)
  {
    hide RunOps, Complete, SqOk, GoodCalls, BuilderIds;
    SessionAccepts(sq, cfg, ops);
  }

  // ---- receives ----------------------------------------------------------------------------------

  /** The k-th receive of a list can be posted after those before it. */
  predicate Receivable(cfg: RecvConfig, wr: RecvWr, k: int, room: int) {
    cfg.state != RESET && cfg.state != ERR && |wr.sgl| <= cfg.maxSge && k < room
  }

  lemma CheckedReceive(w: Wq, cfg: RecvConfig, wr: RecvWr)
    requires Shape(w)
    ensures ValidateRecv(w, cfg, wr) ==
              if cfg.state == RESET || cfg.state == ERR || |wr.sgl| > cfg.maxSge then EINVAL
              else if Room(w) == 0 then ENOMEM else OK
  {
    FullMeansNoRoom(w);
    hide Shape, Full;
  }

  lemma OneReceiveLess(rq: Rq, wr: RecvWr)
    requires RqOk(rq) && !Full(rq.wq)
    ensures Room(PostRecvOne(rq, wr).wq) == Room(rq.wq) - 1
  {
    hide PostRecvOne, RqOk, WriteAll, RequestDescs;
    PostRecvOneWrites(rq, wr);
  }

  lemma {:induction false} PostRecvGoes(rq: Rq, cfg: RecvConfig, wrs: seq<RecvWr>, i: nat)
    requires RqOk(rq) && i <= |wrs|
    ensures var r := PostRecvList(rq, cfg, wrs, i); var room := Room(rq.wq);
            && (r.err == OK <==> r.bad == |wrs|)
            && (forall k :: i <= k < r.bad ==> Receivable(cfg, wrs[k], k - i, room))
            && (r.bad < |wrs| ==>
                  && !Receivable(cfg, wrs[r.bad], r.bad - i, room)
                  && r.err == if Receivable(cfg, wrs[r.bad], -1, 0) && r.bad - i == room then ENOMEM else EINVAL)
    decreases |wrs| - i
  {
    hide PostRecvOne, RqOk, ValidateRecv, Full;
    if i < |wrs| {
      RecvShape(rq);
      FullMeansNoRoom(rq.wq);
      CheckedReceive(rq.wq, cfg, wrs[i]);
      if ValidateRecv(rq.wq, cfg, wrs[i]) == OK {
        OneReceiveLess(rq, wrs[i]);
        PostRecvGoes(PostRecvOne(rq, wrs[i]), cfg, wrs, i + 1);
      }
    }
  }

  lemma RecvShape(rq: Rq)
    requires RqOk(rq)
    ensures Shape(rq.wq)
  {
    hide Shape;
  }

  /**
   efa_post_recv returns 0 if and only if the list is empty, or the queue pair is in neither RESET nor ERR,
   there are free indices for all of it, and no request has more scatter entries than the limit. Otherwise
   the request it names is the first one that breaks this; the error is ENOMEM exactly when only the
   indices have run out, and else EINVAL.
   */
  lemma PostRecvAccepts(rq: Rq, cfg: RecvConfig, wrs: seq<RecvWr>)
    requires RqOk(rq)
    ensures var r := PostRecvList(rq, cfg, wrs, 0); var room := Room(rq.wq);
            && (r.err == OK <==>
                  wrs == [] ||
                  (cfg.state != RESET && cfg.state != ERR && |wrs| <= room
                   && forall k :: 0 <= k < |wrs| ==> |wrs[k].sgl| <= cfg.maxSge))
            && (r.err == OK ==> r.bad == |wrs|)
            && (r.err != OK ==>
                  && r.bad < |wrs| && !Receivable(cfg, wrs[r.bad], r.bad, room)
                  && (forall k :: 0 <= k < r.bad ==> Receivable(cfg, wrs[k], k, room))
                  && (r.err == ENOMEM <==>
                        cfg.state != RESET && cfg.state != ERR && |wrs[r.bad].sgl| <= cfg.maxSge && r.bad == room)
                  && (r.err == EINVAL <==> r.err != ENOMEM))
  {
    hide PostRecvList, RqOk;
    PostRecvGoes(rq, cfg, wrs, 0);
    var r := PostRecvList(rq, cfg, wrs, 0);
    if r.err == OK && wrs != [] {
      assert Receivable(cfg, wrs[|wrs| - 1], |wrs| - 1, Room(rq.wq));
    }
  }
}
