/** The send queue of a queue pair, updated in place. */
module SendQueues {
  import opened Words
  import opened WridPool
  import opened DeviceRing
  import opened SendRing

  lemma ValidNotFull(w: Wq, cfg: Config, wr: SendWr)
    requires ValidateWr(w, cfg, wr) == OK
    ensures !Full(w)
  {
  }

  class SendQueue {
    const wq: WorkQueue
    const desc: array<TxWqe>        // the device's descriptor ring
    const localQueue: array<TxWqe>
    var cfg: Config
    var numWqePending: nat
    var phaseRb: nat
    var wrSessionErr: Errno
    var doorbells: seq<nat>         // every value written to the doorbell register

    function View(): Sq
      reads this, wq, wq.wrid, wq.wridIdxPool, desc, localQueue
    {
      Sq(wq.View(), desc[..], localQueue[..], numWqePending, phaseRb, wrSessionErr, doorbells)
    }

    ghost predicate Valid()
      reads this, wq, wq.wrid, wq.wridIdxPool, desc, localQueue
    {
      wq.Valid() && desc != localQueue && SqOk(View()) && 1 <= cfg.maxBatch < U16
    }

    constructor (cnt: nat, cfg: Config)
      requires RingSize(cnt) && 0 < cnt && 1 <= cfg.maxBatch < U16
      ensures Valid() && this.cfg == cfg && doorbells == [] && numWqePending == 0
      ensures fresh(wq) && fresh(wq.wrid) && fresh(wq.wridIdxPool) && fresh(desc) && fresh(localQueue)
      ensures PoolInv(wq.View(), {}) && wq.View() == Fresh(cnt, cnt - 1, wq.View().wrid)
    {
      wq := new WorkQueue(cnt, cnt - 1);
      desc := new TxWqe[cnt](_ => ZERO);
      localQueue := new TxWqe[cnt](_ => ZERO);
      this.cfg := cfg;
      numWqePending, phaseRb, wrSessionErr, doorbells := 0, 0, OK, [];
    }

    method RingDoorbell(pc: nat)
      modifies this`doorbells
      ensures View() == old(View()).(bells := old(doorbells) + [pc])
    {
      doorbells := doorbells + [pc];
    }

    /** Posts a list of requests up to the first invalid one, which `bad` then names. */
    method PostSend(wrs: seq<SendWr>) returns (err: Errno, bad: nat)
      requires Valid()
      modifies this`doorbells, wq, wq.wrid, desc
      ensures Valid()
      ensures Posted(View(), err, bad) == PostList(old(View()), cfg, wrs, 0, 0)
    {
      hide PostOne, ValidateWr, Shape, RingSize, Advances, Wrap16, Wrap32, BitAnd;
      ghost var start := View();
      var curbatch := 0;
      err, bad := OK, 0;
      while bad < |wrs|
        invariant Valid() && bad <= |wrs| && err == OK
        invariant PostList(View(), cfg, wrs, bad, curbatch) == PostList(start, cfg, wrs, 0, 0)
      {
        err := ValidateWr(wq.View(), cfg, wrs[bad]);
        if err != OK {
          break;
        }
        ValidNotFull(wq.View(), cfg, wrs[bad]);
        PostOneRequest(wrs[bad]);
        curbatch := curbatch + 1;
        if curbatch == cfg.maxBatch {
          curbatch := 0;
          RingDoorbell(wq.pc);
        }
        bad := bad + 1;
      }
      if curbatch > 0 {
        RingDoorbell(wq.pc);
      }
    }

    /** Builds one descriptor, writes it to the ring at the producer counter, and advances. */
    method PostOneRequest(wr: SendWr)
      requires Valid() && !Full(wq.View())
      modifies wq, wq.wrid, desc
      ensures Valid() && View() == PostOne(old(View()), wr)
    {
      ghost var sq := View();
      CountersMove(wq.View());
      Slot(wq.pc, desc.Length);
      var d := SetPayload(ZERO, wr);
      if wr.opcode == SendWithImm {
        d := SetImm(d, wr.imm);
      }
      d := CommonFlags(d, wq.phase, OP_SEND);
      var idx := wq.GetNextWridIdx(wr.wrId);
      d := SetAddress(d.(reqId := Wrap16(idx)), wr.ah, wr.remoteQpn, wr.remoteQkey);
      desc[BitAnd(wq.pc, wq.descMask)] := d;
      wq.CountPostedRequest();
      wq.StepProducer();
      assert d == Build(wr, sq.wq.phase, HeadIndex(sq.wq));
      assert wq.View() == Take(sq.wq, wr.wrId);
    }

    // The session calls. The caller holds the queue's lock from WrStart to WrComplete or WrAbort.

    method WrStart()
      requires Valid()
      modifies this`wrSessionErr, this`numWqePending, this`phaseRb
      ensures Valid() && View() == Start(old(View()))
    {
      wrSessionErr := OK;
      numWqePending := 0;
      phaseRb := wq.phase;
    }

    method WrCommon(flags: bv32, wrId: nat, opType: bv8) returns (err: Errno)
      requires Valid() && SessionSq(View())
      modifies this`wrSessionErr, this`numWqePending, wq, wq.wrid, localQueue
      ensures Valid() && View() == Common(old(View()), cfg, flags, wrId, opType)
      ensures err == wrSessionErr
    {
      if wrSessionErr != OK {
        return wrSessionErr;
      }
      err := Validate(wq.View(), cfg, flags);
      if err != OK {
        wrSessionErr := err;
        return;
      }
      ghost var sq := View();
      CountersMove(wq.View());
      var d := CommonFlags(ZERO, wq.phase, opType);
      var idx := wq.GetNextWridIdx(wrId);
      localQueue[numWqePending] := d.(reqId := Wrap16(idx));
      wq.CountPostedRequest();
      wq.StepProducer();
      numWqePending := numWqePending + 1;
      assert wq.View() == Take(sq.wq, wrId);
    }

    method WrSend(flags: bv32, wrId: nat)
      requires Valid() && SessionSq(View())
      modifies this`wrSessionErr, this`numWqePending, wq, wq.wrid, localQueue
      ensures Valid() && View() == Do(old(View()), cfg, Op.WrSend(flags, wrId))
    {
      var _ := WrCommon(flags, wrId, OP_SEND);
    }

    method WrSendImm(flags: bv32, wrId: nat, imm: bv32)
      requires Valid() && SessionSq(View())
      modifies this`wrSessionErr, this`numWqePending, wq, wq.wrid, localQueue
      ensures Valid() && View() == Do(old(View()), cfg, Op.WrSendImm(flags, wrId, imm))
    {
      var err := WrCommon(flags, wrId, OP_SEND);
      if err == OK {
        localQueue[numWqePending - 1] := SetImm(localQueue[numWqePending - 1], imm);
      }
    }

    method WrRdmaRead(flags: bv32, wrId: nat, rkey: bv32, addr: bv64)
      requires Valid() && SessionSq(View())
      modifies this`wrSessionErr, this`numWqePending, wq, wq.wrid, localQueue
      ensures Valid() && View() == Do(old(View()), cfg, Op.WrRdmaRead(flags, wrId, rkey, addr))
    {
      var err := WrCommon(flags, wrId, OP_RDMA_READ);
      if err == OK {
        localQueue[numWqePending - 1] := WithRemote(localQueue[numWqePending - 1], rkey, addr);
      }
    }

    method WrSetSge(sge: Sge)
      requires Valid() && SessionSq(View()) && Ready(View())
      modifies localQueue
      ensures Valid() && View() == Do(old(View()), cfg, SetSge(sge))
    {
      if wrSessionErr == OK {
        localQueue[numWqePending - 1] := WithSge(localQueue[numWqePending - 1], sge);
      }
    }

    method WrSetSgeList(sgl: seq<Sge>)
      requires Valid() && SessionSq(View()) && Ready(View())
      modifies this`wrSessionErr, localQueue
      ensures Valid() && View() == Do(old(View()), cfg, SetSgeList(sgl))
    {
      if wrSessionErr != OK {
        return;
      }
      var d := localQueue[numWqePending - 1];
      if OpType(d) == OP_SEND {
        if |sgl| > cfg.maxSge {
          wrSessionErr := EINVAL;
          return;
        }
        d := d.(data := Sgl(Held(ToTxBufs(sgl), NUM_BUFS)));
      } else if OpType(d) == OP_RDMA_READ {
        if |sgl| > cfg.maxRdmaSge {
          wrSessionErr := EINVAL;
          return;
        }
        d := WithReadList(d, sgl);
      } else {
        return;
      }
      localQueue[numWqePending - 1] := d.(length := Wrap16(|sgl|));
    }

    method WrSetInlineData(bytes: seq<bv8>)
      requires Valid() && SessionSq(View()) && Ready(View())
      modifies this`wrSessionErr, localQueue
      ensures Valid() && View() == Do(old(View()), cfg, SetInline(bytes))
    {
      if wrSessionErr != OK {
        return;
      }
      if |bytes| > cfg.maxInline {
        wrSessionErr := EINVAL;
        return;
      }
      localQueue[numWqePending - 1] := WithInline(localQueue[numWqePending - 1], bytes);
    }

    method WrSetInlineDataList(bufs: seq<Sge>)
      requires Valid() && SessionSq(View()) && Ready(View())
      modifies this`wrSessionErr, localQueue
      ensures Valid() && View() == Do(old(View()), cfg, SetInlineList(bufs))
    {
      if wrSessionErr != OK {
        return;
      }
      if TotalBytes(bufs) > cfg.maxInline {
        wrSessionErr := EINVAL;
        return;
      }
      var bytes := JoinBuffers(bufs);
      localQueue[numWqePending - 1] := WithInline(localQueue[numWqePending - 1], bytes);
    }

    /** The copy loop of the inline setters: each buffer behind the bytes copied so far. */
    method JoinBuffers(bufs: seq<Sge>) returns (bytes: seq<bv8>)
      ensures bytes == Gather(bufs)
    {
      hide Gather;
      var i := 0;
      bytes := [];
      assert bufs[0..] == bufs && bytes + Gather(bufs) == Gather(bufs);
      GatherNone();
      while i < |bufs|
        invariant i <= |bufs| && bytes + Gather(bufs[i..]) == Gather(bufs)
      {
        GatherNext(bufs, i, bytes);
        bytes := bytes + bufs[i].mem;
        i := i + 1;
      }
      assert bufs[i..] == [] && bytes + [] == bytes;
    }

    method WrSetAddr(ah: nat, qpn: nat, qkey: bv32)
      requires Valid() && SessionSq(View()) && Ready(View())
      modifies localQueue
      ensures Valid() && View() == Do(old(View()), cfg, SetAddr(ah, qpn, qkey))
    {
      if wrSessionErr == OK {
        localQueue[numWqePending - 1] := SetAddress(localQueue[numWqePending - 1], ah, qpn, qkey);
      }
    }

    method WrAbort()
      requires Valid() && SessionSq(View())
      modifies wq
      ensures Valid() && View() == Abort(old(View()))
    {
      RollBackCounters(wq.View(), numWqePending, phaseRb);
      wq.RollBackRequests(numWqePending, phaseRb);
    }

    /** Publishes the session, or takes it back if a call failed. */
    method WrComplete() returns (err: Errno)
      requires Valid() && SessionSq(View())
      modifies this`numWqePending, this`doorbells, wq, desc
      ensures Valid() && View() == Complete(old(View()), cfg) && err == wrSessionErr
    {
      if wrSessionErr != OK {
        RollBackCounters(wq.View(), numWqePending, phaseRb);
        wq.RollBackRequests(numWqePending, phaseRb);
      } else {
        CopyStaged();
      }
      return wrSessionErr;
    }

    method CopyChunk(sqDescIdx: nat, localIdx: nat, chunk: nat, ghost ring: seq<TxWqe>, ghost p: nat,
                     ghost staged: seq<TxWqe>)
      requires desc != localQueue && 0 < chunk && sqDescIdx + chunk <= desc.Length == |ring|
      requires localIdx + chunk <= |staged| <= localQueue.Length && staged == localQueue[..|staged|]
      requires sqDescIdx == SlotOf(p + localIdx, |ring|) && desc[..] == WriteAll(ring, p, staged[..localIdx])
      modifies desc
      ensures desc[..] == WriteAll(ring, p, staged[..localIdx + chunk])
    {
      hide SlotOf, WriteAll;
      ghost var before := desc[..];
      PrefixSlice(localQueue, staged, localIdx, localIdx + chunk);
      MmioMemcpyX64(desc, sqDescIdx, localQueue, localIdx, chunk * 64);
      ChunkStep(ring, p, staged, localIdx, chunk, before, desc[..]);
    }

    /** Copies the local queue to the ring in chunks bounded by what is left, the ring's end and the batch. */
    method CopyStaged()
      requires Valid() && SessionSq(View()) && wrSessionErr == OK
      modifies this`numWqePending, this`doorbells, desc
      ensures Valid() && View() == Complete(old(View()), cfg)
    {
      hide SlotOf, Wrap16, Wrap32, BitAnd, WriteAll, Doorbells, Counts, Complete, IsPow2;
      ghost var sq := View();
      ghost var staged := localQueue[..numWqePending];
      var pc := Wrap16(wq.pc - numWqePending);
      ghost var pc0 := pc;
      Slot(pc, desc.Length);
      WriteNothing(sq.ring, pc0);
      var sqDescIdx := BitAnd(pc, wq.descMask);
      var localIdx: nat, curbatch: nat := 0, 0;
      while numWqePending > 0
        invariant localIdx + numWqePending == |staged| <= localQueue.Length && curbatch < cfg.maxBatch
        invariant staged == localQueue[..|staged|]
        invariant pc < U16 && pc == Wrap16(pc0 + localIdx) && sqDescIdx == SlotOf(pc0 + localIdx, desc.Length)
        invariant View() == sq.(ring := WriteAll(sq.ring, pc0, staged[..localIdx]), pending := numWqePending,
                                bells := doorbells)
        invariant doorbells + Doorbells(pc, numWqePending, curbatch, cfg.maxBatch)
               == sq.bells + Doorbells(pc0, |staged|, 0, cfg.maxBatch)
      {
        var chunk := Min(numWqePending, Min(wq.wqeCnt - sqDescIdx, cfg.maxBatch - curbatch));
        CopyChunk(sqDescIdx, localIdx, chunk, sq.ring, pc0, staged);
        MoveOn(pc0, localIdx, chunk, desc.Length);
        DoorbellChunk(pc, numWqePending, curbatch, cfg.maxBatch, chunk);
        numWqePending := numWqePending - chunk;
        localIdx := localIdx + chunk;
        curbatch := curbatch + chunk;
        pc := Wrap16(pc + chunk);
        sqDescIdx := BitAnd(sqDescIdx + chunk, wq.descMask);
        if curbatch == cfg.maxBatch {
          RingDoorbell(pc);
          curbatch := 0;
        }
      }
      LastBell(pc, curbatch, cfg.maxBatch);
      PublishedAll(sq, cfg, pc0, staged);
      if curbatch > 0 {
        RingDoorbell(wq.pc);
      }
    }
  }

  lemma PublishedAll(sq: Sq, cfg: Config, pc0: nat, staged: seq<TxWqe>)
    requires SessionSq(sq) && sq.err == OK && staged == sq.local[..sq.pending] && pc0 == Wrap16(sq.wq.pc - sq.pending)
    ensures staged[..|staged|] == staged && Wrap16(pc0 + |staged|) == sq.wq.pc
    ensures Complete(sq, cfg) == sq.(ring := WriteAll(sq.ring, pc0, staged), pending := 0,
                                     bells := sq.bells + Doorbells(pc0, |staged|, 0, cfg.maxBatch))
  {
    hide Wrap16, Wrap32, WriteAll, Doorbells;
    Wrap16Add(sq.wq.pc - |staged|, |staged|);
  }

  lemma GatherNext(bufs: seq<Sge>, i: nat, bytes: seq<bv8>)
    requires i < |bufs|
    ensures bytes + Gather(bufs[i..]) == (bytes + bufs[i].mem) + Gather(bufs[i + 1..])
  {
    assert bufs[i..][1..] == bufs[i + 1..];
  }

  lemma GatherNone()
    ensures Gather([]) == []
  {
  }

  lemma PrefixSlice(a: array<TxWqe>, s: seq<TxWqe>, lo: nat, hi: nat)
    requires lo <= hi <= |s| <= a.Length && s == a[..|s|]
    ensures a[lo..hi] == s[lo..hi]
  {
  }

  function Min(a: nat, b: nat): nat { if a < b then a else b }

  /** Copying the next chunk of the staged descriptors extends what has been written one at a time. */
  lemma ChunkStep(ring: seq<TxWqe>, p: nat, staged: seq<TxWqe>, l: nat, k: nat, before: seq<TxWqe>, after: seq<TxWqe>)
    requires |ring| > 0 && l + k <= |staged| && before == WriteAll(ring, p, staged[..l])
    requires SlotOf(p + l, |ring|) + k <= |ring|
    requires var at := SlotOf(p + l, |ring|); after == before[..at] + staged[l..l + k] + before[at + k..]
    ensures after == WriteAll(ring, p, staged[..l + k])
  {
    hide SlotOf, WriteAll;
    assert staged[..l + k] == staged[..l] + staged[l..l + k];
    WriteAllSplit(ring, p, staged[..l], staged[l..l + k]);
    WriteChunk(before, p + l, staged[l..l + k]);
  }

  /** The ring index and the 16-bit position move on together. */
  lemma MoveOn(p: nat, l: nat, k: nat, n: nat)
    requires RingSize(n) && 0 < n && SlotOf(p + l, n) + k <= n
    ensures BitAnd(SlotOf(p + l, n) + k, n - 1) == SlotOf(p + (l + k), n)
    ensures Wrap16(Wrap16(p + l) + k) == Wrap16(p + (l + k))
  {
    hide SlotOf, Wrap16, BitAnd;
    Slot(SlotOf(p + l, n) + k, n);
    SlotShift(p + l, k, n);
    Wrap16Add(p + l, k);
  }

  lemma WriteNothing(ring: seq<TxWqe>, p: nat)
    requires |ring| > 0
    ensures WriteAll(ring, p, []) == ring
  {
  }

  lemma LastBell(pc: nat, cur: nat, batch: nat)
    ensures Doorbells(pc, 0, cur, batch) == if cur > 0 then [pc] else []
  {
  }
}
