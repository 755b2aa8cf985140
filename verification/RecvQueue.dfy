/** The receive queue of a queue pair, updated in place. */
module RecvQueues {
  import opened Words
  import opened WridPool
  import opened SendRing
  import opened ReceiveRing

  class RecvQueue {
    const wq: WorkQueue
    const buf: array<RxDesc>
    var cfg: RecvConfig
    var doorbells: seq<nat>

    function View(): Rq
      reads this, wq, wq.wrid, wq.wridIdxPool, buf
    {
      Rq(wq.View(), buf[..], doorbells)
    }

    ghost predicate Valid()
      reads this, wq, wq.wrid, wq.wridIdxPool, buf
    {
      wq.Valid() && RqOk(View())
    }

    constructor (cnt: nat, size: nat, cfg: RecvConfig)
      requires RingSize(size) && 0 < size && cnt <= size
      ensures Valid() && this.cfg == cfg && doorbells == []
      ensures fresh(wq) && fresh(wq.wrid) && fresh(wq.wridIdxPool) && fresh(buf)
      ensures PoolInv(wq.View(), {}) && wq.View() == Fresh(cnt, size - 1, wq.View().wrid)
    {
      wq := new WorkQueue(cnt, size - 1);
      buf := new RxDesc[size](_ => RxDesc(0, 0, 0, 0, 0));
      this.cfg := cfg;
      doorbells := [];
    }

    /** Posts a list of receives up to the first invalid one, which `bad` then names. */
    method PostRecv(wrs: seq<RecvWr>) returns (err: Errno, bad: nat)
      requires Valid()
      modifies this`doorbells, wq, wq.wrid, buf
      ensures Valid()
      ensures Received(View(), err, bad) == PostRecvList(old(View()), cfg, wrs, 0)
    {
      hide PostRecvOne, ValidateRecv, Shape, RingSize, Wrap16, Wrap32, BitAnd;
      ghost var start := View();
      err, bad := OK, 0;
      while bad < |wrs|
        invariant Valid() && bad <= |wrs| && err == OK
        invariant PostRecvList(View(), cfg, wrs, bad) == PostRecvList(start, cfg, wrs, 0)
      {
        err := ValidateRecv(wq.View(), cfg, wrs[bad]);
        if err != OK {
          break;
        }
        ValidNotFull(wq.View(), cfg, wrs[bad]);
        PostRequest(wrs[bad]);
        bad := bad + 1;
      }
      doorbells := doorbells + [wq.pc];
    }

    /** Takes an index for a request and writes one descriptor per scatter entry. */
    method PostRequest(wr: RecvWr)
      requires Valid() && !Full(wq.View())
      modifies wq, wq.wrid, buf
      ensures Valid() && View() == PostRecvOne(old(View()), wr)
    {
      hide RxDescOf, PutRx, BitAnd, Wrap32, Accept, Full;
      var idx := TakeIndex(wr.wrId);
      ghost var accepted := View();
      var i := 0;
      while i < |wr.sgl|
        invariant Valid() && i <= |wr.sgl|
        invariant PostSges(View(), idx, wr.sgl, i) == PostSges(accepted, idx, wr.sgl, 0)
      {
        WriteDesc(RxDescOf(idx, wr.sgl, i));
        i := i + 1;
      }
    }

    method TakeIndex(wrId: nat) returns (idx: nat)
      requires Valid() && !Full(wq.View())
      modifies wq, wq.wrid
      ensures old(wq.wridIdxPoolNext) < wq.wqeCnt && idx == HeadIndex(old(wq.View()))
      ensures Valid() && View() == old(View()).(wq := Accept(old(wq.View()), wrId))
    {
      CountersMove(wq.View());
      idx := wq.GetNextWridIdx(wrId);
      wq.CountPostedRequest();
    }

    method WriteDesc(d: RxDesc)
      requires Valid()
      modifies wq`pc, wq`phase, buf
      ensures Valid() && View() == PutRx(old(View()), d)
    {
      Slot(wq.pc, buf.Length);
      buf[BitAnd(wq.pc, wq.descMask)] := d;
      wq.StepProducer();
    }
  }

  lemma ValidNotFull(w: Wq, cfg: RecvConfig, wr: RecvWr)
    requires ValidateRecv(w, cfg, wr) == OK
    ensures !Full(w)
  {
  }
}
