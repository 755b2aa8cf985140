/**
 The receive queue: one ring descriptor per scatter entry, the first of a request carrying its id and
 the FIRST bit, the last one the LAST bit.
 */
module ReceiveRing {
  import opened Words
  import opened WridPool
  import opened DeviceRing
  import opened SendRing

  datatype RxSge = RxSge(addr: bv64, lkey: bv32, length: nat)

  datatype RecvWr = RecvWr(wrId: nat, sgl: seq<RxSge>)

  datatype RxDesc = RxDesc(lo: bv32, hi: bv32, reqId: nat, length: nat, ctrl: bv32)

  const LKEY_MASK: bv32 := 0x00FF_FFFF
  const FIRST_MASK: bv32 := 0x4000_0000
  const LAST_MASK: bv32 := 0x8000_0000

  /** The receive queue's value: counters, device ring, doorbell writes so far. */
  datatype Rq = Rq(wq: Wq, ring: seq<RxDesc>, bells: seq<nat>)

  datatype RecvConfig = RecvConfig(state: QpState, maxSge: nat)

  // ---- descriptor fields -------------------------------------------------------------------------

  function SetFirst(ctrl: bv32, v: bv32): bv32 { (ctrl & !FIRST_MASK) | ((v << 30) & FIRST_MASK) }

  function SetLast(ctrl: bv32, v: bv32): bv32 { (ctrl & !LAST_MASK) | ((v << 31) & LAST_MASK) }

  function SetLkey(ctrl: bv32, v: bv32): bv32 { (ctrl & !LKEY_MASK) | (v & LKEY_MASK) }

  function IsFirst(d: RxDesc): bool { d.ctrl & FIRST_MASK != 0 }

  function IsLast(d: RxDesc): bool { d.ctrl & LAST_MASK != 0 }

  function ControlWord(first: bool, last: bool, lkey: bv32): bv32 {
    var c := if first then SetLast(SetFirst(0, 1), 0) else 0;
    var c := if last then SetLast(c, 1) else c;
    SetLkey(c, lkey)
  }

  lemma ControlDecodes(first: bool, last: bool, lkey: bv32)
    ensures (ControlWord(first, last, lkey) & 0x4000_0000 != 0) == first
    ensures (ControlWord(first, last, lkey) & 0x8000_0000 != 0) == last
    ensures ControlWord(first, last, lkey) & 0x00FF_FFFF == lkey & 0x00FF_FFFF
  {
  }

  /** The descriptor of the i-th scatter entry of a request. */
  function RxDescOf(idx: nat, sgl: seq<RxSge>, i: nat): RxDesc
    requires i < |sgl|
  {
    RxDesc((sgl[i].addr & 0xFFFF_FFFF) as bv32, (sgl[i].addr >> 32) as bv32,
           if i == 0 then Wrap16(idx) else 0, Wrap16(sgl[i].length),
           ControlWord(i == 0, i == |sgl| - 1, sgl[i].lkey))
  }

  /** What a device takes from a descriptor: the rejoined address, 24 bits of lkey, 16 bits of length. */
  function ReadSge(d: RxDesc): RxSge {
    RxSge(((d.hi as bv64) << 32) | (d.lo as bv64), d.ctrl & LKEY_MASK, d.length)
  }

  /** What of a scatter entry fits a descriptor. */
  function Fits(s: RxSge): RxSge { RxSge(s.addr, s.lkey & 0x00FF_FFFF, Wrap16(s.length)) }

  lemma AddressRejoins(a: bv64)
    ensures ((((a >> 32) as bv32) as bv64) << 32) | (((a & 0xFFFF_FFFF) as bv32) as bv64) == a
  {
  }

  lemma DescReads(idx: nat, sgl: seq<RxSge>, i: nat)
    requires i < |sgl|
    ensures var d := RxDescOf(idx, sgl, i);
            && IsFirst(d) == (i == 0) && IsLast(d) == (i == |sgl| - 1)
            && ReadSge(d) == Fits(sgl[i]) && (i == 0 ==> d.reqId == Wrap16(idx))
  {
    hide ControlWord, Wrap16;
    ControlDecodes(i == 0, i == |sgl| - 1, sgl[i].lkey);
    AddressRejoins(sgl[i].addr);
  }

  // ---- posting -----------------------------------------------------------------------------------

  function ValidateRecv(w: Wq, cfg: RecvConfig, wr: RecvWr): Errno {
    if cfg.state == RESET || cfg.state == ERR then EINVAL
    else if |wr.sgl| > cfg.maxSge then EINVAL
    else if Full(w) then ENOMEM else OK
  }

  ghost predicate RqOk(rq: Rq) {
    Shape(rq.wq) && RingSize(|rq.ring|) && 0 < |rq.ring| == rq.wq.mask + 1
  }

  /** Writes a descriptor at the producer counter and moves over it. */
  function PutRx(rq: Rq, d: RxDesc): (r: Rq)
    requires RqOk(rq)
    ensures RqOk(r) && r == rq.(wq := rq.wq.(pc := Wrap16(rq.wq.pc + 1), phase := r.wq.phase), ring := r.ring)
    ensures r.ring == rq.ring[SlotOf(rq.wq.pc, |rq.ring|) := d]
  {
    Slot(rq.wq.pc, |rq.ring|);
    rq.(ring := rq.ring[BitAnd(rq.wq.pc, rq.wq.mask) := d], wq := StepPc(rq.wq))
  }

  /** Writes the scatter entries from the i-th on, each at the producer counter. */
  function PostSges(rq: Rq, idx: nat, sgl: seq<RxSge>, i: nat): (r: Rq)
    requires RqOk(rq) && i <= |sgl|
    ensures RqOk(r) && r == rq.(wq := rq.wq.(pc := r.wq.pc, phase := r.wq.phase), ring := r.ring)
    decreases |sgl| - i
  {
    if i == |sgl| then rq
    else PostSges(PutRx(rq, RxDescOf(idx, sgl, i)), idx, sgl, i + 1)
  }

  function Accept(w: Wq, wrId: nat): (w': Wq)
    requires Shape(w) && !Full(w)
    ensures Shape(w') && w'.next == w.next + 1 && w'.cnt == w.cnt && w'.pool == w.pool && w'.mask == w.mask
    ensures w'.pc == w.pc && w'.completed == w.completed
    ensures w'.posted == Wrap32(w.posted + 1) && w'.wrid == w.wrid[HeadIndex(w) := wrId]
  {
    CountersMove(w);
    CountPosted(Reserve(w, wrId))
  }

  function PostRecvOne(rq: Rq, wr: RecvWr): (r: Rq)
    requires RqOk(rq) && !Full(rq.wq)
    ensures RqOk(r)
  {
    CountersMove(rq.wq);
    PostSges(rq.(wq := Accept(rq.wq, wr.wrId)), HeadIndex(rq.wq), wr.sgl, 0)
  }

  datatype Received = Received(rq: Rq, err: Errno, bad: nat)

  /** efa_post_recv on the requests from position i on; the doorbell is rung in every case. */
  function PostRecvList(rq: Rq, cfg: RecvConfig, wrs: seq<RecvWr>, i: nat): (r: Received)
    requires RqOk(rq) && i <= |wrs|
    ensures RqOk(r.rq) && i <= r.bad <= |wrs|
    decreases |wrs| - i
  {
    if i == |wrs| then Received(rq.(bells := rq.bells + [rq.wq.pc]), OK, i)
    else
      var err := ValidateRecv(rq.wq, cfg, wrs[i]);
      if err != OK then Received(rq.(bells := rq.bells + [rq.wq.pc]), err, i)
      else PostRecvList(PostRecvOne(rq, wrs[i]), cfg, wrs, i + 1)
  }

  // ---- what is written ---------------------------------------------------------------------------

  /** The descriptors of a request from its i-th entry on. */
  function RequestDescs(idx: nat, sgl: seq<RxSge>, i: nat): (r: seq<RxDesc>)
    requires i <= |sgl|
    ensures |r| == |sgl| - i
    decreases |sgl| - i
  {
    if i == |sgl| then [] else [RxDescOf(idx, sgl, i)] + RequestDescs(idx, sgl, i + 1)
  }

  /** The descriptors of a list of requests that are given the indices pool[next..] in order. */
  function ListDescs(pool: seq<nat>, next: nat, wrs: seq<RecvWr>): seq<RxDesc>
    requires next + |wrs| <= |pool|
    decreases |wrs|
  {
    if wrs == [] then [] else RequestDescs(pool[next], wrs[0].sgl, 0) + ListDescs(pool, next + 1, wrs[1..])
  }

  /** The work-request ids after these requests were recorded under the indices pool[next..]. */
  function RecordAll(wrid: seq<nat>, pool: seq<nat>, next: nat, wrs: seq<RecvWr>): (r: seq<nat>)
    requires next + |wrs| <= |pool| && forall i :: next <= i < |pool| ==> pool[i] < |wrid|
    ensures |r| == |wrid|
    decreases |wrs|
  {
    if wrs == [] then wrid else RecordAll(wrid[pool[next] := wrs[0].wrId], pool, next + 1, wrs[1..])
  }

  /** While the free indices are distinct, each request finds its own id under its index; no other record changes. */
  lemma {:induction false} RecordAllMeans(wrid: seq<nat>, pool: seq<nat>, next: nat, wrs: seq<RecvWr>)
    requires next + |wrs| <= |pool| && forall i :: next <= i < |pool| ==> pool[i] < |wrid|
    requires forall i, j :: next <= i < j < |pool| ==> pool[i] != pool[j]
    ensures forall k :: 0 <= k < |wrs| ==> RecordAll(wrid, pool, next, wrs)[pool[next + k]] == wrs[k].wrId
    ensures forall x :: 0 <= x < |wrid| && (forall k :: next <= k < next + |wrs| ==> pool[k] != x) ==>
              RecordAll(wrid, pool, next, wrs)[x] == wrid[x]
    decreases |wrs|
  {
    if wrs != [] {
      var wrid1 := wrid[pool[next] := wrs[0].wrId];
      RecordAllMeans(wrid1, pool, next + 1, wrs[1..]);
      var r := RecordAll(wrid, pool, next, wrs);
      assert r == RecordAll(wrid1, pool, next + 1, wrs[1..]);
      forall k | 0 <= k < |wrs| ensures r[pool[next + k]] == wrs[k].wrId {
        if k > 0 { assert wrs[k] == wrs[1..][k - 1] && pool[next + k] == pool[next + 1 + (k - 1)]; }
      }
    }
  }

  lemma {:induction false} PostSgesWrites(rq: Rq, idx: nat, sgl: seq<RxSge>, i: nat)
    requires RqOk(rq) && i <= |sgl|
    ensures var r := PostSges(rq, idx, sgl, i);
            && r.ring == WriteAll(rq.ring, rq.wq.pc, RequestDescs(idx, sgl, i))
            && r.wq.pc == Wrap16(rq.wq.pc + (|sgl| - i))
    decreases |sgl| - i
  {
    hide RxDescOf, SlotOf, PutRx, Sized, Wrap16, Wrap32;
    if i < |sgl| {
      var rq1 := PutRx(rq, RxDescOf(idx, sgl, i));
      PostSgesWrites(rq1, idx, sgl, i + 1);
      Wrap16Add(rq.wq.pc + 1, |sgl| - i - 1);
      Wrap16Add(rq.wq.pc + 1, 0);
      WriteAllWraps(rq1.ring, rq1.wq.pc, rq.wq.pc + 1, RequestDescs(idx, sgl, i + 1));
      assert RequestDescs(idx, sgl, i)[1..] == RequestDescs(idx, sgl, i + 1);
    }
  }

  /** The requests a receive post accepts are written to the ring in order, entry by entry. */
  ghost predicate Receives(rq: Rq, done: seq<RecvWr>, out: Rq)
    requires RqOk(rq)
  {
    && |done| <= rq.wq.cnt - rq.wq.next && out.wq.next == rq.wq.next + |done|
    && out.wq.pool == rq.wq.pool && out.wq.completed == rq.wq.completed
    && out.wq.posted == Wrap32(rq.wq.posted + |done|)
    && out.wq.wrid == RecordAll(rq.wq.wrid, rq.wq.pool, rq.wq.next, done)
    && var ds := ListDescs(rq.wq.pool, rq.wq.next, done);
    && out.ring == WriteAll(rq.ring, rq.wq.pc, ds)
    && out.wq.pc == Wrap16(rq.wq.pc + |ds|) && out.bells == rq.bells + [out.wq.pc]
  }

  lemma ReceivesNone(rq: Rq)
    requires RqOk(rq)
    ensures Receives(rq, [], rq.(bells := rq.bells + [rq.wq.pc]))
  {
    assert ListDescs(rq.wq.pool, rq.wq.next, []) == [];
    assert Wrap16(rq.wq.pc) == rq.wq.pc;
  }

  lemma PostRecvOneWrites(rq: Rq, wr: RecvWr)
    requires RqOk(rq) && !Full(rq.wq)
    ensures rq.wq.next < rq.wq.cnt
    ensures var r := PostRecvOne(rq, wr);
            && r.ring == WriteAll(rq.ring, rq.wq.pc, RequestDescs(HeadIndex(rq.wq), wr.sgl, 0))
            && r.wq.pc == Wrap16(rq.wq.pc + |wr.sgl|) && r.bells == rq.bells
            && r.wq.next == rq.wq.next + 1 && r.wq.pool == rq.wq.pool && r.wq.cnt == rq.wq.cnt
            && r.wq.posted == Wrap32(rq.wq.posted + 1) && r.wq.completed == rq.wq.completed
            && r.wq.wrid == rq.wq.wrid[HeadIndex(rq.wq) := wr.wrId]
            && |r.ring| == |rq.ring|
  {
    hide Accept, PostSges, WriteAll, RequestDescs, Wrap16;
    CountersMove(rq.wq);
    PostSgesWrites(rq.(wq := Accept(rq.wq, wr.wrId)), HeadIndex(rq.wq), wr.sgl, 0);
  }

  lemma ReceivesOneMore(rq: Rq, wr: RecvWr, rest: seq<RecvWr>, out: Rq)
    requires RqOk(rq) && !Full(rq.wq) && Receives(PostRecvOne(rq, wr), rest, out)
    ensures Receives(rq, [wr] + rest, out)
  {
    hide PostRecvOne, WriteAll, RequestDescs, Counts, Wrap16, Wrap32, RingSize;
    PostRecvOneWrites(rq, wr);
    var rq1 := PostRecvOne(rq, wr);
    var a, b := RequestDescs(HeadIndex(rq.wq), wr.sgl, 0), ListDescs(rq1.wq.pool, rq1.wq.next, rest);
    assert ([wr] + rest)[1..] == rest;
    Wrap32Add(rq.wq.posted + 1, |rest|);
    WriteAllSplit(rq.ring, rq.wq.pc, a, b);
    Wrap16Add(rq.wq.pc + |a|, 0);
    WriteAllWraps(rq1.ring, rq1.wq.pc, rq.wq.pc + |a|, b);
    Wrap16Add(rq.wq.pc + |a|, |b|);
  }

  /**
   A receive post accepts exactly the requests before the first invalid one, which it names; it writes
   their descriptors in order and rings the doorbell at the producer counter.
   */
  lemma {:induction false} PostRecvPostsPrefix(rq: Rq, cfg: RecvConfig, wrs: seq<RecvWr>, i: nat)
    requires RqOk(rq) && i <= |wrs|
    ensures var r := PostRecvList(rq, cfg, wrs, i);
            && Receives(rq, wrs[i..r.bad], r.rq)
            && (r.err == OK <==> r.bad == |wrs|)
            && (forall k :: i <= k < r.bad ==> |wrs[k].sgl| <= cfg.maxSge)
            && (r.bad < |wrs| ==> ValidateRecv(r.rq.wq, cfg, wrs[r.bad]) == r.err)
    decreases |wrs| - i
  {
    hide PostRecvOne, Receives, Full, RqOk;
    var r := PostRecvList(rq, cfg, wrs, i);
    if i < |wrs| && ValidateRecv(rq.wq, cfg, wrs[i]) == OK {
      PostRecvPostsPrefix(PostRecvOne(rq, wrs[i]), cfg, wrs, i + 1);
      assert wrs[i..r.bad] == [wrs[i]] + wrs[i + 1..r.bad];
      ReceivesOneMore(rq, wrs[i], wrs[i + 1..r.bad], r.rq);
    } else {
      assert wrs[i..i] == [];
      ReceivesNone(rq);
    }
  }

  // ---- what the device reads ---------------------------------------------------------------------

  /** A request as the device sees it. */
  datatype Seen = Seen(reqId: nat, sges: seq<RxSge>)

  /** Splits a stream of descriptors into requests at the FIRST and LAST bits. */
  function Decode(ds: seq<RxDesc>, id: nat, sges: seq<RxSge>): seq<Seen>
    decreases |ds|
  {
    if ds == [] then []
    else
      var id' := if IsFirst(ds[0]) then ds[0].reqId else id;
      var sges' := (if IsFirst(ds[0]) then [] else sges) + [ReadSge(ds[0])];
      if IsLast(ds[0]) then [Seen(id', sges')] + Decode(ds[1..], 0, []) else Decode(ds[1..], id', sges')
  }

  function FitsAll(sgl: seq<RxSge>): (r: seq<RxSge>)
    ensures |r| == |sgl|
  {
    seq(|sgl|, k requires 0 <= k < |sgl| => Fits(sgl[k]))
  }

  /** The requests with at least one scatter entry, with the indices they were given. */
  function Visible(pool: seq<nat>, next: nat, wrs: seq<RecvWr>): seq<Seen>
    requires next + |wrs| <= |pool|
    decreases |wrs|
  {
    if wrs == [] then []
    else
      var head := if wrs[0].sgl == [] then [] else [Seen(Wrap16(pool[next]), FitsAll(wrs[0].sgl))];
      head + Visible(pool, next + 1, wrs[1..])
  }

  /** Reading one request's descriptors from the i-th on completes it. */
  lemma {:induction false} DecodeRequest(idx: nat, sgl: seq<RxSge>, i: nat, rest: seq<RxDesc>, id: nat,
                                      sges: seq<RxSge>)
    requires i < |sgl| && (i > 0 ==> id == Wrap16(idx) && sges == FitsAll(sgl)[..i])
    ensures Decode(RequestDescs(idx, sgl, i) + rest, id, sges)
         == [Seen(Wrap16(idx), FitsAll(sgl))] + Decode(rest, 0, [])
    decreases |sgl| - i
  {
    hide RxDescOf, IsFirst, IsLast, ReadSge, Fits, Wrap16, Decode, FitsAll;
    DescReads(idx, sgl, i);
    var d, ds := RxDescOf(idx, sgl, i), RequestDescs(idx, sgl, i + 1);
    assert RequestDescs(idx, sgl, i) + rest == [d] + (ds + rest);
    DecodeOne(d, ds + rest, id, sges);
    FitsNext(sgl, i);
    if i + 1 < |sgl| {
      DecodeRequest(idx, sgl, i + 1, rest, Wrap16(idx), FitsAll(sgl)[..i + 1]);
    } else {
      assert ds + rest == rest;
    }
  }

  lemma DecodeOne(d: RxDesc, rest: seq<RxDesc>, id: nat, sges: seq<RxSge>)
    ensures var id' := if IsFirst(d) then d.reqId else id;
            var sges' := (if IsFirst(d) then [] else sges) + [ReadSge(d)];
            Decode([d] + rest, id, sges)
            == if IsLast(d) then [Seen(id', sges')] + Decode(rest, 0, []) else Decode(rest, id', sges')
  {
    hide IsFirst, IsLast, ReadSge;
    assert ([d] + rest)[1..] == rest;
  }

  lemma FitsNext(sgl: seq<RxSge>, i: nat)
    requires i < |sgl|
    ensures FitsAll(sgl)[..i + 1] == FitsAll(sgl)[..i] + [Fits(sgl[i])]
    ensures FitsAll(sgl)[..0] == [] && FitsAll(sgl)[..|sgl|] == FitsAll(sgl)
  {
    hide Fits;
  }

  /** Round trip: splitting the written descriptors gives back the requests that have a scatter entry. */
  lemma {:induction false} DecodeRoundTrip(pool: seq<nat>, next: nat, wrs: seq<RecvWr>)
    requires next + |wrs| <= |pool|
    ensures Decode(ListDescs(pool, next, wrs), 0, []) == Visible(pool, next, wrs)
    decreases |wrs|
  {
    hide RequestDescs, FitsAll, Wrap16;
    if wrs != [] {
      var rest := ListDescs(pool, next + 1, wrs[1..]);
      DecodeRoundTrip(pool, next + 1, wrs[1..]);
      if wrs[0].sgl == [] {
        NoDescs(pool[next]);
        assert RequestDescs(pool[next], wrs[0].sgl, 0) + rest == rest;
      } else {
        DecodeRequest(pool[next], wrs[0].sgl, 0, rest, 0, []);
      }
    }
  }

  lemma {:induction false} ListDescsSize(pool: seq<nat>, next: nat, wrs: seq<RecvWr>, maxSge: nat)
    requires next + |wrs| <= |pool| && forall k :: 0 <= k < |wrs| ==> |wrs[k].sgl| <= maxSge
    ensures |ListDescs(pool, next, wrs)| <= |wrs| * maxSge
    decreases |wrs|
  {
    if wrs != [] {
      ListDescsSize(pool, next + 1, wrs[1..], maxSge);
      assert |wrs| * maxSge == (|wrs| - 1) * maxSge + maxSge;
    }
  }

  /**
   Round trip through the ring: the descriptors a receive post wrote, read around the ring from where it
   started and split at FIRST and LAST, are the accepted requests. The ring has room for them because the
   queue was sized for its requests.
   */
  lemma RingRoundTrip(rq: Rq, cfg: RecvConfig, wrs: seq<RecvWr>)
    requires RqOk(rq) && rq.wq.cnt * cfg.maxSge <= |rq.ring|
    ensures var r := PostRecvList(rq, cfg, wrs, 0); var done := wrs[..r.bad];
            && rq.wq.next + |done| <= |rq.wq.pool| && 0 < |r.rq.ring|
            && var n := |ListDescs(rq.wq.pool, rq.wq.next, done)|;
            && n <= |rq.ring| && r.rq.wq.pc == Wrap16(rq.wq.pc + n)
            && Decode(ReadRing(r.rq.ring, rq.wq.pc, n), 0, []) == Visible(rq.wq.pool, rq.wq.next, done)
  {
    hide PostRecvList, Decode, Visible, ListDescs, WriteAll, ReadRing, Wrap16, Wrap32, RecordAll, Counts, RingSize;
    PostRecvPostsPrefix(rq, cfg, wrs, 0);
    var done := wrs[..PostRecvList(rq, cfg, wrs, 0).bad];
    assert wrs[0..PostRecvList(rq, cfg, wrs, 0).bad] == done;
    var ds := ListDescs(rq.wq.pool, rq.wq.next, done);
    ListDescsSize(rq.wq.pool, rq.wq.next, done, cfg.maxSge);
    MulMonotone(|done|, rq.wq.cnt, cfg.maxSge);
    ReadsBack(rq.ring, rq.wq.pc, ds);
    DecodeRoundTrip(rq.wq.pool, rq.wq.next, done);
  }

  lemma NoDescs(idx: nat)
    ensures RequestDescs(idx, [], 0) == []
  {
  }

  lemma {:induction false} VisibleCount(pool: seq<nat>, next: nat, wrs: seq<RecvWr>)
    requires next + |wrs| <= |pool|
    ensures |Visible(pool, next, wrs)| <= |wrs|
    ensures |Visible(pool, next, wrs)| == |wrs| <==> forall k :: 0 <= k < |wrs| ==> wrs[k].sgl != []
    decreases |wrs|
  {
    hide FitsAll, Wrap16;
    if wrs != [] {
      VisibleCount(pool, next + 1, wrs[1..]);
      assert forall k :: 0 < k < |wrs| ==> wrs[k] == wrs[1..][k - 1];
      if forall k :: 0 <= k < |wrs| ==> wrs[k].sgl != [] {
        forall k | 0 <= k < |wrs[1..]| ensures wrs[1..][k].sgl != [] { assert wrs[1..][k] == wrs[k + 1]; }
      }
    }
  }

  /**
   Every accepted receive reaches the device exactly when each has a scatter entry: one with none takes
   an index but writes no descriptor, so nothing can ever complete it.
   */
  lemma AllReceivesReachDevice(pool: seq<nat>, next: nat, wrs: seq<RecvWr>)
    requires next + |wrs| <= |pool|
    ensures |Decode(ListDescs(pool, next, wrs), 0, [])| == |wrs| <==> forall k :: 0 <= k < |wrs| ==> wrs[k].sgl != []
  {
    hide Decode, ListDescs, Visible;
    DecodeRoundTrip(pool, next, wrs);
    VisibleCount(pool, next, wrs);
  }
}
