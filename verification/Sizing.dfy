/** How big queues and rings are made: the power-of-two rounding, completion queues and queue pairs. */
module Sizing {
  import opened Words
  import opened CompletionRing
  import opened Polling
  import opened WridPool
  import opened QueueMachine

  /** The smallest power of two that is at least n, starting from p. */
  function RoundFrom(p: nat, n: nat): (r: nat)
    requires p > 0
    ensures r >= 1
    decreases n - p
  {
    if p < n then RoundFrom(2 * p, n) else p
  }

  /** roundup_pow_of_two of the Windows build, which takes 1 to 2. */
  function RoundUp(n: nat): (r: nat)
    ensures r >= 1
  {
    if n == 1 then 2 else RoundFrom(1, n)
  }

  const LARGEST := 0x8000_0000

  lemma Powers()
    ensures Pow2(16) == U16 && Pow2(15) == 0x8000 && Pow2(31) == LARGEST && Pow2(32) == U32
  {
    assert Pow2(8) == 256;
    Pow2Sum(8, 8);
    assert Pow2(16) == 2 * Pow2(15);
    Pow2Sum(16, 16);
    assert Pow2(32) == 2 * Pow2(31);
  }

  lemma {:induction false} RoundFromMeans(p: nat, n: nat, k: nat)
    requires p == Pow2(k) && (p == 1 || p < 2 * n)
    ensures var r := RoundFrom(p, n);
            && IsPow2(r) && p <= r && n <= r && (r == 1 || r < 2 * n)
    decreases n - p
  {
    if p < n {
      assert 2 * p == Pow2(k + 1);
      RoundFromMeans(2 * p, n, k + 1);
    }
  }

  /** Powers of two are less than a factor of two apart only when equal. */
  lemma Pow2Gap(a: nat, b: nat)
    requires IsPow2(a) && IsPow2(b) && a < b
    ensures 2 * a <= b
  {
    var j: nat, k: nat :| Pow2(j) == a && Pow2(k) == b;
    if j < k { Pow2Grows(j, k); } else if k < j { Pow2Grows(k, j); }
  }

  /** The rounding gives the least power of two that is large enough, except that 1 gives 2. */
  lemma RoundUpMeans(n: nat)
    ensures IsPow2(RoundUp(n)) && n <= RoundUp(n) && 1 <= RoundUp(n)
    ensures n != 1 ==> forall m: nat :: IsPow2(m) && n <= m ==> RoundUp(n) <= m
    ensures n != 0 ==> 2 <= RoundUp(n)
    ensures n == 1 ==> RoundUp(n) == 2
  {
    assert Pow2(0) == 1 && Pow2(1) == 2;
    RoundFromMeans(1, n, 0);
    if n != 1 {
      forall m: nat | IsPow2(m) && n <= m ensures RoundUp(n) <= m {
        if m < RoundUp(n) { Pow2Gap(m, RoundUp(n)); }
      }
    }
  }

  /** Rounding up to a bound that is itself a power of two. */
  lemma RoundUpBelow(n: nat, bound: nat)
    requires IsPow2(bound) && 2 <= bound
    ensures RoundUp(n) <= bound <==> n <= bound
  {
    RoundUpMeans(n);
    assert Pow2(1) == 2;
  }

  /** The loop on a 32-bit word. It is called only where it ends: see RoundingEnds. */
  method RoundUpPow2(n: nat) returns (r: nat)
    requires n <= LARGEST
    ensures r == RoundUp(n) && r <= LARGEST
  {
    var roundup := 1;
    Powers();
    RoundUpBelow(n, LARGEST);
    if n == 1 { return Wrap32(2 * roundup); }
    ghost var k := 0;
    while roundup < n
      invariant roundup == Pow2(k) && roundup <= LARGEST
      invariant RoundFrom(roundup, n) == RoundUp(n)
      decreases n - roundup
    {
      Pow2Gap32(k, n);
      roundup := Wrap32(2 * roundup);
      k := k + 1;
    }
    return roundup;
  }

  lemma Pow2Gap32(k: nat, n: nat)
    requires Pow2(k) < n <= LARGEST
    ensures 2 * Pow2(k) <= LARGEST
  {
    Powers();
    if k >= 31 && k > 31 { Pow2Grows(31, k); }
    if k < 31 { Pow2Grows(k, 31); }
  }

  /** The loop variable after k shifts of a 32-bit word: it becomes 0 and stays there. */
  lemma {:induction false} ShiftedOut(k: nat)
    ensures Wrap32(Pow2(k)) == if k < 32 then Pow2(k) else 0
    ensures k < 32 ==> Pow2(k) <= LARGEST
  {
    Powers();
    if k < 31 { Pow2Grows(k, 31); }
    if k >= 32 {
      Pow2Sum(k - 32, 32);
      DivModUnique(Pow2(k), U32, Pow2(k - 32), 0);
    }
  }

  /** The loop ends exactly for n up to 2^31: beyond, no shift of the word ever reaches n. */
  lemma RoundingEnds(n: nat)
    ensures (exists k: nat :: Wrap32(Pow2(k)) >= n) <==> n <= LARGEST
  {
    Powers();
    ShiftedOut(31);
    if k: nat :| Wrap32(Pow2(k)) >= n { ShiftedOut(k); }
  }

  // ---- completion queues -------------------------------------------------------------------------

  /** create_cq rounds, ibv_cmd_create_cq_ex rounds again and refuses what does not fit 16 bits. */
  function CqDepth(cqe: nat): Option<nat> {
    var depth := RoundUp(RoundUp(cqe));
    if depth > 0xFFFF then None else Some(depth)
  }

  /** Rounding twice is harmless except for 0, where the second rounding makes 2 of 1. */
  lemma RoundTwice(n: nat)
    ensures RoundUp(RoundUp(n)) == RoundUp(n) <==> n != 0
  {
    RoundUpMeans(n);
    RoundUpMeans(RoundUp(n));
    if n == 0 { assert RoundUp(0) == 1; }
  }

  /**
   A request is accepted exactly up to 32768 entries, and then gets the least power of two that is large
   enough, but at least 2.
   */
  lemma CqDepthAccepted(cqe: nat)
    ensures CqDepth(cqe).Some? <==> cqe <= 0x8000
    ensures 2 <= cqe <= 0x8000 ==> forall m: nat :: IsPow2(m) && cqe <= m ==> CqDepth(cqe).value <= m
    ensures cqe <= 1 ==> CqDepth(cqe) == Some(2)
    ensures CqDepth(cqe).Some? ==> RingSize(CqDepth(cqe).value) && CqDepth(cqe).value >= 2 && CqDepth(cqe).value >= cqe
  {
    Powers();
    RoundTwice(cqe);
    RoundUpMeans(cqe);
    RoundUpBelow(cqe, 0x8000);
    assert RoundUp(0) == 1 && RoundUp(1) == 2;
    assert Pow2(1) == 2;
    if RoundUp(cqe) > 0x8000 { Pow2Gap(0x8000, RoundUp(cqe)); }
  }

  method CreateCq(cqe: nat) returns (depth: Option<nat>)
    requires cqe <= LARGEST
    ensures depth == CqDepth(cqe)
  {
    Powers();
    var once := RoundUpPow2(cqe);
    var twice := RoundUpPow2(once);
    depth := if twice > 0xFFFF then None else Some(twice);
  }

  /** The first byte of an entry: the sub queue's stretch, then the entry within it. */
  function ByteOf(sub: nat, entry: nat, depth: nat, cqeSize: nat): nat {
    sub * (cqeSize * depth) + entry * cqeSize
  }

  /** Entries lie where one array of all sub queues' entries would put them, so they tile the buffer. */
  lemma EntriesTile(sub: nat, entry: nat, subs: nat, depth: nat, cqeSize: nat)
    requires sub < subs && entry < depth
    ensures ByteOf(sub, entry, depth, cqeSize) == (sub * depth + entry) * cqeSize
    ensures ByteOf(sub, entry, depth, cqeSize) + cqeSize <= depth * subs * cqeSize
  {
    assert sub * (cqeSize * depth) == (sub * depth) * cqeSize;
    MulMonotone(sub + 1, subs, depth);
    assert (sub + 1) * depth == sub * depth + depth;
    assert subs * depth == depth * subs;
    MulMonotone(sub * depth + entry + 1, depth * subs, cqeSize);
  }

  /** Different entries never share a byte. */
  lemma EntriesApart(sub: nat, entry: nat, sub': nat, entry': nat, depth: nat, cqeSize: nat)
    requires entry < depth && entry' < depth && (sub < sub' || (sub == sub' && entry < entry'))
    ensures ByteOf(sub, entry, depth, cqeSize) + cqeSize <= ByteOf(sub', entry', depth, cqeSize)
  {
    hide ByteOf;
    var m, m' := sub * depth + entry, sub' * depth + entry';
    InOrder(sub, entry, sub', entry', depth);
    MulMonotone(m + 1, m', cqeSize);
    assert (m + 1) * cqeSize == m * cqeSize + cqeSize;
    EntriesTile(sub, entry, sub + 1, depth, cqeSize);
    EntriesTile(sub', entry', sub' + 1, depth, cqeSize);
  }

  lemma InOrder(sub: nat, entry: nat, sub': nat, entry': nat, depth: nat)
    requires entry < depth && (sub < sub' || (sub == sub' && entry < entry'))
    ensures sub * depth + entry < sub' * depth + entry'
  {
    if sub < sub' {
      MulMonotone(sub + 1, sub', depth);
      assert (sub + 1) * depth == sub * depth + depth;
    }
  }

  /** Every byte of the buffer belongs to some entry. */
  lemma EveryByteCovered(b: nat, subs: nat, depth: nat, cqeSize: nat)
    requires 0 < depth && 0 < cqeSize && b < depth * subs * cqeSize
    ensures exists sub: nat, entry: nat ::
              sub < subs && entry < depth &&
              ByteOf(sub, entry, depth, cqeSize) <= b < ByteOf(sub, entry, depth, cqeSize) + cqeSize
  {
    hide ByteOf;
    QuotientBelow(b, depth * subs, cqeSize);
    var p := b / cqeSize;
    assert depth * subs == subs * depth;
    QuotientBelow(p, subs, depth);
    EntriesTile(p / depth, p % depth, subs, depth, cqeSize);
  }

  lemma QuotientBelow(b: nat, n: nat, size: nat)
    requires 0 < size && b < n * size
    ensures 0 <= b / size < n && b == (b / size) * size + b % size
  {
    assert b == (b / size) * size + b % size;
    if b / size >= n { MulMonotone(n, b / size, size); }
  }

  // ---- queue pairs -------------------------------------------------------------------------------

  datatype SqSize = SqSize(wqeCnt: nat, descMask: nat, maxBatchWr: nat)

  datatype RqSize = RqSize(wqeCnt: nat, descMask: nat, maxSge: nat)

  /** The send queue of efa_setup_qp, and the doorbell batch of efa_sq_initialize. */
  function SendSize(maxSendWr: nat, minSqWr: nat, maxTxBatch: nat): SqSize {
    var n := RoundUp(if maxSendWr < minSqWr then minSqWr else maxSendWr);
    var batch := if maxTxBatch != 0 then (maxTxBatch * 64) / 64 else 0xFFFF;
    SqSize(n, Wrap16(n - 1), if minSqWr != 0 && n - 1 < batch then n - 1 else batch)
  }

  /**
   The product has 32 bits, the descriptor count and its mask 16. None is a division by zero, which a
   queue pair that asks for no receive scatter entries runs into: nothing checks for it.
   */
  function RecvSize(maxRecvWr: nat, maxRecvSge: nat): Option<RqSize> {
    var cnt := Wrap16(RoundUp(Wrap32(maxRecvSge * maxRecvWr)));
    if maxRecvSge == 0 then None else Some(RqSize(cnt / maxRecvSge, Wrap16(cnt - 1), maxRecvSge))
  }

  /**
   The send queue has the least power of two that holds what was asked for and the device's minimum, but 2
   for 1; its mask matches unless it exceeds 65536 entries. The batch is the device's, or 65535, but less
   than the queue if the device has a minimum.
   */
  lemma SendSizeMeans(maxSendWr: nat, minSqWr: nat, maxTxBatch: nat)
    requires maxTxBatch < U16 && minSqWr < U16
    ensures var s := SendSize(maxSendWr, minSqWr, maxTxBatch); var b := if maxTxBatch == 0 then 0xFFFF else maxTxBatch;
            && maxSendWr <= s.wqeCnt && minSqWr <= s.wqeCnt && IsPow2(s.wqeCnt)
            && (if maxSendWr <= 1 && minSqWr <= 1 && maxSendWr + minSqWr > 0 then s.wqeCnt == 2
                else forall m: nat :: IsPow2(m) && maxSendWr <= m && minSqWr <= m ==> s.wqeCnt <= m)
            && (s.wqeCnt == s.descMask + 1 <==> maxSendWr <= U16)
            && 1 <= s.maxBatchWr < U16 && s.maxBatchWr <= b
            && (minSqWr == 0 ==> s.maxBatchWr == b)
            && (minSqWr != 0 ==>
                  s.maxBatchWr < s.wqeCnt && (s.maxBatchWr == b || s.maxBatchWr == s.wqeCnt - 1))
  {
    var n := if maxSendWr < minSqWr then minSqWr else maxSendWr;
    Powers();
    RoundUpMeans(n);
    RoundUpBelow(n, U16);
  }

  /** The least power of two that holds n, but 2 for 1. */
  ghost predicate LeastRing(n: nat, size: nat) {
    IsPow2(size) && if n == 1 then size == 2 else n <= size && forall m: nat :: IsPow2(m) && n <= m ==> size <= m
  }

  /**
   Sizing a receive queue divides by zero exactly when no scatter entries are asked for. Otherwise it
   takes as many requests as were asked for exactly when their descriptors fit the largest 16-bit ring;
   whatever was asked for, the requests it does take fit its ring. The ring is the least that holds the
   descriptors, and takes as many requests as it has room for.
   */
  lemma RecvSizeMeans(maxRecvWr: nat, maxRecvSge: nat)
    requires Wrap32(maxRecvSge * maxRecvWr) <= LARGEST
    ensures RecvSize(maxRecvWr, maxRecvSge) == None <==> maxRecvSge == 0
    ensures maxRecvSge != 0 ==>
              var r := RecvSize(maxRecvWr, maxRecvSge).value;
              && (maxRecvWr <= r.wqeCnt <==> maxRecvSge * maxRecvWr <= 0x8000)
              && r.wqeCnt * r.maxSge <= r.descMask + 1
              && IsPow2(r.descMask + 1)
              && (maxRecvSge * maxRecvWr <= 0x8000 ==> RingSize(r.descMask + 1))
              && (Wrap32(maxRecvSge * maxRecvWr) > 0x8000 ==> r.wqeCnt == 0)
              && (Wrap32(maxRecvSge * maxRecvWr) <= 0x8000 ==>
                    && Wrap32(maxRecvSge * maxRecvWr) <= r.descMask + 1 < (r.wqeCnt + 1) * maxRecvSge
                    && LeastRing(Wrap32(maxRecvSge * maxRecvWr), r.descMask + 1))
              && r.maxSge == maxRecvSge
  {
    if maxRecvSge != 0 { RecvSizeOf(maxRecvWr, maxRecvSge); }
  }

  lemma RecvSizeOf(maxRecvWr: nat, maxRecvSge: nat)
    requires 1 <= maxRecvSge && Wrap32(maxRecvSge * maxRecvWr) <= LARGEST
    ensures RecvSize(maxRecvWr, maxRecvSge).Some?
    ensures var r := RecvSize(maxRecvWr, maxRecvSge).value;
            && (maxRecvWr <= r.wqeCnt <==> maxRecvSge * maxRecvWr <= 0x8000)
            && r.wqeCnt * r.maxSge <= r.descMask + 1
            && IsPow2(r.descMask + 1)
            && (maxRecvSge * maxRecvWr <= 0x8000 ==> RingSize(r.descMask + 1))
            && (Wrap32(maxRecvSge * maxRecvWr) > 0x8000 ==> r.wqeCnt == 0)
            && (Wrap32(maxRecvSge * maxRecvWr) <= 0x8000 ==>
                  && Wrap32(maxRecvSge * maxRecvWr) <= r.descMask + 1 < (r.wqeCnt + 1) * maxRecvSge
                  && LeastRing(Wrap32(maxRecvSge * maxRecvWr), r.descMask + 1))
            && r.maxSge == maxRecvSge
  {
    hide RoundUp, IsPow2, Wrap32;
    var product := maxRecvSge * maxRecvWr;
    MulSign(maxRecvWr, maxRecvSge);
    var asked := Wrap32(product);
    var up := RoundUp(asked);
    PowersArePowers();
    RoundUpMeans(asked);
    RoundUpBelow(asked, 0x8000);
    if up > 0x8000 {
      Pow2Gap(0x8000, up);
      Multiple16(up);
      QuotientFits(0, maxRecvSge, maxRecvWr);
    } else {
      QuotientFits(up, maxRecvSge, maxRecvWr);
    }
  }

  /** Dividing the descriptors among requests of up to `sge` each. */
  lemma QuotientFits(cnt: nat, sge: nat, wr: nat)
    requires 1 <= sge
    ensures cnt < (cnt / sge + 1) * sge
    ensures (cnt / sge) * sge <= cnt && (cnt == 0 ==> cnt / sge == 0)
    ensures wr <= cnt / sge <==> sge * wr <= cnt
  {
    var q := cnt / sge;
    assert cnt == q * sge + cnt % sge;
    assert sge * wr == wr * sge;
    if wr <= q { MulMonotone(wr, q, sge); } else { MulMonotone(q + 1, wr, sge); }
    assert (q + 1) * sge == q * sge + sge;
    if cnt == 0 { DivModUnique(0, sge, 0, 0); }
  }

  lemma PowersArePowers()
    ensures IsPow2(0x8000) && IsPow2(U16) && IsPow2(LARGEST)
  {
    Powers();
  }

  /** Powers of two from 65536 on lose all their bits in a 16-bit word. */
  lemma Multiple16(p: nat)
    requires IsPow2(p) && U16 <= p
    ensures Wrap16(p) == 0
  {
    Powers();
    var k: nat :| Pow2(k) == p;
    if k < 16 { Pow2Grows(k, 16); }
    Pow2Sum(k - 16, 16);
    DivModUnique(p, U16, Pow2(k - 16), 0);
  }

  /** efa_setup_qp and the batch limit, on capabilities for which the rounding ends. */
  method SetupQp(maxSendWr: nat, minSqWr: nat, maxTxBatch: nat, maxRecvWr: nat, maxRecvSge: nat)
    returns (sq: SqSize, rq: Option<RqSize>)
    requires maxSendWr <= LARGEST && minSqWr < U16 && maxTxBatch < U16
    requires Wrap32(maxRecvSge * maxRecvWr) <= LARGEST
    ensures sq == SendSize(maxSendWr, minSqWr, maxTxBatch) && rq == RecvSize(maxRecvWr, maxRecvSge)
  {
    hide RoundUp, Wrap16, Wrap32;
    var n := RoundUpPow2(if maxSendWr < minSqWr then minSqWr else maxSendWr);
    var batch := if maxTxBatch != 0 then (maxTxBatch * 64) / 64 else 0xFFFF;
    if minSqWr != 0 { batch := if n - 1 < batch then n - 1 else batch; }
    sq := SqSize(n, Wrap16(n - 1), batch);
    var rounded := RoundUpPow2(Wrap32(maxRecvSge * maxRecvWr));
    var cnt := Wrap16(rounded);
    if maxRecvSge == 0 { return sq, None; }
    rq := Some(RqSize(cnt / maxRecvSge, Wrap16(cnt - 1), maxRecvSge));
  }

  /** A send queue so sized meets what the data path asks of its ring, which one descriptor a request fills. */
  lemma SendQueueFits(q: Queue, maxSendWr: nat, minSqWr: nat, maxTxBatch: nat)
    requires maxSendWr <= 0x8000 && minSqWr <= 0x8000 && maxTxBatch < U16
    requires var s := SendSize(maxSendWr, minSqWr, maxTxBatch);
             q.wq.cnt == s.wqeCnt == |q.ring| && q.wq.mask == s.descMask && q.maxDesc == 1
    ensures ConfigOk(q) && maxSendWr <= q.wq.cnt <= 0x8000
  {
    hide RoundUp, IsPow2;
    var n := if maxSendWr < minSqWr then minSqWr else maxSendWr;
    PowersArePowers();
    RoundUpMeans(n);
    RoundUpBelow(n, 0x8000);
  }

  /** So does a receive queue whose descriptors fit the largest ring: all requests it takes, of up to max_sge each. */
  lemma RecvQueueFits(q: Queue, maxRecvWr: nat, maxRecvSge: nat)
    requires RecvSize(maxRecvWr, maxRecvSge).Some? && maxRecvSge * maxRecvWr <= 0x8000
    requires var r := RecvSize(maxRecvWr, maxRecvSge).value;
             q.wq.cnt == r.wqeCnt && q.wq.mask == r.descMask && |q.ring| == r.descMask + 1 && q.maxDesc == r.maxSge
    ensures ConfigOk(q) && maxRecvWr <= q.wq.cnt <= 0x8000
  {
    hide RecvSize, RingSize;
    MulSign(maxRecvWr, maxRecvSge);
    RecvSized(maxRecvWr, maxRecvSge);
    RecvSizeMeans(maxRecvWr, maxRecvSge);
    RecvKeepsSge(maxRecvWr, maxRecvSge);
    RingBound(|q.ring|);
    MulMonotone(1, maxRecvSge, q.wq.cnt);
    assert q.wq.cnt * maxRecvSge == maxRecvSge * q.wq.cnt;
  }

  lemma RecvSized(maxRecvWr: nat, maxRecvSge: nat)
    requires RecvSize(maxRecvWr, maxRecvSge).Some?
    ensures 1 <= maxRecvSge
  {
  }

  lemma RecvKeepsSge(maxRecvWr: nat, maxRecvSge: nat)
    requires 1 <= maxRecvSge
    ensures RecvSize(maxRecvWr, maxRecvSge).Some? && RecvSize(maxRecvWr, maxRecvSge).value.maxSge == maxRecvSge
  {
  }

  lemma RingBound(n: nat)
    ensures RingSize(n) ==> n <= 0x8000
  {
  }
}
