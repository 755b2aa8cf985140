/**
 One sub completion queue: a ring written by the device and read by the host, with a phase bit in each
 entry and no consumer index sent back. The device flips its phase bit every lap, starting with 1 over
 a zeroed buffer; the host expects the same phase as long as it is less than a lap behind.
 */
module CompletionRing {
  import opened Words

  const SEND_QUEUE := 1
  const RECV_QUEUE := 2

  /** The fields of efa_io_cdesc_common the host acts on. */
  datatype Cqe = Cqe(qpNum: nat, qType: nat, reqId: nat, phase: nat)

  /** The host's view of a sub completion queue; consumedCnt has 16 bits. */
  datatype SubCq = SubCq(consumedCnt: nat, phase: nat, qmask: nat, refCnt: nat)

  function Initialize(size: nat): SubCq
    requires size > 0
  {
    SubCq(0, 1, size - 1, 0)
  }

  function CurrentIndex(s: SubCq): (r: nat)
    ensures r <= s.qmask
  {
    BitAnd(s.consumedCnt, s.qmask)
  }

  predicate Pending(s: SubCq, buf: seq<Cqe>)
    requires s.qmask < |buf|
  {
    buf[CurrentIndex(s)].phase == s.phase
  }

  /** What a successful probe does to the host's counters. */
  function Consume(s: SubCq): SubCq
    requires s.phase <= 1
  {
    var s' := s.(consumedCnt := Wrap16(s.consumedCnt + 1));
    if CurrentIndex(s') == 0 then s'.(phase := 1 - s.phase) else s'
  }

  /** The phase bit of the n-th entry the device writes into a ring of the given depth. */
  function PhaseAt(n: nat, depth: nat): (r: nat)
    requires depth > 0
    ensures r <= 1
  {
    1 - LapOf(n, depth) % 2
  }

  /** The buffer holds the last lap of what the device has produced, and zeroes where it never wrote. */
  ghost predicate History(buf: seq<Cqe>, prod: seq<Cqe>) {
    && |buf| > 0
    && (forall n :: 0 <= n < |prod| ==> prod[n].phase == PhaseAt(n, |buf|))
    && (forall n :: 0 <= n < |prod| <= n + |buf| ==> buf[SlotOf(n, |buf|)] == prod[n])
    && (forall i :: |prod| <= i < |buf| ==> buf[i].phase == 0)
  }

  /** The host has consumed n entries. */
  ghost predicate InStep(s: SubCq, n: nat, depth: nat) {
    && RingSize(depth)
    && s.qmask == depth - 1
    && s.consumedCnt == Wrap16(n)
    && s.phase == PhaseAt(n, depth)
  }

  lemma Start(depth: nat, buf: seq<Cqe>)
    requires RingSize(depth) && |buf| == depth && (forall i :: 0 <= i < depth ==> buf[i].phase == 0)
    ensures depth > 0 && History(buf, []) && InStep(Initialize(depth), 0, depth)
  {
    Slot(0, depth);
    FirstLap(0, depth);
  }

  /** The device writes its next entry. */
  lemma Produce(buf: seq<Cqe>, prod: seq<Cqe>, c: Cqe)
    requires History(buf, prod) && c.phase == PhaseAt(|prod|, |buf|)
    ensures History(buf[SlotOf(|prod|, |buf|) := c], prod + [c])
  {
    hide SlotOf, LapOf, PhaseAt;
    var d := |buf|;
    var buf', prod' := buf[SlotOf(|prod|, d) := c], prod + [c];
    forall n | 0 <= n < |prod'| <= n + d ensures buf'[SlotOf(n, d)] == prod'[n] {
      if n < |prod| { SlotsDiffer(n, |prod|, d); }
    }
    if |prod| < d { FirstLap(|prod|, d); }
  }

  /** Entries a lap apart carry opposite phases. */
  lemma PhaseFlips(n: nat, depth: nat)
    requires depth > 0
    ensures PhaseAt(n + depth, depth) == 1 - PhaseAt(n, depth)
  {
    NextLap(n, depth);
  }

  /**
   While at most a lap is unconsumed, a probe succeeds exactly when the device has produced an entry
   the host has not consumed, and it then reads precisely the oldest such entry.
   */
  lemma PhaseProtocol(s: SubCq, buf: seq<Cqe>, prod: seq<Cqe>, n: nat)
    requires History(buf, prod) && InStep(s, n, |buf|)
    requires n <= |prod| <= n + |buf|
    ensures CurrentIndex(s) == SlotOf(n, |buf|)
    ensures Pending(s, buf) <==> n < |prod|
    ensures Pending(s, buf) ==> buf[CurrentIndex(s)] == prod[n]
  {
    hide SlotOf, LapOf, PhaseAt, Wrap16;
    var d := |buf|;
    Slot(n, d);
    if n == |prod| {
      if n < d {
        FirstLap(n, d);
        assert PhaseAt(n, d) == 1 by { FirstLapPhase(n, d); }
      } else {
        NextLap(n - d, d);
        PhaseFlips(n - d, d);
      }
    }
  }

  lemma FirstLapPhase(n: nat, d: nat)
    requires n < d
    ensures PhaseAt(n, d) == 1
  {
    FirstLap(n, d);
  }

  /**
   Up to a lap behind is exactly how far the host may fall: one entry more, and the overwritten slot
   carries the other phase, so the poll finds nothing although more than a whole lap is waiting.
   */
  lemma OverrunHidesEntries(s: SubCq, buf: seq<Cqe>, prod: seq<Cqe>, n: nat)
    requires History(buf, prod) && InStep(s, n, |buf|)
    requires n < |prod| <= n + 2 * |buf|
    ensures CurrentIndex(s) < |buf|
    ensures Pending(s, buf) <==> |prod| <= n + |buf|
  {
    hide SlotOf, LapOf, PhaseAt, Wrap16;
    var d := |buf|;
    if |prod| <= n + d {
      PhaseProtocol(s, buf, prod, n);
    } else {
      Slot(n, d);
      NextLap(n, d);
      PhaseFlips(n, d);
      assert buf[SlotOf(n + d, d)] == prod[n + d];
    }
  }

  /** Consuming keeps the host in step, also when the 16-bit counter wraps. */
  lemma ConsumeKeeps(s: SubCq, n: nat, depth: nat)
    requires InStep(s, n, depth)
    ensures InStep(Consume(s), n + 1, depth)
  {
    hide SlotOf, LapOf, Wrap16;
    Wrap16Add(n, 1);
    Slot(n + 1, depth);
    StepLap(n, depth);
  }

  /** One action on a ring: the device produces an entry, or the host probes. */
  datatype Action = DeviceWrites(c: Cqe) | HostProbes

  datatype Ring = Ring(s: SubCq, buf: seq<Cqe>, prod: seq<Cqe>, got: seq<Cqe>)

  function Act(r: Ring, a: Action): Ring
    requires |r.buf| == r.s.qmask + 1 && r.s.phase <= 1
  {
    match a
    case DeviceWrites(c) =>
      var e := c.(phase := PhaseAt(|r.prod|, |r.buf|));
      r.(buf := r.buf[SlotOf(|r.prod|, |r.buf|) := e], prod := r.prod + [e])
    case HostProbes =>
      if Pending(r.s, r.buf) then r.(s := Consume(r.s), got := r.got + [r.buf[CurrentIndex(r.s)]]) else r
  }

  ghost predicate RingInv(r: Ring) {
    && History(r.buf, r.prod) && InStep(r.s, |r.got|, |r.buf|)
    && |r.got| <= |r.prod| <= |r.got| + |r.buf|
    && r.got == r.prod[..|r.got|]
  }

  /** The device never gets more than a lap ahead in this run. */
  ghost predicate WithinLap(r: Ring, acts: seq<Action>)
    requires |r.buf| == r.s.qmask + 1 && r.s.phase <= 1
    decreases |acts|
  {
    acts == [] ||
    ((acts[0].DeviceWrites? ==> |r.prod| < |r.got| + |r.buf|) && WithinLap(Act(r, acts[0]), acts[1..]))
  }

  function Run(r: Ring, acts: seq<Action>): Ring
    requires |r.buf| == r.s.qmask + 1 && r.s.phase <= 1
    decreases |acts|
  {
    if acts == [] then r else Run(Act(r, acts[0]), acts[1..])
  }

  lemma ActKeeps(r: Ring, a: Action)
    requires RingInv(r) && (a.DeviceWrites? ==> |r.prod| < |r.got| + |r.buf|)
    ensures RingInv(Act(r, a))
    ensures a.HostProbes? ==> (|Act(r, a).got| == |r.got| + 1 <==> |r.got| < |r.prod|)
  {
    hide SlotOf, LapOf, PhaseAt, Wrap16, History, InStep, Consume;
    match a
    case DeviceWrites(c) =>
      assert History(r.buf, r.prod) ==> |r.buf| > 0 by { HistorySize(r.buf, r.prod); }
      Produce(r.buf, r.prod, c.(phase := PhaseAt(|r.prod|, |r.buf|)));
    case HostProbes =>
      PhaseProtocol(r.s, r.buf, r.prod, |r.got|);
      ConsumeKeeps(r.s, |r.got|, |r.buf|);
  }

  lemma HistorySize(buf: seq<Cqe>, prod: seq<Cqe>)
    requires History(buf, prod)
    ensures |buf| > 0
  {
  }

  /** The n-th entry consumed is the n-th produced: none skipped, repeated or stale, over any run. */
  lemma {:induction false} ConsumedInOrder(r: Ring, acts: seq<Action>)
    requires RingInv(r) && WithinLap(r, acts)
    ensures RingInv(Run(r, acts))
    ensures Run(r, acts).got <= Run(r, acts).prod
    decreases |acts|
  {
    if acts != [] {
      ActKeeps(r, acts[0]);
      ConsumedInOrder(Act(r, acts[0]), acts[1..]);
    }
  }
}
