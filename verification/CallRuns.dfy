/**
 Posting calls in the whole system. A call's steps on its queue may be mixed with any steps of the device,
 of pollers and of threads on other queues; what it leaves on its queue is the same, and the system stays
 sound throughout.
 */
module CallRuns {
  import opened Words
  import opened WridPool
  import opened SendRing
  import opened SendTheorems
  import opened ReceiveRing
  import opened Refinement
  import CompletionRing
  import QM = QueueMachine
  import F = Fabric

  // ---- a call alone ------------------------------------------------------------------------------

  function Lifted(i: nat, es: seq<F.QueueStep>): seq<F.Event> {
    if es == [] then [] else [F.OnQueue(i, es[0])] + Lifted(i, es[1..])
  }

  /** A run of one queue is a run of the system, which stays sound. */
  lemma {:induction false} HostRunIsRun(s: F.System, i: nat, es: seq<F.QueueStep>, q': QM.Queue)
    requires F.Inv(s) && i < |s.qs| && QM.QInv(s.qs[i]) && HostRun(s.qs[i], es, q')
    ensures F.IsRun(s, Lifted(i, es), F.WithQueue(s, i, q')) && F.Inv(F.WithQueue(s, i, q'))
    decreases |es|
  {
    hide F.Inv, QM.QInv, F.QEnabled, F.QApply;
    if es == [] {
      assert F.WithQueue(s, i, s.qs[i]) == s;
    } else {
      var e, s1 := F.OnQueue(i, es[0]), F.WithQueue(s, i, F.QApply(s.qs[i], es[0]));
      F.ApplyKeeps(s, e);
      F.QStepKeeps(s.qs[i], es[0]);
      HostRunIsRun(s1, i, es[1..], q');
      assert F.WithQueue(s1, i, q') == F.WithQueue(s, i, q');
      assert Lifted(i, es)[1..] == Lifted(i, es[1..]);
    }
  }

  // ---- a call among everything else --------------------------------------------------------------

  /** The steps of queue i's host in a run of the system. */
  function CallSteps(fs: seq<F.Event>, i: nat): seq<F.QueueStep> {
    if fs == [] then []
    else
      (if fs[0].OnQueue? && fs[0].i == i && !fs[0].step.DeviceFetches? then [fs[0].step] else [])
      + CallSteps(fs[1..], i)
  }

  /** These events are the call's steps with any others in between; the call's are the first and the last. */
  predicate Among(fs: seq<F.Event>, i: nat, es: seq<F.QueueStep>) {
    && fs != [] && es != [] && CallSteps(fs, i) == es
    && fs[0] == F.OnQueue(i, es[0]) && fs[|fs| - 1] == F.OnQueue(i, es[|es| - 1])
  }

  /** Where these events lead, if those that are not possible when their turn comes do not happen. */
  ghost function Happens(s: F.System, fs: seq<F.Event>): (s': F.System)
    requires F.Inv(s)
    ensures F.Inv(s')
    decreases |fs|
  {
    if fs == [] then s
    else if F.Enabled(s, fs[0]) then F.ApplyKeeps(s, fs[0]); Happens(F.Apply(s, fs[0]), fs[1..])
    else Happens(s, fs[1..])
  }

  lemma {:induction false} HappensIsRun(s: F.System, fs: seq<F.Event>) returns (es: seq<F.Event>)
    requires F.Inv(s)
    ensures F.IsRun(s, es, Happens(s, fs))
    decreases |fs|
  {
    hide F.Inv, F.Enabled, F.Apply;
    if fs == [] {
      es := [];
    } else if F.Enabled(s, fs[0]) {
      F.ApplyKeeps(s, fs[0]);
      var rest := HappensIsRun(F.Apply(s, fs[0]), fs[1..]);
      es := [fs[0]] + rest;
      assert es[1..] == rest;
    } else {
      es := HappensIsRun(s, fs[1..]);
    }
  }

  /** While the queue's lock is held, nothing but its own steps changes what the host sees of it. */
  lemma OtherEvent(s: F.System, i: nat, q: QM.Queue, e: F.Event)
    requires F.Inv(s) && i < |s.qs| && SameHost(q, s.qs[i]) && q.mode != QM.Unlocked && F.Enabled(s, e)
    requires e.OnQueue? && e.i == i ==> e.step.DeviceFetches?
    ensures i < |F.Apply(s, e).qs| && SameHost(q, F.Apply(s, e).qs[i])
  {
    hide F.Inv, QM.QInv, F.QueueOf, BitAnd, F.CqeFor;
    match e
    case OnQueue(k, step) =>
      F.QueueHolds(s, k);
      if k == i { FetchSame(q, s.qs[i]); }
    case Completes(k, idx) => F.CompleteKeeps(s, k, idx);
    case Consumes(c, j) => F.ConsumeEventKeeps(s, c, j);
    case Reports(c) => F.ReportEventKeeps(s, c);
    case GivesBack(c) => F.GiveBackEventKeeps(s, c);
  }

  lemma {:induction false} LastIsCalled(fs: seq<F.Event>, i: nat, e: F.QueueStep)
    requires fs != [] && fs[|fs| - 1] == F.OnQueue(i, e) && !e.DeviceFetches?
    ensures CallSteps(fs, i) != []
  {
    if |fs| > 1 { LastIsCalled(fs[1..], i, e); }
  }

  lemma StepLocks(q: QM.Queue, e: F.QueueStep)
    requires QM.QInv(q) && F.QEnabled(q, e) && q.mode != QM.Unlocked && !Closing(e)
    ensures F.QApply(q, e).mode != QM.Unlocked
  {
    hide QM.QInv, BitAnd, Full;
    match e
    case Begins(r) => BeginStep(q, r);
    case Emits => EmitStep(q);
    case Copies => QM.CopyKeeps(q);
    case DeviceFetches => QM.FetchKeeps(q);
    case _ =>
  }

  /** The steps of a call from inside its lock to its end, with anything in between. */
  lemma {:induction false} UnderLock(s: F.System, i: nat, q: QM.Queue, es: seq<F.QueueStep>, q': QM.Queue,
                                     fs: seq<F.Event>)
    requires F.Inv(s) && i < |s.qs| && QM.QInv(q) && SameHost(q, s.qs[i]) && q.mode != QM.Unlocked
    requires HostRun(q, es, q') && Closes(es) && CallSteps(fs, i) == es
    requires fs != [] && fs[|fs| - 1] == F.OnQueue(i, es[|es| - 1])
    ensures i < |Happens(s, fs).qs| && SameHost(q', Happens(s, fs).qs[i])
    decreases |fs|
  {
    hide F.Inv, QM.QInv, F.QEnabled, F.QApply, SameHost, Closes, F.Apply, F.Enabled;
    var e := fs[0];
    F.QueueHolds(s, i);
    ClosesNext(es);
    assert CallSteps([], i) == [];
    if e.OnQueue? && e.i == i && !e.step.DeviceFetches? {
      assert es[0] == e.step && es[1..] == CallSteps(fs[1..], i);
      HostStepSame(q, s.qs[i], e.step);
      F.QStepKeeps(q, es[0]);
      assert e == F.OnQueue(i, es[0]);
      AppliedTo(s, i, es[0]);
      F.ApplyKeeps(s, e);
      var s1, q1 := F.Apply(s, e), F.QApply(q, es[0]);
      if |es| == 1 {
        if |fs| > 1 { LastIsCalled(fs[1..], i, es[0]); }
      } else {
        assert fs[1..] != [];
        StepLocks(q, es[0]);
        UnderLock(s1, i, q1, es[1..], q', fs[1..]);
      }
    } else {
      assert CallSteps(fs[1..], i) == es;
      assert fs[1..] != [];
      if F.Enabled(s, e) {
        OtherEvent(s, i, q, e);
        F.ApplyKeeps(s, e);
        UnderLock(F.Apply(s, e), i, q, es, q', fs[1..]);
      } else {
        UnderLock(s, i, q, es, q', fs[1..]);
      }
    }
  }

  lemma AppliedTo(s: F.System, i: nat, step: F.QueueStep)
    requires F.Inv(s) && i < |s.qs| && QM.QInv(s.qs[i]) && F.QEnabled(s.qs[i], step)
    ensures F.Enabled(s, F.OnQueue(i, step))
    ensures F.Apply(s, F.OnQueue(i, step)) == F.WithQueue(s, i, F.QApply(s.qs[i], step))
  {
    hide F.Inv, QM.QInv, F.QEnabled, F.QApply;
  }

  lemma ClosesNext(es: seq<F.QueueStep>)
    requires Closes(es)
    ensures es != [] && (|es| == 1 ==> Closing(es[0]))
    ensures |es| > 1 ==> Closes(es[1..]) && !Closing(es[0])
  {
    if |es| > 1 {
      assert es[..|es| - 1][0] == es[0];
      assert es[1..][..|es| - 2] == es[..|es| - 1][1..];
    }
  }

  /**
   A call's steps, mixed with any steps of the device on this and other queues, of pollers and of threads on
   other queues, leave on the call's queue what they leave alone, but for what the device has fetched and
   completed. The system is sound after it.
   */
  lemma CallInterleaves(s: F.System, i: nat, es: seq<F.QueueStep>, q': QM.Queue, fs: seq<F.Event>)
    requires F.Inv(s) && i < |s.qs| && QM.QInv(s.qs[i]) && HostRun(s.qs[i], es, q') && OneCall(es) && Among(fs, i, es)
    ensures i < |Happens(s, fs).qs| && SameHost(q', Happens(s, fs).qs[i])
  {
    hide F.Inv, QM.QInv, F.QEnabled, F.QApply, SameHost;
    var q := s.qs[i];
    F.QStepKeeps(q, es[0]);
    AppliedTo(s, i, es[0]);
    F.ApplyKeeps(s, fs[0]);
    NowLocked(q, es[0]);
    assert es[1..] == CallSteps(fs[1..], i);
    assert fs[1..] != [] by { assert CallSteps([], i) == []; }
    SameSelf(F.QApply(q, es[0]));
    UnderLock(F.Apply(s, fs[0]), i, F.QApply(q, es[0]), es[1..], q', fs[1..]);
  }

  lemma NowLocked(q: QM.Queue, e: F.QueueStep)
    requires QM.QInv(q) && F.QEnabled(q, e) && e.Locks?
    ensures F.QApply(q, e).mode != QM.Unlocked
  {
    hide QM.QInv;
  }

  lemma SameSelf(q: QM.Queue)
    ensures SameHost(q, q)
  {
  }

  // ---- the three posting calls -------------------------------------------------------------------

  /**
   A list post in the system: alone it is a run, and among any other steps it leaves the queue showing what
   the specification of list posting gives.
   */
  lemma PostSendInSystem(s: F.System, i: nat, sq: Sq, cfg: Config, wrs: seq<SendWr>, enc: TxWqe -> nat)
    returns (es: seq<F.QueueStep>, s': F.System)
    requires F.Inv(s) && i < |s.qs| && s.qs[i].mode == QM.Unlocked && SqOk(sq) && Shows(s.qs[i], sq, enc)
    requires Rung(sq, cfg) && 1 <= cfg.maxBatch < U16
    ensures F.IsRun(s, Lifted(i, es), s') && F.Inv(s') && OneCall(es)
    ensures i < |s'.qs| && Shows(s'.qs[i], PostList(sq, cfg, wrs, 0, 0).sq, enc)
    ensures forall fs {:trigger Among(fs, i, es)} :: Among(fs, i, es) ==>
              && F.Inv(Happens(s, fs)) && i < |Happens(s, fs).qs| && Happens(s, fs).qs[i].mode == QM.Unlocked
              && Shows(Happens(s, fs).qs[i], PostList(sq, cfg, wrs, 0, 0).sq, enc)
  {
    hide F.Inv, QM.QInv, HostRun, Shows, SqOk, PostList, Rung, SameHost, F.IsRun, Happens, Among, OneCall;
    F.QueueHolds(s, i);
    var q';
    es, q' := PostSendRefines(s.qs[i], sq, cfg, wrs, enc);
    HostRunIsRun(s, i, es, q');
    s' := F.WithQueue(s, i, q');
    forall fs {:trigger Among(fs, i, es)} | Among(fs, i, es)
      ensures i < |Happens(s, fs).qs| && Happens(s, fs).qs[i].mode == QM.Unlocked
      ensures Shows(Happens(s, fs).qs[i], PostList(sq, cfg, wrs, 0, 0).sq, enc)
    {
      CallInterleaves(s, i, es, q', fs);
      ShowsAnyway(q', Happens(s, fs).qs[i], PostList(sq, cfg, wrs, 0, 0).sq, enc);
    }
  }

  /** Likewise a whole session. */
  lemma SessionInSystem(s: F.System, i: nat, sq: Sq, cfg: Config, ops: seq<Op>, aborts: bool, enc: TxWqe -> nat)
    returns (es: seq<F.QueueStep>, s': F.System)
    requires F.Inv(s) && i < |s.qs| && s.qs[i].mode == QM.Unlocked && SqOk(sq) && Shows(s.qs[i], sq, enc)
    requires Rung(sq, cfg) && 1 <= cfg.maxBatch < U16 && SessionSq(Start(sq)) && Scripted(Start(sq), ops)
    ensures F.IsRun(s, Lifted(i, es), s') && F.Inv(s') && OneCall(es)
    ensures var mid := RunOps(Start(sq), cfg, ops); var done := if aborts then Abort(mid) else Complete(mid, cfg);
            && i < |s'.qs| && Shows(s'.qs[i], done, enc)
            && forall fs {:trigger Among(fs, i, es)} :: Among(fs, i, es) ==>
                 && F.Inv(Happens(s, fs)) && i < |Happens(s, fs).qs| && Happens(s, fs).qs[i].mode == QM.Unlocked
                 && Shows(Happens(s, fs).qs[i], done, enc)
  {
    hide F.Inv, QM.QInv, HostRun, Shows, SqOk, RunOps, Rung, SameHost, F.IsRun, Happens, Among, OneCall, Complete,
      Abort;
    F.QueueHolds(s, i);
    var q';
    es, q' := WholeSessionRefines(s.qs[i], sq, cfg, ops, aborts, enc);
    HostRunIsRun(s, i, es, q');
    s' := F.WithQueue(s, i, q');
    var mid := RunOps(Start(sq), cfg, ops);
    var done := if aborts then Abort(mid) else Complete(mid, cfg);
    forall fs {:trigger Among(fs, i, es)} | Among(fs, i, es)
      ensures i < |Happens(s, fs).qs| && Happens(s, fs).qs[i].mode == QM.Unlocked
      ensures Shows(Happens(s, fs).qs[i], done, enc)
    {
      CallInterleaves(s, i, es, q', fs);
      ShowsAnyway(q', Happens(s, fs).qs[i], done, enc);
    }
  }

  /** Likewise a receive post. */
  lemma PostRecvInSystem(s: F.System, i: nat, rq: Rq, cfg: RecvConfig, wrs: seq<RecvWr>, enc: RxDesc -> nat)
    returns (es: seq<F.QueueStep>, s': F.System)
    requires F.Inv(s) && i < |s.qs| && s.qs[i].mode == QM.Unlocked && s.qs[i].todo == []
    requires RqOk(rq) && ShowsRx(s.qs[i], rq, cfg, enc) && forall k :: 0 <= k < |wrs| ==> wrs[k].sgl != []
    ensures F.IsRun(s, Lifted(i, es), s') && F.Inv(s') && OneCall(es)
    ensures i < |s'.qs| && ShowsRx(s'.qs[i], PostRecvList(rq, cfg, wrs, 0).rq, cfg, enc)
    ensures forall fs {:trigger Among(fs, i, es)} :: Among(fs, i, es) ==>
              && F.Inv(Happens(s, fs)) && i < |Happens(s, fs).qs| && Happens(s, fs).qs[i].mode == QM.Unlocked
              && ShowsRx(Happens(s, fs).qs[i], PostRecvList(rq, cfg, wrs, 0).rq, cfg, enc)
  {
    hide F.Inv, QM.QInv, HostRun, ShowsRx, RqOk, PostRecvList, SameHost, F.IsRun, Happens, Among, OneCall;
    F.QueueHolds(s, i);
    var q';
    es, q' := PostRecvRefines(s.qs[i], rq, cfg, wrs, enc);
    HostRunIsRun(s, i, es, q');
    s' := F.WithQueue(s, i, q');
    forall fs {:trigger Among(fs, i, es)} | Among(fs, i, es)
      ensures i < |Happens(s, fs).qs| && Happens(s, fs).qs[i].mode == QM.Unlocked
      ensures ShowsRx(Happens(s, fs).qs[i], PostRecvList(rq, cfg, wrs, 0).rq, cfg, enc)
    {
      CallInterleaves(s, i, es, q', fs);
      ShowsRxAnyway(q', Happens(s, fs).qs[i], PostRecvList(rq, cfg, wrs, 0).rq, cfg, enc);
    }
  }

  // ---- a system to start from --------------------------------------------------------------------

  lemma SumOfOne(q: QM.Queue, j: nat)
    ensures F.Sum([q], j, F.Capacity) == if q.sub == j then q.wq.cnt else 0
  {
    assert [q][..0] == [];
    assert F.Sum([], j, F.Capacity) == 0;
  }

  /** A created send queue and receive queue of one queue pair, each with its own sub completion queue. */
  lemma QueuePairStarts(cnt: nat, rcnt: nat, size: nat, maxSge: nat, depth: nat, wrid: seq<nat>, rwrid: seq<nat>)
    returns (s: F.System)
    requires RingSize(cnt) && 0 < cnt == |wrid| && RingSize(size) && 0 < size && |rwrid| == rcnt
    requires 1 <= maxSge && rcnt * maxSge <= size && RingSize(depth) && cnt <= depth && rcnt <= depth
    ensures F.Init(s) && F.Reachable(s) && |s.qs| == 2 && |s.subs| == 2
    ensures s.qs[0].wq.cnt == cnt && s.qs[1].wq.cnt == rcnt && s.qs[0].sub == 0 && s.qs[1].sub == 1
  {
    hide RingSize, QM.QInv, F.Inv, Shows, ShowsRx, SqOk, RqOk, F.QueueInit, Rung;
    var enc: TxWqe -> nat := w => 0;
    var encRx: RxDesc -> nat := d => 0;
    var q, sq := FreshShows(cnt, wrid, Config(RESET, false, 0, 0, 0, 1), enc);
    var r, rq := FreshRecvShows(rcnt, size, rwrid, RecvConfig(RESET, maxSge), encRx);
    var u := F.Sub(0, CompletionRing.Initialize(depth), seq(depth, k => CompletionRing.Cqe(0, 0, 0, 0)), [], [], 0);
    s := F.System([q, r], [u, u], [F.NoCqe], []);
    assert [q, r][..1] == [q] && [q][..0] == [];
    SumOfOne(q, 0);
    SumOfOne(q, 1);
    assert F.Fits(s, 0) && F.Fits(s, 1);
    F.InitInv(s);
    assert F.IsRun(s, [], s);
  }
}
