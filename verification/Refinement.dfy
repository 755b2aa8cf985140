/**
 The posting calls as runs of the queue's state machine: what a list post or a whole session does to the
 send queue, and a list post to the receive queue, is what some sequence of the machine's host steps does.
 So what holds in every run of the machine holds of the calls.
 */
module Refinement {
  import opened Words
  import opened WridPool
  import opened DeviceRing
  import opened SendRing
  import opened SendTheorems
  import opened ReceiveRing
  import QM = QueueMachine
  import F = Fabric

  // ---- runs of one queue -------------------------------------------------------------------------

  ghost predicate HostRun(q: QM.Queue, es: seq<F.QueueStep>, q': QM.Queue)
    requires QM.QInv(q)
    decreases |es|
  {
    if es == [] then q' == q
    else
      && F.QEnabled(q, es[0]) && !es[0].DeviceFetches?
      && (F.QStepKeeps(q, es[0]); HostRun(F.QApply(q, es[0]), es[1..], q'))
  }

  lemma {:induction false} RunKeeps(q: QM.Queue, es: seq<F.QueueStep>, q': QM.Queue)
    requires QM.QInv(q) && HostRun(q, es, q')
    ensures QM.QInv(q')
    decreases |es|
  {
    hide QM.QInv, F.QApply, F.QEnabled;
    if es != [] {
      F.QStepKeeps(q, es[0]);
      RunKeeps(F.QApply(q, es[0]), es[1..], q');
    }
  }

  lemma {:induction false} RunJoin(q: QM.Queue, es: seq<F.QueueStep>, q1: QM.Queue, fs: seq<F.QueueStep>, q2: QM.Queue)
    requires QM.QInv(q) && HostRun(q, es, q1) && QM.QInv(q1) && HostRun(q1, fs, q2)
    ensures HostRun(q, es + fs, q2)
    decreases |es|
  {
    hide QM.QInv, F.QApply, F.QEnabled;
    if es == [] {
      assert es + fs == fs;
    } else {
      F.QStepKeeps(q, es[0]);
      RunJoin(F.QApply(q, es[0]), es[1..], q1, fs, q2);
      assert (es + fs)[1..] == es[1..] + fs && (es + fs)[0] == es[0];
    }
  }

  lemma OneStep(q: QM.Queue, e: F.QueueStep)
    requires QM.QInv(q) && F.QEnabled(q, e) && !e.DeviceFetches?
    ensures QM.QInv(F.QApply(q, e)) && HostRun(q, [e], F.QApply(q, e))
  {
    hide QM.QInv, F.QApply, F.QEnabled;
    F.QStepKeeps(q, e);
    assert [e][1..] == [];
    assert HostRun(F.QApply(q, e), [], F.QApply(q, e));
  }

  /** The steps that give up the lock. */
  predicate Closing(e: F.QueueStep) { e.Unlocks? || e.Aborts? }

  /** Steps taken with the lock held throughout. */
  predicate Inner(es: seq<F.QueueStep>) { forall k :: 0 <= k < |es| ==> !Closing(es[k]) && !es[k].Locks? }

  predicate Closes(es: seq<F.QueueStep>) { es != [] && Closing(es[|es| - 1]) && Inner(es[..|es| - 1]) }

  /** One call or session: the lock taken once, and given up at the end. */
  predicate OneCall(es: seq<F.QueueStep>) { es != [] && es[0].Locks? && Closes(es[1..]) }

  lemma CallOf(lock: F.QueueStep, inner: seq<F.QueueStep>, closing: seq<F.QueueStep>)
    requires lock.Locks? && Inner(inner) && Closes(closing)
    ensures OneCall([lock] + inner + closing)
  {
    var es := inner + closing;
    assert ([lock] + inner + closing)[1..] == es;
    assert es[..|es| - 1] == inner + closing[..|closing| - 1];
  }

  lemma ClosesLast(inner: seq<F.QueueStep>, closing: F.QueueStep)
    requires Inner(inner) && Closing(closing)
    ensures Closes(inner + [closing]) && Closes([closing])
  {
    assert (inner + [closing])[..|inner|] == inner;
    assert [closing][..0] == [];
  }

  // ---- the device fetching meanwhile -------------------------------------------------------------

  /** The host's steps of a run in which the device fetches too. */
  function HostSteps(fs: seq<F.QueueStep>): seq<F.QueueStep> {
    if fs == [] then [] else (if fs[0].DeviceFetches? then [] else [fs[0]]) + HostSteps(fs[1..])
  }

  /** Where such a run leads; a fetch when there is nothing to fetch does nothing. */
  ghost function Mixed(q: QM.Queue, fs: seq<F.QueueStep>): (r: QM.Queue)
    requires QM.QInv(q)
    ensures QM.QInv(r)
    decreases |fs|
  {
    if fs == [] then q
    else if F.QEnabled(q, fs[0]) then F.QStepKeeps(q, fs[0]); Mixed(F.QApply(q, fs[0]), fs[1..])
    else Mixed(q, fs[1..])
  }

  /** Only what the device has fetched differs. */
  ghost predicate SameHost(a: QM.Queue, b: QM.Queue) {
    b == a.(devPc := b.devPc, partial := b.partial, outstanding := b.outstanding, fetched := b.fetched,
            fetchedReqs := b.fetchedReqs)
  }

  lemma HostStepSame(a: QM.Queue, b: QM.Queue, e: F.QueueStep)
    requires QM.QInv(a) && QM.QInv(b) && SameHost(a, b) && F.QEnabled(a, e) && !e.DeviceFetches?
    ensures F.QEnabled(b, e) && SameHost(F.QApply(a, e), F.QApply(b, e))
  {
    hide QM.QInv, Full, BitAnd, RollBack, Reserve, CountPosted, StepPc;
    match e
    case Begins(r) => BeginStep(a, r); BeginStep(b, r);
    case Emits => EmitStep(a); EmitStep(b);
    case Aborts => QM.AbortKeeps(a); QM.AbortKeeps(b);
    case Copies => QM.CopyKeeps(a); QM.CopyKeeps(b);
    case _ =>
  }

  lemma FetchSame(a: QM.Queue, b: QM.Queue)
    requires QM.QInv(b) && SameHost(a, b) && F.QEnabled(b, F.DeviceFetches)
    ensures SameHost(a, F.QApply(b, F.DeviceFetches))
  {
    hide QM.QInv, BitAnd;
    QM.FetchKeeps(b);
  }

  /** Fetches between a call's steps, wherever they come, change nothing the host sees. */
  lemma {:induction false} FetchesInterleave(q: QM.Queue, r: QM.Queue, es: seq<F.QueueStep>, q': QM.Queue,
                                             fs: seq<F.QueueStep>)
    requires QM.QInv(q) && QM.QInv(r) && SameHost(q, r) && HostRun(q, es, q') && HostSteps(fs) == es
    ensures SameHost(q', Mixed(r, fs))
    decreases |fs|
  {
    hide QM.QInv, F.QEnabled, F.QApply, SameHost;
    if fs != [] {
      var e := fs[0];
      if e.DeviceFetches? {
        if F.QEnabled(r, e) {
          FetchSame(q, r);
          F.QStepKeeps(r, e);
          FetchesInterleave(q, F.QApply(r, e), es, q', fs[1..]);
        } else {
          FetchesInterleave(q, r, es, q', fs[1..]);
        }
      } else {
        assert es[0] == e && es[1..] == HostSteps(fs[1..]);
        HostStepSame(q, r, e);
        F.QStepKeeps(q, e);
        F.QStepKeeps(r, e);
        FetchesInterleave(F.QApply(q, e), F.QApply(r, e), es[1..], q', fs[1..]);
      }
    }
  }

  lemma AnyFetches(q: QM.Queue, es: seq<F.QueueStep>, q': QM.Queue)
    requires QM.QInv(q) && HostRun(q, es, q')
    ensures forall fs {:trigger HostSteps(fs)} :: HostSteps(fs) == es ==> SameHost(q', Mixed(q, fs))
  {
    hide QM.QInv, HostRun, Mixed;
    forall fs {:trigger HostSteps(fs)} | HostSteps(fs) == es ensures SameHost(q', Mixed(q, fs)) {
      FetchesInterleave(q, q, es, q', fs);
    }
  }

  lemma RunsBounds(q: QM.Queue)
    requires QM.QInv(q)
    ensures Shape(q.wq) && 0 < |q.ring| == q.wq.mask + 1 && RingSize(|q.ring|) && 1 <= q.maxDesc
  {
    hide QM.LogOk, QM.TodoOk, QM.CountOk, QM.TicketOk, QM.RingOk, QM.DeviceOk, QM.SessionOk, Sized, Counts, RingSize;
  }

  /** The effect of accepting a request. */
  lemma BeginStep(q: QM.Queue, r: QM.Request)
    requires QM.QInv(q) && QM.CanBegin(q, r)
    ensures q.wq.next < |q.wq.pool| && HeadIndex(q.wq) < |q.wq.wrid|
    ensures F.QApply(q, F.Begins(r)) == QM.Begin(q, r)
  {
    hide QM.QInv, QM.Begin, QM.CanBegin;
    QM.BeginKeeps(q, r);
  }

  lemma EmitStep(q: QM.Queue)
    requires QM.QInv(q) && q.todo != []
    ensures q.log != [] && BitAnd(q.wq.pc, q.wq.mask) < |q.ring|
    ensures F.QApply(q, F.Emits) == QM.Emit(q)
  {
    hide QM.QInv, QM.Emit, BitAnd;
    QM.EmitKeeps(q);
  }

  /** Accepting a request of one descriptor and writing or staging it, as a run of two steps. */
  lemma TakeStep(q: QM.Queue, wrId: nat, body: nat) returns (es: seq<F.QueueStep>, q': QM.Queue)
    requires QM.QInv(q) && (q.mode == QM.Listing || q.mode == QM.Session) && q.todo == [] && !Full(q.wq)
    ensures HostRun(q, es, q') && Inner(es) && QM.QInv(q') && Shape(q.wq) && q.wq.next < |q.wq.pool|
    ensures q'.wq == Take(q.wq, wrId) && q'.mode == q.mode && q'.todo == [] && q'.db == q.db && 0 < |q.ring|
    ensures q'.phaseRb == q.phaseRb && q'.pending == if q.mode == QM.Session then q.pending + 1 else q.pending
    ensures var d := QM.Desc(HeadIndex(q.wq), true, true, q.wq.phase % 2, body);
            if q.mode == QM.Session then q'.staged == q.staged + [d] && q'.ring == q.ring
            else q'.staged == q.staged && q'.ring == q.ring[SlotOf(q.wq.pc, |q.ring|) := d]
  {
    hide QM.QInv, F.QApply, HostRun, SlotOf, BitAnd, Full, Shape, Wrap16, Wrap32, RingSize;
    var r := QM.Request(wrId, [body]);
    RunsBounds(q);
    BeginStep(q, r);
    OneStep(q, F.Begins(r));
    var q1 := F.QApply(q, F.Begins(r));
    EmitStep(q1);
    OneStep(q1, F.Emits);
    q' := F.QApply(q1, F.Emits);
    es := [F.Begins(r)] + [F.Emits];
    RunJoin(q, [F.Begins(r)], q1, [F.Emits], q');
    MaskedSlot(q.wq, |q.ring|);
  }

  lemma MaskedSlot(w: Wq, n: nat)
    requires Shape(w) && RingSize(n) && 0 < n == w.mask + 1
    ensures BitAnd(w.pc, w.mask) == SlotOf(w.pc, n)
  {
    hide SlotOf, BitAnd;
    Slot(w.pc, n);
  }

  lemma PcFits(w: Wq)
    requires Shape(w)
    ensures w.pc < U16 && w.next <= w.cnt <= 0x8000 && |w.pool| == |w.wrid| == w.cnt
    ensures Wrap16(w.pc) == w.pc
    ensures forall i :: 0 <= i < w.cnt ==> w.pool[i] < w.cnt
  {
  }

  // ---- send descriptors --------------------------------------------------------------------------

  /** A send descriptor as the machine sees it; `enc` stands for any way to name a whole descriptor. */
  function Abstract(w: TxWqe, enc: TxWqe -> nat): QM.Desc {
    QM.Desc(w.reqId, w.ctrl2 & 0x04 != 0, w.ctrl2 & 0x08 != 0, (w.ctrl2 & 0x01) as nat, enc(w))
  }

  ghost predicate Mirrors(a: seq<QM.Desc>, b: seq<TxWqe>, enc: TxWqe -> nat) {
    |a| == |b| && forall k :: 0 <= k < |a| ==> a[k] == Abstract(b[k], enc)
  }

  function LastBellOf(bells: seq<nat>): nat { if bells == [] then 0 else bells[|bells| - 1] }

  /** The machine's queue shows the send queue's counters, pool, records, ring and doorbell. */
  ghost predicate Shows(q: QM.Queue, sq: Sq, enc: TxWqe -> nat) {
    && q.wq == sq.wq && Mirrors(q.ring, sq.ring, enc) && q.db == LastBellOf(sq.bells) && q.todo == [] && q.staged == []
  }

  lemma MirrorsUpdate(a: seq<QM.Desc>, b: seq<TxWqe>, enc: TxWqe -> nat, k: nat, d: QM.Desc, w: TxWqe)
    requires Mirrors(a, b, enc) && k < |a| && d == Abstract(w, enc)
    ensures Mirrors(a[k := d], b[k := w], enc)
  {
    hide Abstract;
  }

  lemma CtrlAbstract(phase: nat)
    ensures var c := SetCtrl2(0, PhaseBit(phase));
            c & 0x04 != 0 && c & 0x08 != 0 && (c & 0x01) as nat == phase % 2
  {
    FlagsDecode(0, SetCtrl2(0, PhaseBit(phase)), 0, 0);
    CtrlReads(false, false, phase);
    CtrlBits(SetCtrl2(0, PhaseBit(phase)));
  }

  lemma CtrlBits(c: bv8)
    ensures c & 0x1C == 0x1C ==> c & 0x04 != 0 && c & 0x08 != 0
  {
  }

  lemma BuildAbstract(wr: SendWr, phase: nat, idx: nat, enc: TxWqe -> nat)
    requires idx < 0x8000
    ensures var d := Build(wr, phase, idx); Abstract(d, enc) == QM.Desc(idx, true, true, phase % 2, enc(d))
  {
    hide SetCtrl2, SetMetaAndOp, SetHasImm, SetInlineMsg, PhaseBit, Gather, TotalBytes, ToTxBufs;
    CtrlAbstract(phase);
    assert Build(wr, phase, idx).ctrl2 == SetCtrl2(0, PhaseBit(phase));
  }

  /** One pass of the list-posting loop. */
  lemma PostOneRefines(q: QM.Queue, sq: Sq, wr: SendWr, enc: TxWqe -> nat) returns (es: seq<F.QueueStep>, q': QM.Queue)
    requires QM.QInv(q) && SqOk(sq) && !Full(sq.wq) && Shows(q, sq, enc) && q.mode == QM.Listing
    ensures HostRun(q, es, q') && Inner(es) && QM.QInv(q') && Shows(q', PostOne(sq, wr), enc) && q'.mode == QM.Listing
  {
    hide QM.QInv, HostRun, SlotOf, BitAnd, Full, Shape, Build, Abstract, Take, RingSize, PutInRing;
    TakenBounds(sq);
    var d := Build(wr, sq.wq.phase, HeadIndex(sq.wq));
    es, q' := TakeStep(q, wr.wrId, enc(d));
    BuildAbstract(wr, sq.wq.phase, HeadIndex(sq.wq), enc);
    PostOneStep(sq, wr);
    MirrorsUpdate(q.ring, sq.ring, enc, SlotOf(sq.wq.pc, |sq.ring|), Abstract(d, enc), d);
  }

  lemma TakenBounds(sq: Sq)
    requires SqOk(sq) && !Full(sq.wq)
    ensures sq.wq.next < |sq.wq.pool| && HeadIndex(sq.wq) < 0x8000 && 0 < |sq.ring|
  {
    CountersMove(sq.wq);
    hide Wrap32, RingSize;
  }

  lemma BellRefines(q: QM.Queue, sq: Sq, enc: TxWqe -> nat) returns (es: seq<F.QueueStep>, q': QM.Queue)
    requires QM.QInv(q) && SqOk(sq) && Shows(q, sq, enc) && q.mode == QM.Listing
    ensures HostRun(q, es, q') && Inner(es) && QM.QInv(q') && Shows(q', RingBell(sq), enc) && q'.mode == QM.Listing
  {
    hide QM.QInv, HostRun, Mirrors, RingSize;
    OneStep(q, F.RingsDoorbell);
    q' := F.QApply(q, F.RingsDoorbell);
    es := [F.RingsDoorbell];
    assert q' == QM.Doorbell(q);
    PcFits(sq.wq);
  }

  lemma {:induction false} ListRefines(q: QM.Queue, sq: Sq, cfg: Config, wrs: seq<SendWr>, i: nat, cur: nat,
                                     enc: TxWqe -> nat)
    returns (es: seq<F.QueueStep>, q': QM.Queue)
    requires QM.QInv(q) && SqOk(sq) && i <= |wrs| && Shows(q, sq, enc) && q.mode == QM.Listing
    ensures HostRun(q, es, q') && Inner(es) && QM.QInv(q') && q'.mode == QM.Listing
    ensures Shows(q', PostList(sq, cfg, wrs, i, cur).sq, enc)
    decreases |wrs| - i
  {
    hide QM.QInv, HostRun, Shows, SqOk, PostOne, RingBell, ValidateFlags, ValidateBody, Full;
    if i < |wrs| && ValidateWr(sq.wq, cfg, wrs[i]) == OK {
      var es1, q1 := PostOneRefines(q, sq, wrs[i], enc);
      var sq1 := PostOne(sq, wrs[i]);
      if cur + 1 == cfg.maxBatch {
        var es2, q2 := BellRefines(q1, sq1, enc);
        var es3, q3 := ListRefines(q2, RingBell(sq1), cfg, wrs, i + 1, 0, enc);
        RunJoin(q1, es2, q2, es3, q3);
        RunJoin(q, es1, q1, es2 + es3, q3);
        es, q' := es1 + (es2 + es3), q3;
      } else {
        var es3, q3 := ListRefines(q1, sq1, cfg, wrs, i + 1, cur + 1, enc);
        RunJoin(q, es1, q1, es3, q3);
        es, q' := es1 + es3, q3;
      }
    } else if cur > 0 {
      es, q' := BellRefines(q, sq, enc);
    } else {
      es, q' := [], q;
      NoRun(q);
    }
  }

  lemma NoRun(q: QM.Queue)
    requires QM.QInv(q)
    ensures HostRun(q, [], q)
  {
  }

  lemma {:induction false} AdvancesEnd(prev: nat, bells: seq<nat>, batch: nat, c: nat)
    requires Advances(prev, bells, batch, c)
    ensures c == if bells == [] then prev else bells[|bells| - 1]
    decreases |bells|
  {
    if bells != [] { AdvancesEnd(bells[0], bells[1..], batch, c); }
  }

  lemma LockStep(q: QM.Queue, mode: QM.Mode)
    requires QM.QInv(q) && q.mode == QM.Unlocked && (mode == QM.Listing || mode == QM.Session)
    ensures F.QEnabled(q, F.Locks(mode)) && F.QApply(q, F.Locks(mode)) == QM.Lock(q, mode)
  {
    hide QM.QInv, QM.Lock;
  }

  lemma UnlockStep(q: QM.Queue)
    requires QM.QInv(q) && QM.CanUnlock(q)
    ensures F.QEnabled(q, F.Unlocks) && F.QApply(q, F.Unlocks) == QM.Unlock(q)
  {
    hide QM.QInv, QM.CanUnlock;
  }

  /**
   A list post is a run of the machine, under the queue's lock from beginning to end, whatever prefix it
   accepts and however its doorbells are batched.
   */
  lemma PostSendRefines(q: QM.Queue, sq: Sq, cfg: Config, wrs: seq<SendWr>, enc: TxWqe -> nat)
    returns (es: seq<F.QueueStep>, q': QM.Queue)
    requires QM.QInv(q) && q.mode == QM.Unlocked && SqOk(sq) && Shows(q, sq, enc)
    requires Rung(sq, cfg) && 1 <= cfg.maxBatch < U16
    ensures HostRun(q, es, q') && OneCall(es) && QM.QInv(q') && q'.mode == QM.Unlocked
    ensures Shows(q', PostList(sq, cfg, wrs, 0, 0).sq, enc)
    ensures forall fs {:trigger HostSteps(fs)} :: HostSteps(fs) == es ==>
              Mixed(q, fs).mode == QM.Unlocked && Shows(Mixed(q, fs), PostList(sq, cfg, wrs, 0, 0).sq, enc)
  {
    hide QM.QInv, HostRun, Mirrors, SqOk, PostList, F.QApply, Advances, Mixed, SameHost;
    LockStep(q, QM.Listing);
    OneStep(q, F.Locks(QM.Listing));
    var q1 := F.QApply(q, F.Locks(QM.Listing));
    var es2, q2 := ListRefines(q1, sq, cfg, wrs, 0, 0, enc);
    var sq' := PostList(sq, cfg, wrs, 0, 0).sq;
    PostListKeepsRung(sq, cfg, wrs);
    AdvancesEnd(0, sq'.bells, cfg.maxBatch, sq'.wq.pc);
    UnlockStep(q2);
    OneStep(q2, F.Unlocks);
    q' := F.QApply(q2, F.Unlocks);
    RunJoin(q1, es2, q2, [F.Unlocks], q');
    RunJoin(q, [F.Locks(QM.Listing)], q1, es2 + [F.Unlocks], q');
    es := [F.Locks(QM.Listing)] + (es2 + [F.Unlocks]);
    ClosesLast(es2, F.Unlocks);
    CallOf(F.Locks(QM.Listing), es2, [F.Unlocks]);
    assert es == [F.Locks(QM.Listing)] + es2 + [F.Unlocks];
    AnyFetches(q, es, q');
    forall fs {:trigger HostSteps(fs)} | HostSteps(fs) == es
      ensures Mixed(q, fs).mode == QM.Unlocked && Shows(Mixed(q, fs), sq', enc)
    {
      ShowsAnyway(q', Mixed(q, fs), sq', enc);
    }
  }

  lemma ShowsAnyway(a: QM.Queue, b: QM.Queue, sq: Sq, enc: TxWqe -> nat)
    requires SameHost(a, b) && Shows(a, sq, enc)
    ensures Shows(b, sq, enc) && b.mode == a.mode
  {
    hide Mirrors;
  }

  // ---- sessions ----------------------------------------------------------------------------------

  /**
   The machine's queue during a session: it stages each descriptor when its send call is made, already
   with the contents `final` that the session's setters will have given it in the end.
   */
  ghost predicate Stages(q: QM.Queue, sq: Sq, final: seq<TxWqe>, enc: TxWqe -> nat) {
    && q.wq == sq.wq && Mirrors(q.ring, sq.ring, enc) && q.db == LastBellOf(sq.bells) && q.todo == []
    && q.mode == QM.Session && q.pending == sq.pending && q.phaseRb == sq.phaseRb
    && |q.staged| == sq.pending <= |sq.local| == |final|
    && (forall k :: 0 <= k < |q.staged| ==> q.staged[k] == Abstract(sq.local[k], enc).(body := enc(final[k])))
  }

  lemma StagesAnyway(q: QM.Queue, sq: Sq, r: Sq, final: seq<TxWqe>, enc: TxWqe -> nat)
    requires Stages(q, sq, final, enc) && r == sq.(local := r.local, err := r.err) && |r.local| == |sq.local|
    requires forall k :: 0 <= k < |sq.local| ==>
               r.local[k].reqId == sq.local[k].reqId && r.local[k].ctrl2 == sq.local[k].ctrl2
    ensures Stages(q, r, final, enc)
  {
    hide Mirrors;
  }

  lemma StagedAbstract(w: TxWqe, phase: nat, idx: nat, enc: TxWqe -> nat, body: nat)
    requires idx < 0x8000 && w.reqId == Wrap16(idx) && w.ctrl2 == SetCtrl2(0, PhaseBit(phase))
    ensures Abstract(w, enc).(body := body) == QM.Desc(idx, true, true, phase % 2, body)
  {
    hide SetCtrl2, PhaseBit;
    CtrlAbstract(phase);
  }

  lemma LocalSize(sq: Sq)
    requires SessionSq(sq)
    ensures |sq.local| == sq.wq.cnt
  {
    hide Shape, RingSize;
  }

  /** One call of a session. */
  lemma DoRefines(q: QM.Queue, sq: Sq, cfg: Config, op: Op, final: seq<TxWqe>, enc: TxWqe -> nat)
    returns (es: seq<F.QueueStep>, q': QM.Queue)
    requires QM.QInv(q) && SessionSq(sq) && (IsBuilder(op) || Ready(sq)) && Stages(q, sq, final, enc)
    ensures HostRun(q, es, q') && Inner(es) && QM.QInv(q') && Stages(q', Do(sq, cfg, op), final, enc)
  {
    hide QM.QInv, HostRun, Mirrors, Abstract, Do, Validate, Full, Shape, Take, RingSize, SetCtrl2, PhaseBit, SlotOf;
    LocalSize(sq);
    LocalSize(Do(sq, cfg, op));
    if IsBuilder(op) { BuilderKeeps(sq, cfg, op); } else { SetterKeeps(sq, cfg, op); }
    if Accepted(sq, cfg, op) == [] {
      StagesAnyway(q, sq, Do(sq, cfg, op), final, enc);
      es, q' := [], q;
      NoRun(q);
    } else {
      var n, r := sq.pending, Do(sq, cfg, op);
      TakenBounds(sq);
      es, q' := TakeStep(q, op.wrId, enc(final[n]));
      StagedAbstract(r.local[n], sq.wq.phase, HeadIndex(sq.wq), enc, enc(final[n]));
      assert forall k :: 0 <= k < n ==> r.local[k] == sq.local[k];
    }
  }

  lemma {:induction false} SessionRefines(q: QM.Queue, sq: Sq, cfg: Config, ops: seq<Op>, final: seq<TxWqe>,
                                        enc: TxWqe -> nat)
    returns (es: seq<F.QueueStep>, q': QM.Queue)
    requires QM.QInv(q) && SessionSq(sq) && Scripted(sq, ops) && Stages(q, sq, final, enc)
    ensures HostRun(q, es, q') && Inner(es) && QM.QInv(q') && Stages(q', RunOps(sq, cfg, ops), final, enc)
    decreases |ops|
  {
    hide QM.QInv, HostRun, Stages, SessionSq, Do;
    if ops == [] {
      es, q' := [], q;
      NoRun(q);
    } else {
      var es1, q1 := DoRefines(q, sq, cfg, ops[0], final, enc);
      var es2, q2 := SessionRefines(q1, Do(sq, cfg, ops[0]), cfg, ops[1..], final, enc);
      RunJoin(q, es1, q1, es2, q2);
      es, q' := es1 + es2, q2;
    }
  }

  /** The copy loop's state: these descriptors are staged, the rest is in the ring. */
  ghost predicate Copying(q: QM.Queue, ring: seq<TxWqe>, ds: seq<TxWqe>, pc: nat, bells: seq<nat>, enc: TxWqe -> nat) {
    && q.mode == QM.Committing && q.todo == [] && Mirrors(q.staged, ds, enc) && Mirrors(q.ring, ring, enc)
    && pc == Wrap16(q.wq.pc - |ds|) && q.db == LastBellOf(bells)
  }

  lemma CopyStep(q: QM.Queue)
    requires QM.QInv(q) && q.mode == QM.Committing && q.staged != []
    ensures F.QEnabled(q, F.Copies) && 0 < |q.ring| && RingSize(|q.ring|)
    ensures F.QApply(q, F.Copies)
         == q.(ring := q.ring[SlotOf(Wrap16(q.wq.pc - |q.staged|), |q.ring|) := q.staged[0]],
               staged := q.staged[1..], written := q.written + 1)
  {
    hide QM.QInv, SlotOf, BitAnd, RingSize, Wrap16;
    RunsBounds(q);
    QM.CopyKeeps(q);
    CopiedSlot(Wrap16(q.wq.pc - |q.staged|), |q.ring|);
  }

  lemma CopiedSlot(pc: nat, n: nat)
    requires pc < U16 && RingSize(n) && 0 < n
    ensures BitAnd(pc, n - 1) == SlotOf(pc, n)
  {
    hide SlotOf, BitAnd;
    Slot(pc, n);
  }

  lemma CopyOne(q: QM.Queue, ring: seq<TxWqe>, ds: seq<TxWqe>, pc: nat, bells: seq<nat>, enc: TxWqe -> nat)
    returns (q': QM.Queue)
    requires QM.QInv(q) && Copying(q, ring, ds, pc, bells, enc) && ds != []
    ensures 0 < |ring| && RingSize(|ring|) && HostRun(q, [F.Copies], q') && QM.QInv(q') && q'.wq == q.wq
    ensures Copying(q', ring[SlotOf(pc, |ring|) := ds[0]], ds[1..], Wrap16(pc + 1), bells, enc)
  {
    hide QM.QInv, HostRun, SlotOf, Wrap16, Abstract, RingSize, F.QApply, F.QEnabled;
    CopyStep(q);
    OneStep(q, F.Copies);
    q' := F.QApply(q, F.Copies);
    Wrap16Add(q.wq.pc - |ds|, 1);
    MirrorsUpdate(q.ring, ring, enc, SlotOf(pc, |ring|), q.staged[0], ds[0]);
  }

  lemma BellStep(q: QM.Queue, ring: seq<TxWqe>, ds: seq<TxWqe>, pc: nat, bells: seq<nat>, enc: TxWqe -> nat)
    returns (q': QM.Queue)
    requires QM.QInv(q) && Copying(q, ring, ds, pc, bells, enc)
    ensures HostRun(q, [F.RingsDoorbell], q') && QM.QInv(q') && q'.wq == q.wq
    ensures Copying(q', ring, ds, pc, bells + [pc], enc)
  {
    hide QM.QInv, HostRun, Wrap16, Abstract;
    OneStep(q, F.RingsDoorbell);
    q' := F.QApply(q, F.RingsDoorbell);
    assert q' == QM.Doorbell(q);
  }

  /** Copying one descriptor at a time, with the doorbells of the batches, is a run of the machine. */
  lemma {:induction false} CopyRefines(q: QM.Queue, ring: seq<TxWqe>, ds: seq<TxWqe>, pc: nat, bells: seq<nat>,
                                       cur: nat, batch: nat, enc: TxWqe -> nat)
    returns (es: seq<F.QueueStep>, q': QM.Queue)
    requires QM.QInv(q) && Copying(q, ring, ds, pc, bells, enc) && 0 < |ring|
    ensures HostRun(q, es, q') && Inner(es) && QM.QInv(q') && q'.wq == q.wq
    ensures Copying(q', WriteAll(ring, pc, ds), [], q.wq.pc, bells + Doorbells(pc, |ds|, cur, batch), enc)
    decreases |ds|
  {
    hide QM.QInv, HostRun, SlotOf, Wrap16, Copying, RingSize, Doorbells;
    CopyingPc(q, ring, ds, pc, bells, enc);
    DoorbellsStep(pc, |ds|, cur, batch);
    if ds == [] {
      if cur > 0 {
        q' := BellStep(q, ring, ds, pc, bells, enc);
        es := [F.RingsDoorbell];
      } else {
        es, q' := [], q;
        NoRun(q);
        assert bells + [] == bells;
      }
    } else {
      var q1 := CopyOne(q, ring, ds, pc, bells, enc);
      var ring1, pc1 := ring[SlotOf(pc, |ring|) := ds[0]], Wrap16(pc + 1);
      PostsWrite(ring, pc, ds[0], ds[1..]);
      assert [ds[0]] + ds[1..] == ds;
      if cur + 1 == batch {
        var q2 := BellStep(q1, ring1, ds[1..], pc1, bells, enc);
        var es3, q3 := CopyRefines(q2, ring1, ds[1..], pc1, bells + [pc1], 0, batch, enc);
        RunJoin(q1, [F.RingsDoorbell], q2, es3, q3);
        RunJoin(q, [F.Copies], q1, [F.RingsDoorbell] + es3, q3);
        es, q' := [F.Copies] + ([F.RingsDoorbell] + es3), q3;
        assert bells + [pc1] + Doorbells(pc1, |ds| - 1, 0, batch)
          == bells + ([pc1] + Doorbells(pc1, |ds| - 1, 0, batch));
      } else {
        var es3, q3 := CopyRefines(q1, ring1, ds[1..], pc1, bells, cur + 1, batch, enc);
        RunJoin(q, [F.Copies], q1, es3, q3);
        es, q' := [F.Copies] + es3, q3;
      }
    }
  }

  lemma DoorbellsStep(pc: nat, n: nat, cur: nat, batch: nat)
    ensures n == 0 ==> Doorbells(pc, n, cur, batch) == if cur > 0 then [pc] else []
    ensures n > 0 && cur + 1 == batch ==>
              Doorbells(pc, n, cur, batch) == [Wrap16(pc + 1)] + Doorbells(Wrap16(pc + 1), n - 1, 0, batch)
    ensures n > 0 && cur + 1 != batch ==>
              Doorbells(pc, n, cur, batch) == Doorbells(Wrap16(pc + 1), n - 1, cur + 1, batch)
  {
    hide Wrap16;
  }

  lemma CopyingPc(q: QM.Queue, ring: seq<TxWqe>, ds: seq<TxWqe>, pc: nat, bells: seq<nat>, enc: TxWqe -> nat)
    requires QM.QInv(q) && Copying(q, ring, ds, pc, bells, enc)
    ensures ds == [] ==> pc == q.wq.pc
  {
    hide QM.QInv, Mirrors;
    RunsBounds(q);
    PcFits(q.wq);
  }

  lemma SessionBegins(q: QM.Queue, sq: Sq, final: seq<TxWqe>, enc: TxWqe -> nat) returns (q1: QM.Queue)
    requires QM.QInv(q) && q.mode == QM.Unlocked && SqOk(sq) && Shows(q, sq, enc) && |final| == |sq.local|
    ensures HostRun(q, [F.Locks(QM.Session)], q1) && QM.QInv(q1) && Stages(q1, Start(sq), final, enc)
  {
    hide QM.QInv, HostRun, Mirrors, RingSize, F.QApply;
    LockStep(q, QM.Session);
    OneStep(q, F.Locks(QM.Session));
    q1 := F.QApply(q, F.Locks(QM.Session));
  }

  lemma AbortStep(q: QM.Queue, sq: Sq, final: seq<TxWqe>, enc: TxWqe -> nat) returns (q': QM.Queue)
    requires QM.QInv(q) && Stages(q, sq, final, enc)
    ensures HostRun(q, [F.Aborts], q') && QM.QInv(q') && q'.mode == QM.Unlocked && Shows(q', Abort(sq), enc)
  {
    hide QM.QInv, HostRun, Mirrors, RollBack, Abstract;
    QM.AbortKeeps(q);
    OneStep(q, F.Aborts);
    q' := F.QApply(q, F.Aborts);
  }

  lemma CommitStep(q: QM.Queue, sq: Sq, enc: TxWqe -> nat) returns (q': QM.Queue)
    requires QM.QInv(q) && SessionSq(sq) && Stages(q, sq, sq.local, enc) && sq.pending <= |sq.local|
    ensures HostRun(q, [F.Commits], q') && QM.QInv(q') && q'.wq == sq.wq && 0 < |sq.ring|
    ensures Copying(q', sq.ring, sq.local[..sq.pending], Wrap16(sq.wq.pc - sq.pending), sq.bells, enc)
  {
    hide QM.QInv, HostRun, Wrap16, Shape, RingSize;
    OneStep(q, F.Commits);
    q' := F.QApply(q, F.Commits);
    assert q' == QM.Commit(q);
  }

  lemma FinishCopying(q: QM.Queue, sq: Sq, cfg: Config, enc: TxWqe -> nat) returns (q': QM.Queue)
    requires QM.QInv(q) && SessionSq(sq) && sq.err == OK && q.wq == sq.wq && Rung(Complete(sq, cfg), cfg)
    requires Copying(q, Complete(sq, cfg).ring, [], sq.wq.pc, Complete(sq, cfg).bells, enc)
    ensures HostRun(q, [F.Unlocks], q') && QM.QInv(q') && q'.mode == QM.Unlocked && Shows(q', Complete(sq, cfg), enc)
  {
    hide QM.QInv, HostRun, WriteAll, Doorbells, SqOk, Advances, Wrap16, F.QApply, F.QEnabled, Abstract;
    AdvancesEnd(0, Complete(sq, cfg).bells, cfg.maxBatch, sq.wq.pc);
    UnlockStep(q);
    OneStep(q, F.Unlocks);
    q' := F.QApply(q, F.Unlocks);
  }

  /** How a session that saw no error ends: commit, copy, unlock. */
  lemma PublishRefines(q: QM.Queue, sq: Sq, cfg: Config, enc: TxWqe -> nat)
    returns (es: seq<F.QueueStep>, q': QM.Queue)
    requires QM.QInv(q) && SessionSq(sq) && sq.err == OK && Stages(q, sq, sq.local, enc) && Rung(Complete(sq, cfg), cfg)
    ensures HostRun(q, es, q') && Closes(es)
    ensures QM.QInv(q') && q'.mode == QM.Unlocked && Shows(q', Complete(sq, cfg), enc)
  {
    hide QM.QInv, HostRun, WriteAll, Doorbells, Advances, Wrap16, Copying, Shows, Abstract, Shape, RingSize,
      Rung, Mirrors;
    var ds, pc := sq.local[..sq.pending], Wrap16(sq.wq.pc - sq.pending);
    var q1 := CommitStep(q, sq, enc);
    var es2, q2 := CopyRefines(q1, sq.ring, ds, pc, sq.bells, 0, cfg.maxBatch, enc);
    q' := FinishCopying(q2, sq, cfg, enc);
    RunJoin(q1, es2, q2, [F.Unlocks], q');
    RunJoin(q, [F.Commits], q1, es2 + [F.Unlocks], q');
    es := [F.Commits] + (es2 + [F.Unlocks]);
    ClosesLast([F.Commits] + es2, F.Unlocks);
    assert es == [F.Commits] + es2 + [F.Unlocks];
  }

  /**
   A whole session, any sequence of its calls ended by complete or abort, is a run of the machine under
   the queue's lock: with an error or an abort one that rolls back, otherwise one that publishes.
   */
  lemma WholeSessionRefines(q: QM.Queue, sq: Sq, cfg: Config, ops: seq<Op>, aborts: bool, enc: TxWqe -> nat)
    returns (es: seq<F.QueueStep>, q': QM.Queue)
    requires QM.QInv(q) && q.mode == QM.Unlocked && SqOk(sq) && Shows(q, sq, enc)
    requires Rung(sq, cfg) && 1 <= cfg.maxBatch < U16 && SessionSq(Start(sq)) && Scripted(Start(sq), ops)
    ensures HostRun(q, es, q') && OneCall(es) && QM.QInv(q') && q'.mode == QM.Unlocked
    ensures var mid := RunOps(Start(sq), cfg, ops);
            && Shows(q', if aborts then Abort(mid) else Complete(mid, cfg), enc)
            && forall fs {:trigger HostSteps(fs)} :: HostSteps(fs) == es ==>
                 && Mixed(q, fs).mode == QM.Unlocked
                 && Shows(Mixed(q, fs), if aborts then Abort(mid) else Complete(mid, cfg), enc)
  {
    hide QM.QInv, HostRun, Shows, Stages, SqOk, RunOps, Rung, Complete, Abort, Do, Mixed, SameHost;
    var mid := RunOps(Start(sq), cfg, ops);
    LocalStays(sq, cfg, ops);
    SessionKeepsRung(sq, cfg, ops);
    var q1 := SessionBegins(q, sq, mid.local, enc);
    var es2, q2 := SessionRefines(q1, Start(sq), cfg, ops, mid.local, enc);
    RunJoin(q, [F.Locks(QM.Session)], q1, es2, q2);
    var es3: seq<F.QueueStep>;
    if aborts || mid.err != OK {
      q' := AbortStep(q2, mid, mid.local, enc);
      es3 := [F.Aborts];
      ClosesLast([], F.Aborts);
      if mid.err != OK { FailedCompletes(mid, cfg); }
    } else {
      es3, q' := PublishRefines(q2, mid, cfg, enc);
    }
    RunJoin(q, [F.Locks(QM.Session)] + es2, q2, es3, q');
    es := [F.Locks(QM.Session)] + es2 + es3;
    CallOf(F.Locks(QM.Session), es2, es3);
    AnyFetches(q, es, q');
    forall fs {:trigger HostSteps(fs)} | HostSteps(fs) == es
      ensures Mixed(q, fs).mode == QM.Unlocked
      ensures Shows(Mixed(q, fs), if aborts then Abort(mid) else Complete(mid, cfg), enc)
    {
      ShowsAnyway(q', Mixed(q, fs), if aborts then Abort(mid) else Complete(mid, cfg), enc);
    }
  }

  lemma FailedCompletes(sq: Sq, cfg: Config)
    requires SessionSq(sq) && sq.err != OK
    ensures Complete(sq, cfg) == Abort(sq)
  {
    hide SqOk;
  }

  lemma LocalStays(sq: Sq, cfg: Config, ops: seq<Op>)
    requires SqOk(sq) && SessionSq(Start(sq)) && Scripted(Start(sq), ops)
    ensures |RunOps(Start(sq), cfg, ops).local| == |sq.local|
  {
    hide RunOps, TakeAll, Abort, Complete, SessionIds;
    SessionIsAtomic(sq, cfg, ops);
    LocalSize(RunOps(Start(sq), cfg, ops));
    LocalSize(Start(sq));
  }

  /** A newly created send queue, and a queue of the machine that shows it: runs start somewhere. */
  lemma FreshShows(cnt: nat, wrid: seq<nat>, cfg: Config, enc: TxWqe -> nat) returns (q: QM.Queue, sq: Sq)
    requires RingSize(cnt) && 0 < cnt == |wrid|
    ensures sq == Sq(Fresh(cnt, cnt - 1, wrid), seq(cnt, i => ZERO), seq(cnt, i => ZERO), 0, 0, OK, [])
    ensures q.sub == 0 && q.wq == sq.wq
    ensures SqOk(sq) && Rung(sq, cfg) && F.QueueInit(q) && QM.QInv(q) && q.mode == QM.Unlocked && Shows(q, sq, enc)
  {
    hide RingSize, QM.QInv;
    sq := Sq(Fresh(cnt, cnt - 1, wrid), seq(cnt, i => ZERO), seq(cnt, i => ZERO), 0, 0, OK, []);
    var ring := seq(cnt, i => Abstract(ZERO, enc));
    q := QM.Queue(0, 1, sq.wq, QM.Unlocked, [], 0, false, [], 0, 0, ring, 0, 0, 0, {}, [], [], [],
                  0, 0, 0, 0, map[], {});
    AtMost(cnt);
    FreshInv(cnt, cnt - 1, wrid);
    F.QueueInitInv(q);
  }

  lemma AtMost(n: nat)
    requires RingSize(n)
    ensures n <= 0x8000
  {
  }

  // ---- receives ----------------------------------------------------------------------------------

  /** A receive descriptor as the machine sees it; it carries no phase. */
  function AbstractRx(d: RxDesc, enc: RxDesc -> nat): QM.Desc {
    QM.Desc(d.reqId, IsFirst(d), IsLast(d), 0, enc(d))
  }

  ghost predicate MirrorsRx(a: seq<QM.Desc>, b: seq<RxDesc>, enc: RxDesc -> nat) {
    |a| == |b| && forall k :: 0 <= k < |a| ==> a[k].(phase := 0) == AbstractRx(b[k], enc)
  }

  /** The machine's queue shows the receive queue while it is being posted to. */
  ghost predicate ShowsRx(q: QM.Queue, rq: Rq, cfg: RecvConfig, enc: RxDesc -> nat) {
    && q.wq == rq.wq && MirrorsRx(q.ring, rq.ring, enc) && q.maxDesc == cfg.maxSge && q.staged == []
  }

  function Bodies(idx: nat, sgl: seq<RxSge>, enc: RxDesc -> nat): (r: seq<nat>)
    ensures |r| == |sgl|
  {
    seq<nat>(|sgl|, i requires 0 <= i < |sgl| => enc(RxDescOf(idx, sgl, i)))
  }

  /** Half-way through a request's scatter entries. */
  ghost predicate Writing(q: QM.Queue, idx: nat, sgl: seq<RxSge>, i: nat, enc: RxDesc -> nat) {
    && q.mode == QM.Listing && i <= |sgl| && q.todo == Bodies(idx, sgl, enc)[i..]
    && (i < |sgl| ==> q.first == (i == 0) && q.head == if i == 0 then idx else 0)
  }

  lemma MirrorsRxUpdate(a: seq<QM.Desc>, b: seq<RxDesc>, enc: RxDesc -> nat, k: nat, d: QM.Desc, w: RxDesc)
    requires MirrorsRx(a, b, enc) && k < |a| && d.(phase := 0) == AbstractRx(w, enc)
    ensures MirrorsRx(a[k := d], b[k := w], enc)
  {
    hide AbstractRx;
  }

  lemma WriteOne(q: QM.Queue, rq: Rq, cfg: RecvConfig, idx: nat, sgl: seq<RxSge>, i: nat, enc: RxDesc -> nat)
    returns (q': QM.Queue)
    requires QM.QInv(q) && RqOk(rq) && ShowsRx(q, rq, cfg, enc) && i < |sgl| && Writing(q, idx, sgl, i, enc)
             && idx < 0x8000
    ensures HostRun(q, [F.Emits], q') && QM.QInv(q') && q'.db == q.db
    ensures ShowsRx(q', PutRx(rq, RxDescOf(idx, sgl, i)), cfg, enc) && Writing(q', idx, sgl, i + 1, enc)
  {
    hide QM.QInv, HostRun, SlotOf, BitAnd, Shape, RingSize, RxDescOf, ReadSge, IsFirst, IsLast,
      ReceiveRing.Fits, Wrap16;
    EmitStep(q);
    OneStep(q, F.Emits);
    q' := F.QApply(q, F.Emits);
    DescReads(idx, sgl, i);
    DescId(idx, sgl, i);
    RunsBounds(q);
    MaskedSlot(q.wq, |q.ring|);
    MirrorsRxUpdate(q.ring, rq.ring, enc, SlotOf(q.wq.pc, |q.ring|), QM.NextDesc(q), RxDescOf(idx, sgl, i));
    assert q'.todo == Bodies(idx, sgl, enc)[i + 1..];
  }

  lemma DescId(idx: nat, sgl: seq<RxSge>, i: nat)
    requires i < |sgl| && idx < 0x8000
    ensures RxDescOf(idx, sgl, i).reqId == if i == 0 then idx else 0
  {
    hide ControlWord;
  }

  lemma {:induction false} SgesRefine(q: QM.Queue, rq: Rq, cfg: RecvConfig, idx: nat, sgl: seq<RxSge>, i: nat,
                                    enc: RxDesc -> nat)
    returns (es: seq<F.QueueStep>, q': QM.Queue)
    requires QM.QInv(q) && RqOk(rq) && ShowsRx(q, rq, cfg, enc) && Writing(q, idx, sgl, i, enc) && idx < 0x8000
    ensures HostRun(q, es, q') && Inner(es) && QM.QInv(q') && q'.mode == QM.Listing && q'.todo == [] && q'.db == q.db
    ensures ShowsRx(q', PostSges(rq, idx, sgl, i), cfg, enc)
    decreases |sgl| - i
  {
    hide QM.QInv, HostRun, ShowsRx, RqOk, PutRx, RxDescOf;
    if i == |sgl| {
      es, q' := [], q;
      NoRun(q);
    } else {
      var q1 := WriteOne(q, rq, cfg, idx, sgl, i, enc);
      var es2, q2 := SgesRefine(q1, PutRx(rq, RxDescOf(idx, sgl, i)), cfg, idx, sgl, i + 1, enc);
      RunJoin(q, [F.Emits], q1, es2, q2);
      es, q' := [F.Emits] + es2, q2;
    }
  }

  lemma AcceptRefines(q: QM.Queue, rq: Rq, cfg: RecvConfig, wr: RecvWr, enc: RxDesc -> nat)
    returns (es: seq<F.QueueStep>, q': QM.Queue)
    requires QM.QInv(q) && RqOk(rq) && ShowsRx(q, rq, cfg, enc) && q.mode == QM.Listing && q.todo == []
    requires !Full(rq.wq) && 1 <= |wr.sgl| <= cfg.maxSge
    ensures HostRun(q, es, q') && Inner(es)
    ensures QM.QInv(q') && q'.db == q.db && rq.wq.next < |rq.wq.pool| && HeadIndex(rq.wq) < 0x8000
    ensures ShowsRx(q', rq.(wq := Accept(rq.wq, wr.wrId)), cfg, enc) && Writing(q', HeadIndex(rq.wq), wr.sgl, 0, enc)
  {
    hide QM.QInv, HostRun, SlotOf, BitAnd, Full, RingSize, RxDescOf, Wrap16, Wrap32, MirrorsRx, F.QApply, Counts;
    CountersMove(rq.wq);
    var r := QM.Request(wr.wrId, Bodies(HeadIndex(rq.wq), wr.sgl, enc));
    BeginStep(q, r);
    OneStep(q, F.Begins(r));
    es, q' := [F.Begins(r)], F.QApply(q, F.Begins(r));
  }

  lemma RecvOneRefines(q: QM.Queue, rq: Rq, cfg: RecvConfig, wr: RecvWr, enc: RxDesc -> nat)
    returns (es: seq<F.QueueStep>, q': QM.Queue)
    requires QM.QInv(q) && RqOk(rq) && ShowsRx(q, rq, cfg, enc) && q.mode == QM.Listing && q.todo == []
    requires !Full(rq.wq) && 1 <= |wr.sgl| <= cfg.maxSge
    ensures HostRun(q, es, q') && Inner(es) && QM.QInv(q') && q'.mode == QM.Listing && q'.todo == []
    ensures ShowsRx(q', PostRecvOne(rq, wr), cfg, enc)
  {
    hide QM.QInv, HostRun, ShowsRx, Shape, RingSize, PostSges, Accept, Full, Writing;
    var es1, q1 := AcceptRefines(q, rq, cfg, wr, enc);
    CountersMove(rq.wq);
    var es2, q2 := SgesRefine(q1, rq.(wq := Accept(rq.wq, wr.wrId)), cfg, HeadIndex(rq.wq), wr.sgl, 0, enc);
    RunJoin(q, es1, q1, es2, q2);
    es, q' := es1 + es2, q2;
  }

  lemma RecvBell(q: QM.Queue, rq: Rq, cfg: RecvConfig, enc: RxDesc -> nat) returns (q': QM.Queue)
    requires QM.QInv(q) && RqOk(rq) && ShowsRx(q, rq, cfg, enc) && q.mode == QM.Listing && q.todo == []
    ensures HostRun(q, [F.RingsDoorbell], q') && QM.QInv(q') && q'.mode == QM.Listing && q'.todo == []
    ensures ShowsRx(q', rq.(bells := rq.bells + [rq.wq.pc]), cfg, enc) && q'.db == rq.wq.pc
  {
    hide QM.QInv, HostRun, MirrorsRx, RingSize;
    OneStep(q, F.RingsDoorbell);
    q' := F.QApply(q, F.RingsDoorbell);
    assert q' == QM.Doorbell(q);
    PcFits(rq.wq);
  }

  lemma {:induction false} RecvListRefines(q: QM.Queue, rq: Rq, cfg: RecvConfig, wrs: seq<RecvWr>, i: nat,
                                         enc: RxDesc -> nat)
    returns (es: seq<F.QueueStep>, q': QM.Queue)
    requires QM.QInv(q) && RqOk(rq) && i <= |wrs| && ShowsRx(q, rq, cfg, enc) && q.mode == QM.Listing && q.todo == []
    requires forall k :: 0 <= k < |wrs| ==> wrs[k].sgl != []
    ensures HostRun(q, es, q') && Inner(es) && QM.QInv(q') && q'.mode == QM.Listing && q'.todo == []
    ensures ShowsRx(q', PostRecvList(rq, cfg, wrs, i).rq, cfg, enc) && q'.db == PostRecvList(rq, cfg, wrs, i).rq.wq.pc
    decreases |wrs| - i
  {
    hide QM.QInv, HostRun, ShowsRx, RqOk, PostRecvOne, Full;
    if i < |wrs| && ValidateRecv(rq.wq, cfg, wrs[i]) == OK {
      var es1, q1 := RecvOneRefines(q, rq, cfg, wrs[i], enc);
      var es2, q2 := RecvListRefines(q1, PostRecvOne(rq, wrs[i]), cfg, wrs, i + 1, enc);
      RunJoin(q, es1, q1, es2, q2);
      es, q' := es1 + es2, q2;
    } else {
      q' := RecvBell(q, rq, cfg, enc);
      es := [F.RingsDoorbell];
    }
  }

  /** A receive post is a run of the machine, provided each request has a scatter entry. */
  lemma PostRecvRefines(q: QM.Queue, rq: Rq, cfg: RecvConfig, wrs: seq<RecvWr>, enc: RxDesc -> nat)
    returns (es: seq<F.QueueStep>, q': QM.Queue)
    requires QM.QInv(q) && q.mode == QM.Unlocked && q.todo == [] && RqOk(rq) && ShowsRx(q, rq, cfg, enc)
    requires forall k :: 0 <= k < |wrs| ==> wrs[k].sgl != []
    ensures HostRun(q, es, q') && OneCall(es) && QM.QInv(q') && q'.mode == QM.Unlocked && q'.todo == []
    ensures ShowsRx(q', PostRecvList(rq, cfg, wrs, 0).rq, cfg, enc)
    ensures q'.db == PostRecvList(rq, cfg, wrs, 0).rq.wq.pc
    ensures forall fs {:trigger HostSteps(fs)} :: HostSteps(fs) == es ==>
              && Mixed(q, fs).mode == QM.Unlocked && Mixed(q, fs).db == q'.db
              && ShowsRx(Mixed(q, fs), PostRecvList(rq, cfg, wrs, 0).rq, cfg, enc)
  {
    hide QM.QInv, HostRun, MirrorsRx, RqOk, PostRecvList, F.QApply, Mixed, SameHost;
    LockStep(q, QM.Listing);
    OneStep(q, F.Locks(QM.Listing));
    var q1 := F.QApply(q, F.Locks(QM.Listing));
    var es2, q2 := RecvListRefines(q1, rq, cfg, wrs, 0, enc);
    UnlockStep(q2);
    OneStep(q2, F.Unlocks);
    q' := F.QApply(q2, F.Unlocks);
    RunJoin(q1, es2, q2, [F.Unlocks], q');
    RunJoin(q, [F.Locks(QM.Listing)], q1, es2 + [F.Unlocks], q');
    es := [F.Locks(QM.Listing)] + (es2 + [F.Unlocks]);
    ClosesLast(es2, F.Unlocks);
    CallOf(F.Locks(QM.Listing), es2, [F.Unlocks]);
    assert es == [F.Locks(QM.Listing)] + es2 + [F.Unlocks];
    AnyFetches(q, es, q');
    forall fs {:trigger HostSteps(fs)} | HostSteps(fs) == es
      ensures Mixed(q, fs).mode == QM.Unlocked && Mixed(q, fs).db == q'.db
      ensures ShowsRx(Mixed(q, fs), PostRecvList(rq, cfg, wrs, 0).rq, cfg, enc)
    {
      ShowsRxAnyway(q', Mixed(q, fs), PostRecvList(rq, cfg, wrs, 0).rq, cfg, enc);
    }
  }

  lemma ShowsRxAnyway(a: QM.Queue, b: QM.Queue, rq: Rq, cfg: RecvConfig, enc: RxDesc -> nat)
    requires SameHost(a, b) && ShowsRx(a, rq, cfg, enc)
    ensures ShowsRx(b, rq, cfg, enc) && b.mode == a.mode && b.db == a.db
  {
    hide MirrorsRx;
  }

  /** A newly created receive queue, and a queue of the machine that shows it. */
  lemma FreshRecvShows(cnt: nat, size: nat, wrid: seq<nat>, cfg: RecvConfig, enc: RxDesc -> nat)
    returns (q: QM.Queue, rq: Rq)
    requires RingSize(size) && 0 < size && |wrid| == cnt && 1 <= cfg.maxSge && cnt * cfg.maxSge <= size
    ensures rq == Rq(Fresh(cnt, size - 1, wrid), seq(size, i => RxDesc(0, 0, 0, 0, 0)), [])
    ensures q.sub == 1 && q.wq == rq.wq
    ensures RqOk(rq) && F.QueueInit(q) && QM.QInv(q) && q.mode == QM.Unlocked && q.todo == []
            && ShowsRx(q, rq, cfg, enc)
  {
    hide RingSize, QM.QInv;
    var none := RxDesc(0, 0, 0, 0, 0);
    rq := Rq(Fresh(cnt, size - 1, wrid), seq(size, i => none), []);
    var ring := seq(size, i => AbstractRx(none, enc));
    q := QM.Queue(1, cfg.maxSge, rq.wq, QM.Unlocked, [], 0, false, [], 0, 0, ring, 0, 0, 0, {}, [], [], [], 0, 0, 0, 0,
                  map[], {});
    AtMost(size);
    MulMonotone(1, cfg.maxSge, cnt);
    assert cnt * cfg.maxSge == cfg.maxSge * cnt;
    FreshInv(cnt, size - 1, wrid);
    F.QueueInitInv(q);
  }
}
