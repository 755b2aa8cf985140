/**
 Runs in which requests are posted, fetched and completed while nobody polls: how many completions a sub
 completion queue has to have room for.
 */
module Overrun {
  import opened Words
  import opened WridPool
  import opened CompletionRing
  import opened QueueMachine
  import opened Fabric

  // ---- runs --------------------------------------------------------------------------------------

  /** A run of one queue's posting thread and of the device's fetches from it. */
  ghost predicate QueueRun(q: Queue, es: seq<QueueStep>, q': Queue)
    requires QInv(q)
    decreases |es|
  {
    if es == [] then q' == q
    else QEnabled(q, es[0]) && (QStepKeeps(q, es[0]); QueueRun(QApply(q, es[0]), es[1..], q'))
  }

  /** A step of a posting thread or of the device, in a system whose sizes need not fit. */
  ghost predicate Unpolled(s: System, e: Event, s': System) {
    match e
    case OnQueue(i, step) =>
      i < |s.qs| && QInv(s.qs[i]) && QEnabled(s.qs[i], step) && s' == WithQueue(s, i, QApply(s.qs[i], step))
    case Completes(i, idx) =>
      && i < |s.qs| && idx in s.qs[i].outstanding && idx in s.qs[i].tickets
      && s.qs[i].sub < |s.subs| && 0 < |s.subs[s.qs[i].sub].buf| && s' == DoComplete(s, i, idx)
    case _ => false
  }

  ghost predicate UnpolledRun(s: System, es: seq<Event>, s': System)
    decreases |es|
  {
    if es == [] then s' == s else exists s1 :: Unpolled(s, es[0], s1) && UnpolledRun(s1, es[1..], s')
  }

  lemma {:induction false} RunsJoin(s: System, es: seq<Event>, s1: System, fs: seq<Event>, s2: System)
    requires UnpolledRun(s, es, s1) && UnpolledRun(s1, fs, s2)
    ensures UnpolledRun(s, es + fs, s2)
    decreases |es|
  {
    hide Unpolled;
    if es == [] {
      assert es + fs == fs;
    } else {
      var m :| Unpolled(s, es[0], m) && UnpolledRun(m, es[1..], s1);
      RunsJoin(m, es[1..], s1, fs, s2);
      assert (es + fs)[1..] == es[1..] + fs && (es + fs)[0] == es[0];
    }
  }

  lemma SingleStep(s: System, e: Event, s': System)
    requires Unpolled(s, e, s')
    ensures UnpolledRun(s, [e], s')
  {
    hide Unpolled;
    assert [e][1..] == [];
    assert UnpolledRun(s', [], s');
  }

  /** A run of one queue is a run of the system. */
  lemma {:induction false} Lift(s: System, i: nat, es: seq<QueueStep>, q': Queue) returns (fs: seq<Event>)
    requires i < |s.qs| && QInv(s.qs[i]) && QueueRun(s.qs[i], es, q')
    ensures UnpolledRun(s, fs, WithQueue(s, i, q'))
    decreases |es|
  {
    hide QInv, QEnabled, QApply;
    if es == [] {
      fs := [];
      assert WithQueue(s, i, s.qs[i]) == s;
    } else {
      QStepKeeps(s.qs[i], es[0]);
      var s1 := WithQueue(s, i, QApply(s.qs[i], es[0]));
      SingleStep(s, OnQueue(i, es[0]), s1);
      fs := Lift(s1, i, es[1..], q');
      assert WithQueue(s1, i, q') == WithQueue(s, i, q');
      RunsJoin(s, [OnQueue(i, es[0])], s1, fs, WithQueue(s, i, q'));
      fs := [OnQueue(i, es[0])] + fs;
    }
  }

  /** In a system whose invariant holds these are ordinary runs. */
  lemma {:induction false} UnpolledIsRun(s: System, es: seq<Event>, s': System)
    requires Inv(s) && UnpolledRun(s, es, s')
    ensures IsRun(s, es, s')
    decreases |es|
  {
    hide Inv, Unpolled, Enabled, Apply;
    if es != [] {
      var m :| Unpolled(s, es[0], m) && UnpolledRun(m, es[1..], s');
      UnpolledIsStep(s, es[0], m);
      ApplyKeeps(s, es[0]);
      UnpolledIsRun(m, es[1..], s');
    }
  }

  lemma UnpolledIsStep(s: System, e: Event, s': System)
    requires Inv(s) && Unpolled(s, e, s')
    ensures Enabled(s, e) && Apply(s, e) == s'
  {
    hide Inv, QInv, QEnabled, QApply, DoComplete;
    match e
    case OnQueue(i, step) => QueueHolds(s, i);
    case Completes(i, idx) => CompleteKeeps(s, i, idx);
  }

  // ---- posting and fetching one request ----------------------------------------------------------

  /** Everything posted has been fetched and completed, and nothing given back. */
  ghost predicate Rested(q: Queue) {
    && QInv(q) && q.mode == Unlocked && q.outstanding == {} && q.released == {} && q.fetchedReqs == |q.log|
  }

  lemma RestedFields(q: Queue)
    requires Rested(q)
    ensures q.todo == [] && q.staged == [] && q.fetched == q.rung == q.written == |q.dlog|
    ensures LiveCqes(q) == |q.tickets.Keys| == q.wq.next && 1 <= q.maxDesc
    ensures Full(q.wq) <==> |q.tickets.Keys| == q.wq.cnt
  {
    hide SlotOf, LapOf, Wrap16, Wrap32, LogOk, CountOk, TicketOk, SessionOk, RingSize, FreeList, Counts, Full;
    Parts(q);
    FullMeansNoneFree(q.wq, q.tickets.Keys);
    PoolNext(q.wq, q.tickets.Keys);
  }

  lemma PoolNext(w: Wq, inflight: set<nat>)
    requires PoolInv(w, inflight)
    ensures w.next == |inflight| <= w.cnt
  {
    hide Counts;
  }

  lemma QueueStepRuns(q: Queue, e: QueueStep)
    requires QInv(q) && QEnabled(q, e)
    ensures QInv(QApply(q, e)) && QueueRun(q, [e], QApply(q, e))
  {
    hide QInv, QEnabled, QApply;
    QStepKeeps(q, e);
    assert [e][1..] == [];
    assert QueueRun(QApply(q, e), [], QApply(q, e));
  }

  lemma {:induction false} QueueRunsJoin(q: Queue, es: seq<QueueStep>, q1: Queue, fs: seq<QueueStep>, q2: Queue)
    requires QInv(q) && QueueRun(q, es, q1) && QInv(q1) && QueueRun(q1, fs, q2)
    ensures QueueRun(q, es + fs, q2)
    decreases |es|
  {
    hide QInv, QEnabled, QApply;
    if es == [] {
      assert es + fs == fs;
    } else {
      QStepKeeps(q, es[0]);
      QueueRunsJoin(QApply(q, es[0]), es[1..], q1, fs, q2);
      assert (es + fs)[1..] == es[1..] + fs && (es + fs)[0] == es[0];
    }
  }

  /** Posting one request of one descriptor and ringing for it. */
  lemma PostOne(q: Queue) returns (es: seq<QueueStep>, q': Queue)
    requires Rested(q) && !Full(q.wq)
    ensures QueueRun(q, es, q') && QInv(q') && q'.mode == Unlocked && q.wq.next < |q.wq.pool|
    ensures q'.outstanding == {} && q'.released == {} && q'.fetchedReqs == q.fetchedReqs && q'.fetched == q.fetched
    ensures q'.sub == q.sub && q'.maxDesc == q.maxDesc && q'.wq.cnt == q.wq.cnt && q'.wq.pool == q.wq.pool
    ensures |q'.ring| == |q.ring| && q'.wq.wrid != [] && |q'.dlog| == |q.dlog| + 1
    ensures q'.log == q.log + [Entry(0, [0], HeadIndex(q.wq), |q.dlog|)] && HeadIndex(q.wq) !in q.tickets
    ensures q'.tickets == q.tickets[HeadIndex(q.wq) := |q.log|] && q'.rung == |q'.dlog|
  {
    hide QInv, QueueRun, SlotOf, BitAnd, Full, Wrap16, Wrap32, QApply, QEnabled, LiveCqes;
    RestedFields(q);
    var r := Request(0, [0]);
    EnabledOnes(q, r);
    var q1 := Lock(q, Listing);
    QueueStepRuns(q, Locks(Listing));
    EnabledTwos(q1, r);
    var q2 := Begin(q1, r);
    QueueStepRuns(q1, Begins(r));
    EnabledThrees(q2);
    var q3 := Emit(q2);
    QueueStepRuns(q2, Emits);
    EnabledFours(q3);
    var q4 := Doorbell(q3);
    QueueStepRuns(q3, RingsDoorbell);
    EnabledFives(q4);
    q' := Unlock(q4);
    QueueStepRuns(q4, Unlocks);
    QueueRunsJoin(q3, [RingsDoorbell], q4, [Unlocks], q');
    QueueRunsJoin(q2, [Emits], q3, [RingsDoorbell] + [Unlocks], q');
    QueueRunsJoin(q1, [Begins(r)], q2, [Emits] + ([RingsDoorbell] + [Unlocks]), q');
    es := [Locks(Listing)] + ([Begins(r)] + ([Emits] + ([RingsDoorbell] + [Unlocks])));
    QueueRunsJoin(q, [Locks(Listing)], q1, [Begins(r)] + ([Emits] + ([RingsDoorbell] + [Unlocks])), q');
  }

  lemma EnabledOnes(q: Queue, r: Request)
    requires QInv(q) && q.mode == Unlocked
    ensures QEnabled(q, Locks(Listing)) && QApply(q, Locks(Listing)) == Lock(q, Listing)
  {
    hide QInv;
  }

  lemma EnabledTwos(q: Queue, r: Request)
    requires QInv(q) && q.mode == Listing && q.todo == [] && 1 == |r.bodies| <= q.maxDesc && !Full(q.wq)
    ensures q.wq.next < |q.wq.pool| && HeadIndex(q.wq) < |q.wq.wrid| && HeadIndex(q.wq) !in q.tickets
    ensures QEnabled(q, Begins(r)) && QApply(q, Begins(r)) == Begin(q, r)
  {
    hide QInv, Begin, Full;
    BeginDefined(q, r);
    BeginKeeps(q, r);
  }

  lemma EnabledThrees(q: Queue)
    requires QInv(q) && q.todo != []
    ensures q.log != [] && BitAnd(q.wq.pc, q.wq.mask) < |q.ring|
    ensures QEnabled(q, Emits) && QApply(q, Emits) == Emit(q)
  {
    hide QInv, Emit, BitAnd;
    EmitKeeps(q);
  }

  lemma EnabledFours(q: Queue)
    requires QInv(q) && q.mode == Listing && q.todo == []
    ensures QEnabled(q, RingsDoorbell) && QApply(q, RingsDoorbell) == Doorbell(q)
  {
    hide QInv, Doorbell;
  }

  lemma EnabledFives(q: Queue)
    requires QInv(q) && q.mode == Listing && q.todo == [] && q.staged == [] && q.db == Wrap16(q.wq.pc)
    ensures QEnabled(q, Unlocks) && QApply(q, Unlocks) == Unlock(q)
  {
    hide LogOk, TodoOk, CountOk, TicketOk, RingOk, DeviceOk, SessionOk, FreeList, ConfigOk, Sized;
    Parts(q);
  }

  /** Posting one request and having it fetched; it can then be completed. */
  lemma PostAndFetch(q: Queue) returns (es: seq<QueueStep>, q': Queue)
    requires Rested(q) && !Full(q.wq)
    ensures QueueRun(q, es, q') && QInv(q') && q.wq.next < |q.wq.pool|
    ensures var idx := HeadIndex(q.wq);
            && q'.outstanding == {idx} && idx in q'.tickets && q'.tickets.Keys == q.tickets.Keys + {idx}
            && |q'.tickets.Keys| == |q.tickets.Keys| + 1
            && Rested(Finish(q', idx)) && q'.sub == q.sub && q'.wq.cnt == q.wq.cnt && q'.wq.pool == q.wq.pool
            && |q'.ring| == |q.ring| && |q'.dlog| == |q.dlog| + 1
  {
    hide QInv, QueueRun, BitAnd, Full, Wrap16, Wrap32, QApply, QEnabled, LiveCqes, Fetch;
    RestedFields(q);
    var es1, q1 := PostOne(q);
    var idx := HeadIndex(q.wq);
    KeysGrow(q.tickets, idx, |q.log|);
    MoreToFetch(q1);
    FetchKeeps(q1);
    QueueStepRuns(q1, DeviceFetches);
    q' := QApply(q1, DeviceFetches);
    FetchOne(q1, idx);
    FetchIs(q1);
    QueueRunsJoin(q, es1, q1, [DeviceFetches], q');
    es := es1 + [DeviceFetches];
    FinishKeeps(q', idx);
    assert {idx} - {idx} == {};
  }

  lemma FetchIs(q: Queue)
    requires QInv(q) && q.devPc != q.db
    ensures BitAnd(q.devPc, |q.ring| - 1) < |q.ring| && QEnabled(q, DeviceFetches)
    ensures QApply(q, DeviceFetches) == Fetch(q)
  {
    hide QInv, Fetch, BitAnd;
    FetchKeeps(q);
  }

  lemma MoreToFetch(q: Queue)
    requires QInv(q) && q.fetched + 1 == q.rung
    ensures q.devPc != q.db && QEnabled(q, DeviceFetches)
  {
    hide PoolInv, LogOk, TodoOk, CountOk, TicketOk, DeviceOk, SessionOk, Wrap16;
    SamePosition(q.fetched, q.rung);
  }

  lemma FetchOne(q: Queue, idx: nat)
    requires QInv(q) && q.devPc != q.db && q.fetchedReqs + 1 == |q.log| && q.outstanding == {}
    requires q.log[q.fetchedReqs].idx == idx && q.log[q.fetchedReqs].start == q.fetched
             && |q.log[q.fetchedReqs].bodies| == 1
    ensures BitAnd(q.devPc, |q.ring| - 1) < |q.ring|
    ensures var r := Fetch(q);
            && r.fetchedReqs == |q.log| && r.outstanding == {idx} && r.log == q.log && r.tickets == q.tickets
            && r.released == q.released && r.mode == q.mode && r.sub == q.sub && r.wq == q.wq && r.dlog == q.dlog
            && |r.ring| == |q.ring| && idx in q.tickets
  {
    hide QInv, BitAnd, Wrap16;
    FetchedId(q);
    assert {} + {idx} == {idx};
  }

  // ---- the whole system, unpolled ----------------------------------------------------------------

  /** While nobody polls, a sub completion queue holds what its queues have had completed. */
  ghost predicate Held(s: System, j: nat)
    requires j < |s.subs|
  {
    0 < |s.subs[j].buf| && s.subs[j].consumed == 0 && |s.subs[j].prod| == Sum(s.qs, j, LiveCqes)
  }

  ghost predicate AllHeld(s: System) { forall j {:trigger Held(s, j)} :: 0 <= j < |s.subs| ==> Held(s, j) }

  ghost predicate UnpolledInv(s: System) { Linked(s) && QueuesOk(s) && AllHeld(s) }

  lemma QueueStepHeld(s: System, i: nat, q': Queue)
    requires UnpolledInv(s) && i < |s.qs| && QInv(q') && Quiet(s.qs[i], q')
    ensures UnpolledInv(WithQueue(s, i, q'))
    ensures forall j :: 0 <= j < |s.subs| ==> Sum(WithQueue(s, i, q').qs, j, Capacity) == Sum(s.qs, j, Capacity)
  {
    hide QInv, LiveCqes;
    var s' := WithQueue(s, i, q');
    forall k | 0 <= k < |s'.qs| ensures QInv(s'.qs[k]) { assert k != i ==> QInv(s.qs[k]); }
    forall j | 0 <= j < |s'.subs| ensures Held(s', j) && Sum(s'.qs, j, Capacity) == Sum(s.qs, j, Capacity) {
      assert Held(s, j);
      SumUpdate(s.qs, j, LiveCqes, i, q');
      SumUpdate(s.qs, j, Capacity, i, q');
    }
  }

  lemma CompletionHeld(s: System, i: nat, idx: nat)
    requires UnpolledInv(s) && i < |s.qs| && idx in s.qs[i].outstanding && idx in s.qs[i].tickets
    requires s.qs[i].sub < |s.subs| && 0 < |s.subs[s.qs[i].sub].buf|
    ensures UnpolledInv(DoComplete(s, i, idx))
    ensures forall j :: 0 <= j < |s.subs| ==> Sum(DoComplete(s, i, idx).qs, j, Capacity) == Sum(s.qs, j, Capacity)
  {
    hide QInv, LiveCqes, CqeFor, PhaseAt, SlotOf, Finish;
    var s', q' := DoComplete(s, i, idx), Finish(s.qs[i], idx);
    assert QInv(s.qs[i]);
    FinishKeeps(s.qs[i], idx);
    FinishFrame(s.qs[i], idx);
    forall k | 0 <= k < |s'.qs| ensures QInv(s'.qs[k]) { assert k != i ==> QInv(s.qs[k]); }
    forall j | 0 <= j < |s'.subs| ensures Held(s', j) && Sum(s'.qs, j, Capacity) == Sum(s.qs, j, Capacity) {
      assert Held(s, j);
      SumUpdate(s.qs, j, LiveCqes, i, q');
      SumUpdate(s.qs, j, Capacity, i, q');
    }
  }

  lemma UnpolledStepHeld(s: System, e: Event, s': System)
    requires UnpolledInv(s) && Unpolled(s, e, s')
    ensures UnpolledInv(s') && |s'.subs| == |s.subs|
    ensures forall j :: 0 <= j < |s.subs| ==>
              Sum(s'.qs, j, Capacity) == Sum(s.qs, j, Capacity) && |s'.subs[j].buf| == |s.subs[j].buf|
  {
    hide QInv, QEnabled, QApply, LiveCqes, UnpolledInv, Quiet, CqeFor, SlotOf, PhaseAt, Finish;
    match e
    case OnQueue(i, step) =>
      QStepKeeps(s.qs[i], step);
      QueueStepHeld(s, i, QApply(s.qs[i], step));
    case Completes(i, idx) => CompletionHeld(s, i, idx);
  }

  /** However it is posted and completed: what is held stays within what the queues have room for. */
  lemma {:induction false} UnpolledBound(s: System, es: seq<Event>, s': System, j: nat)
    requires UnpolledInv(s) && UnpolledRun(s, es, s') && j < |s.subs|
    ensures j < |s'.subs| && |s'.subs[j].buf| == |s.subs[j].buf|
    ensures |s'.subs[j].prod| <= Sum(s.qs, j, Capacity)
    decreases |es|
  {
    hide UnpolledInv, Unpolled;
    if es == [] {
      HeldBound(s, j);
    } else {
      var m :| Unpolled(s, es[0], m) && UnpolledRun(m, es[1..], s');
      UnpolledStepHeld(s, es[0], m);
      UnpolledBound(m, es[1..], s', j);
    }
  }

  lemma HeldBound(s: System, j: nat)
    requires UnpolledInv(s) && j < |s.subs|
    ensures |s.subs[j].prod| <= Sum(s.qs, j, Capacity)
  {
    hide QInv, LiveCqes, Capacity, InFlight;
    assert Held(s, j);
    forall i | 0 <= i < |s.qs| ensures LiveCqes(s.qs[i]) <= Capacity(s.qs[i]) {
      assert QInv(s.qs[i]);
      LiveWithinCapacity(s.qs[i]);
    }
    SumMonotone(s.qs, j, LiveCqes, Capacity);
  }

  // ---- filling a sub completion queue ------------------------------------------------------------

  /** The host has not touched the sub queue, and the device has followed its protocol. */
  ghost predicate Untouched(u: Sub) {
    RingSize(|u.buf|) && 0 < |u.buf| && u.host == Initialize(|u.buf|) && u.consumed == 0 && History(u.buf, u.prod)
  }

  ghost predicate Filling(s: System) {
    && Linked(s) && AllHeld(s)
    && (forall i {:trigger Rested(s.qs[i])} :: 0 <= i < |s.qs| ==> Rested(s.qs[i]))
    && (forall j {:trigger Untouched(s.subs[j])} :: 0 <= j < |s.subs| ==> Untouched(s.subs[j]))
  }

  lemma CreatedFills(s: System)
    requires Created(s)
    ensures Filling(s) && UnpolledInv(s)
  {
    hide QInv, LiveCqes, History;
    forall i | 0 <= i < |s.qs| ensures Rested(s.qs[i]) && LiveCqes(s.qs[i]) == 0 {
      assert QueueInit(s.qs[i]);
      QueueInitInv(s.qs[i]);
    }
    forall j | 0 <= j < |s.subs| ensures Untouched(s.subs[j]) && Held(s, j) {
      assert SubInit(s.subs[j]);
      Start(|s.subs[j].buf|, s.subs[j].buf);
      SumZero(s.qs, j, LiveCqes);
    }
  }

  /** One more request posted, fetched and completed. */
  lemma FillOne(s: System, i: nat) returns (es: seq<Event>, s': System)
    requires Filling(s) && i < |s.qs| && !Full(s.qs[i].wq)
    ensures UnpolledRun(s, es, s') && Filling(s') && |s'.subs| == |s.subs| && s.qs[i].sub < |s.subs|
    ensures forall j :: 0 <= j < |s.subs| ==>
              && Sum(s'.qs, j, Capacity) == Sum(s.qs, j, Capacity) && |s'.subs[j].buf| == |s.subs[j].buf|
              && |s'.subs[j].prod| == |s.subs[j].prod| + (if j == s.qs[i].sub then 1 else 0)
    ensures |s'.qs| == |s.qs| && s.qs[i].wq.next < |s.qs[i].wq.pool| && Grew(s.qs[i], s'.qs[i])
  {
    hide QInv, QueueRun, Full, LiveCqes, CqeFor, PhaseAt, SlotOf, Unpolled, Capacity, Finish, History, Rested;
    assert Rested(s.qs[i]);
    RestedInv(s.qs[i]);
    var qes, q' := PostAndFetch(s.qs[i]);
    var idx := HeadIndex(s.qs[i].wq);
    var fs := Lift(s, i, qes, q');
    var m := WithQueue(s, i, q');
    assert Untouched(s.subs[s.qs[i].sub]);
    s' := DoComplete(m, i, idx);
    CompletesUnpolled(m, i, idx);
    SingleStep(m, Completes(i, idx), s');
    RunsJoin(s, fs, m, [Completes(i, idx)], s');
    es := fs + [Completes(i, idx)];
    FillKeeps(s, i, q', idx);
    FinishFields(q', idx);
  }

  /** What completing one more request changed for the queue. */
  ghost predicate Grew(q: Queue, q': Queue)
    requires q.wq.next < |q.wq.pool|
  {
    && q'.tickets.Keys == q.tickets.Keys + {HeadIndex(q.wq)} && q'.wq.pool == q.wq.pool
    && |q'.tickets.Keys| == |q.tickets.Keys| + 1 && |q'.ring| == |q.ring| && |q'.dlog| == |q.dlog| + 1
  }

  lemma FinishFields(q: Queue, idx: nat)
    ensures var r := Finish(q, idx); r.tickets == q.tickets && r.wq == q.wq && r.ring == q.ring && r.dlog == q.dlog
  {
  }

  lemma RestedInv(q: Queue)
    requires Rested(q)
    ensures QInv(q)
  {
  }

  lemma CompletesUnpolled(s: System, i: nat, idx: nat)
    requires i < |s.qs| && idx in s.qs[i].outstanding && idx in s.qs[i].tickets
    requires s.qs[i].sub < |s.subs| && 0 < |s.subs[s.qs[i].sub].buf|
    ensures Unpolled(s, Completes(i, idx), DoComplete(s, i, idx))
  {
    hide DoComplete;
  }

  lemma FillKeeps(s: System, i: nat, q': Queue, idx: nat)
    requires Filling(s) && i < |s.qs| && QInv(q') && idx in q'.tickets && idx in q'.outstanding
    requires Rested(s.qs[i]) && Rested(Finish(q', idx)) && q'.sub == s.qs[i].sub && q'.wq.cnt == s.qs[i].wq.cnt
    requires |q'.tickets.Keys| == |s.qs[i].tickets.Keys| + 1
    requires s.qs[i].sub < |s.subs| && 0 < |s.subs[s.qs[i].sub].buf|
    ensures var s' := DoComplete(WithQueue(s, i, q'), i, idx);
            && Filling(s')
            && forall j :: 0 <= j < |s.subs| ==>
                 && Sum(s'.qs, j, Capacity) == Sum(s.qs, j, Capacity) && |s'.subs[j].buf| == |s.subs[j].buf|
                 && |s'.subs[j].prod| == |s.subs[j].prod| + (if j == s.qs[i].sub then 1 else 0)
  {
    hide QInv, LiveCqes, CqeFor, PhaseAt, SlotOf, History, Rested, Finish, RingSize;
    var s', r := DoComplete(WithQueue(s, i, q'), i, idx), Finish(q', idx);
    FinishFrame(q', idx);
    FinishFields(q', idx);
    RestedFields(s.qs[i]);
    RestedFields(r);
    assert s'.qs == s.qs[i := r];
    forall k | 0 <= k < |s'.qs| ensures Rested(s'.qs[k]) { assert k != i ==> Rested(s.qs[k]); }
    forall j | 0 <= j < |s'.subs|
      ensures Untouched(s'.subs[j]) && Held(s', j) && Sum(s'.qs, j, Capacity) == Sum(s.qs, j, Capacity)
    {
      assert Held(s, j) && Untouched(s.subs[j]);
      SumUpdate(s.qs, j, LiveCqes, i, r);
      SumUpdate(s.qs, j, Capacity, i, r);
      var u := s.subs[j];
      if j == s.qs[i].sub { Produce(u.buf, u.prod, CqeFor(i, idx, PhaseAt(|u.prod|, |u.buf|))); }
    }
  }

  /** While the attached queues have room, one of them takes another request. */
  lemma {:induction false} SomeRoom(qs: seq<Queue>, j: nat) returns (i: nat)
    requires forall k :: 0 <= k < |qs| ==> Rested(qs[k])
    requires Sum(qs, j, LiveCqes) < Sum(qs, j, Capacity)
    ensures i < |qs| && qs[i].sub == j && !Full(qs[i].wq)
  {
    hide Rested, LiveCqes, Full;
    var n := |qs| - 1;
    RestedFields(qs[n]);
    if qs[n].sub == j && LiveCqes(qs[n]) < Capacity(qs[n]) {
      i := n;
    } else {
      i := SomeRoom(qs[..n], j);
    }
  }

  /** A sub completion queue can be filled with any number of completions its queues have room for. */
  lemma {:induction false} Fill(s: System, j: nat, n: nat) returns (es: seq<Event>, s': System)
    requires Filling(s) && j < |s.subs| && |s.subs[j].prod| <= n <= Sum(s.qs, j, Capacity)
    ensures UnpolledRun(s, es, s') && Filling(s') && j < |s'.subs|
    ensures |s'.subs[j].prod| == n && |s'.subs[j].buf| == |s.subs[j].buf|
    decreases n - |s.subs[j].prod|
  {
    hide LiveCqes, Rested, Full, Untouched, Unpolled, Capacity, Grew;
    if |s.subs[j].prod| == n {
      es, s' := [], s;
    } else {
      assert Held(s, j);
      forall k | 0 <= k < |s.qs| ensures Rested(s.qs[k]) { }
      var i := SomeRoom(s.qs, j);
      var es1, s1 := FillOne(s, i);
      var es2;
      es2, s' := Fill(s1, j, n);
      RunsJoin(s, es1, s1, es2, s');
      es := es1 + es2;
    }
  }

  /**
   Sizes that do not fit let the system overrun: in the run that posts and completes one request more than
   the ring has entries, and polls nothing, the next poll finds nothing although all of them are waiting.
   */
  lemma TooSmallLosesCompletions(s0: System, j: nat) returns (es: seq<Event>, s: System)
    requires Created(s0) && j < |s0.subs| && !Fits(s0, j)
    ensures UnpolledRun(s0, es, s) && j < |s.subs|
    ensures var u := s.subs[j];
            && |u.buf| == |s0.subs[j].buf| && |u.prod| == |u.buf| + 1 && u.consumed == 0 && u.host.qmask < |u.buf|
            && !Pending(u.host, u.buf)
  {
    hide LiveCqes, Rested, History, UnpolledRun, Capacity;
    CreatedFills(s0);
    assert SubInit(s0.subs[j]);
    es, s := Fill(s0, j, |s0.subs[j].buf| + 1);
    assert Untouched(s.subs[j]);
    StartsInStep(|s.subs[j].buf|);
    OverrunHidesEntries(s.subs[j].host, s.subs[j].buf, s.subs[j].prod, 0);
  }

  lemma StartsInStep(depth: nat)
    requires RingSize(depth) && 0 < depth
    ensures InStep(Initialize(depth), 0, depth)
  {
    FirstLap(0, depth);
  }

  /**
   How large a sub completion queue has to be, exactly: whatever is posted and completed, it holds all of
   it if and only if the wqe_cnts of the queues attached to it sum to at most its depth.
   */
  lemma SizesExact(s0: System, j: nat)
    requires Created(s0) && j < |s0.subs|
    ensures Fits(s0, j) <==>
              forall es, s :: UnpolledRun(s0, es, s) ==> j < |s.subs| && |s.subs[j].prod| <= |s.subs[j].buf|
  {
    hide UnpolledRun, UnpolledInv, Filling, Created;
    CreatedFills(s0);
    if Fits(s0, j) {
      forall es, s | UnpolledRun(s0, es, s) ensures j < |s.subs| && |s.subs[j].prod| <= |s.subs[j].buf| {
        UnpolledBound(s0, es, s, j);
      }
    } else {
      var es, s := TooSmallLosesCompletions(s0, j);
    }
  }
}
