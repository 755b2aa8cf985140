/**
 The whole data path: any number of work queues, sub completion queues and pollers, with one device.
 Queue 2k is the send queue and queue 2k+1 the receive queue of queue pair k. The device writes
 completions into the sub completion queue a queue is attached to without ever checking for room; a
 poller consumes an entry, reads the request's wr_id without the queue's lock, and later, under that
 lock, gives the index back, reading the request id from the completion ring again.
 */
module Fabric {
  import opened Words
  import opened WridPool
  import opened CompletionRing
  import opened QueueMachine

  /** A sub completion queue. `prod`, `whose` and `consumed` are history. */
  datatype Sub = Sub(
    cq: nat,
    host: SubCq,
    buf: seq<Cqe>,
    prod: seq<Cqe>,    // everything the device ever wrote
    whose: seq<nat>,   // the accepted request each entry completes
    consumed: nat)

  /** cur_cqe of a completion queue: nothing, or a pointer to a slot whose index is not yet given back. */
  datatype Cursor = NoCqe | Holding(sub: nat, slot: nat, reported: bool)

  datatype Report = Report(queue: nat, ticket: nat, wrId: nat)

  datatype System = System(qs: seq<Queue>, subs: seq<Sub>, cqs: seq<Cursor>, reports: seq<Report>)

  function QueueOf(c: Cqe): nat { 2 * c.qpNum + (if c.qType == SEND_QUEUE then 0 else 1) }

  function CqeFor(i: nat, idx: nat, phase: nat): (c: Cqe)
    ensures QueueOf(c) == i && c.reqId == idx && c.phase == phase
    ensures c.qpNum == i / 2 && c.qType == (if i % 2 == 0 then 1 else 2)
  {
    Cqe(i / 2, if i % 2 == 0 then SEND_QUEUE else RECV_QUEUE, idx, phase)
  }

  // ---- sums over the queues attached to a sub completion queue -----------------------------------

  ghost function Sum(qs: seq<Queue>, j: nat, f: Queue -> int): int {
    if qs == [] then 0
    else Sum(qs[..|qs| - 1], j, f) + (if qs[|qs| - 1].sub == j then f(qs[|qs| - 1]) else 0)
  }

  ghost function InFlight(q: Queue): int { |q.tickets.Keys| }

  ghost function Capacity(q: Queue): int { q.wq.cnt }

  lemma {:induction false} SumUpdate(qs: seq<Queue>, j: nat, f: Queue -> int, i: nat, q': Queue)
    requires i < |qs| && q'.sub == qs[i].sub
    ensures Sum(qs[i := q'], j, f) == Sum(qs, j, f) + (if q'.sub == j then f(q') - f(qs[i]) else 0)
  {
    var n := |qs| - 1;
    if i < n {
      SumUpdate(qs[..n], j, f, i, q');
      assert qs[i := q'][..n] == qs[..n][i := q'];
    } else {
      assert qs[i := q'][..n] == qs[..n];
    }
  }

  lemma {:induction false} SumMonotone(qs: seq<Queue>, j: nat, f: Queue -> int, g: Queue -> int)
    requires forall i :: 0 <= i < |qs| ==> f(qs[i]) <= g(qs[i])
    ensures Sum(qs, j, f) <= Sum(qs, j, g)
  {
    if qs != [] { SumMonotone(qs[..|qs| - 1], j, f, g); }
  }

  // ---- invariant ---------------------------------------------------------------------------------

  ghost predicate SubOk(u: Sub) {
    && History(u.buf, u.prod) && InStep(u.host, u.consumed, |u.buf|)
    && u.consumed <= |u.prod| == |u.whose|
  }

  ghost predicate Linked(s: System) {
    && (forall i :: 0 <= i < |s.qs| ==> s.qs[i].sub < |s.subs|)
    && (forall j :: 0 <= j < |s.subs| ==> s.subs[j].cq < |s.cqs|)
  }

  ghost predicate InHand(s: System, j: nat)
    requires Linked(s) && j < |s.subs|
  {
    s.cqs[s.subs[j].cq].Holding? && s.cqs[s.subs[j].cq].sub == j
  }

  /** How many entries of a sub completion queue have been consumed and given back. */
  ghost function Returned(s: System, j: nat): int
    requires Linked(s) && j < |s.subs|
  {
    s.subs[j].consumed - (if InHand(s, j) then 1 else 0)
  }

  ghost predicate QueuesOk(s: System) {
    forall i {:trigger QInv(s.qs[i])} :: 0 <= i < |s.qs| ==> QInv(s.qs[i])
  }

  ghost predicate SubsOk(s: System) {
    forall j {:trigger SubOk(s.subs[j])} :: 0 <= j < |s.subs| ==> SubOk(s.subs[j])
  }

  /** Attached queues fit, and unreturned entries are exactly what the attached queues have out. */
  ghost predicate Flow(s: System, j: nat)
    requires Linked(s) && j < |s.subs|
  {
    && Sum(s.qs, j, Capacity) <= |s.subs[j].buf|
    && |s.subs[j].prod| - Returned(s, j) == Sum(s.qs, j, LiveCqes)
  }

  ghost predicate FlowOk(s: System)
    requires Linked(s)
  {
    forall j {:trigger Flow(s, j)} :: 0 <= j < |s.subs| ==> Flow(s, j)
  }

  /** The n-th entry of a sub completion queue names an index still in flight, for the right request. */
  ghost predicate Live(s: System, j: nat, n: nat)
    requires j < |s.subs| && n < |s.subs[j].prod| == |s.subs[j].whose|
  {
    var c, t := s.subs[j].prod[n], s.subs[j].whose[n];
    && QueueOf(c) < |s.qs|
    && var q := s.qs[QueueOf(c)];
    && q.sub == j && c.reqId in q.tickets && q.tickets[c.reqId] == t
    && t < q.fetchedReqs && c.reqId !in q.outstanding
  }

  predicate SameRequest(c: Cqe, d: Cqe) { QueueOf(c) == QueueOf(d) && c.reqId == d.reqId }

  ghost predicate LiveOk(s: System, j: nat)
    requires Linked(s) && j < |s.subs| && SubOk(s.subs[j])
  {
    && (forall n {:trigger Live(s, j, n)} :: 0 <= n && Returned(s, j) <= n < |s.subs[j].prod| ==> Live(s, j, n))
    && (forall n, m :: 0 <= n && Returned(s, j) <= n < m < |s.subs[j].prod| ==>
          !SameRequest(s.subs[j].prod[n], s.subs[j].prod[m]))
  }

  ghost predicate AllLive(s: System)
    requires Linked(s) && SubsOk(s)
  {
    forall j {:trigger LiveOk(s, j)} :: 0 <= j < |s.subs| ==> SubOk(s.subs[j]) && LiveOk(s, j)
  }

  ghost predicate CursorOk(s: System, c: nat)
    requires c < |s.cqs|
  {
    s.cqs[c].Holding? ==>
      && s.cqs[c].sub < |s.subs|
      && var u := s.subs[s.cqs[c].sub];
      && u.cq == c && 0 < u.consumed && 0 < |u.buf| && s.cqs[c].slot == SlotOf(u.consumed - 1, |u.buf|)
  }

  ghost predicate CursorsOk(s: System) {
    forall c {:trigger CursorOk(s, c)} :: 0 <= c < |s.cqs| ==> CursorOk(s, c)
  }

  /** The request whose completion a poller holds and has already reported. */
  ghost predicate HeldReported(s: System, i: nat, t: nat)
    requires i < |s.qs|
  {
    var j := s.qs[i].sub;
    && j < |s.subs|
    && var u := s.subs[j];
    && u.cq < |s.cqs| && s.cqs[u.cq].Holding? && s.cqs[u.cq].sub == j && s.cqs[u.cq].reported
    && 0 < u.consumed <= |u.prod| == |u.whose|
    && QueueOf(u.prod[u.consumed - 1]) == i && u.whose[u.consumed - 1] == t
  }

  /** A report carries the wr_id its request was posted with, and is not repeatable any more. */
  ghost predicate ReportOk(s: System, r: Report) {
    && r.queue < |s.qs|
    && var q := s.qs[r.queue];
    && r.ticket < q.fetchedReqs <= |q.log| && q.log[r.ticket].wrId == r.wrId
    && (r.ticket in q.released || HeldReported(s, r.queue, r.ticket))
  }

  ghost predicate Told(s: System, i: nat, t: nat) {
    exists a :: 0 <= a < |s.reports| && s.reports[a].queue == i && s.reports[a].ticket == t
  }

  ghost predicate ReportsOk(s: System) {
    && (forall a {:trigger s.reports[a]} :: 0 <= a < |s.reports| ==> ReportOk(s, s.reports[a]))
    && (forall a, b :: 0 <= a < b < |s.reports| ==>
          s.reports[a].queue != s.reports[b].queue || s.reports[a].ticket != s.reports[b].ticket)
    && (forall i, t {:trigger Told(s, i, t)} :: 0 <= i < |s.qs| && 0 <= t && t in s.qs[i].released ==> Told(s, i, t))
    && (forall i, t {:trigger HeldReported(s, i, t)} ::
          0 <= i < |s.qs| && 0 <= t && HeldReported(s, i, t) ==> Told(s, i, t))
  }

  ghost predicate Inv(s: System) {
    Linked(s) && QueuesOk(s) && SubsOk(s) && FlowOk(s) && AllLive(s) && CursorsOk(s) && ReportsOk(s)
  }

  // ---- steps -------------------------------------------------------------------------------------

  /** A step of a posting thread on one queue, or of the device fetching from it. */
  datatype QueueStep =
    | Locks(mode: Mode)
    | Begins(r: Request)
    | Emits
    | Commits
    | Copies
    | RingsDoorbell
    | Unlocks
    | Aborts
    | DeviceFetches

  ghost predicate QEnabled(q: Queue, e: QueueStep) {
    match e
    case Locks(mode) => q.mode == Unlocked && (mode == Listing || mode == Session)
    case Begins(r) => CanBegin(q, r)
    case Emits => q.todo != []
    case Commits => q.mode == Session && q.todo == []
    case Copies => q.mode == Committing && q.staged != []
    case RingsDoorbell => (q.mode == Listing || q.mode == Committing) && q.todo == []
    case Unlocks => CanUnlock(q)
    case Aborts => q.mode == Session && q.todo == []
    case DeviceFetches => q.devPc != q.db
  }

  ghost function QApply(q: Queue, e: QueueStep): Queue
    requires QInv(q) && QEnabled(q, e)
  {
    match e
    case Locks(mode) => Lock(q, mode)
    case Begins(r) => BeginKeeps(q, r); Begin(q, r)
    case Emits => EmitKeeps(q); Emit(q)
    case Commits => Commit(q)
    case Copies => CopyKeeps(q); Copy(q)
    case RingsDoorbell => Doorbell(q)
    case Unlocks => Unlock(q)
    case Aborts => AbortKeeps(q); Abort(q)
    case DeviceFetches => FetchKeeps(q); Fetch(q)
  }

  lemma QStepKeeps(q: Queue, e: QueueStep)
    requires QInv(q) && QEnabled(q, e)
    ensures QInv(QApply(q, e)) && Quiet(q, QApply(q, e))
  {
    hide QInv, Quiet, Lock, Begin, Emit, Commit, Copy, Doorbell, Unlock, Abort, Fetch, CanBegin, CanUnlock, BitAnd;
    match e
    case Locks(mode) => LockKeeps(q, mode);
    case Begins(r) => BeginKeeps(q, r);
    case Emits => EmitKeeps(q);
    case Commits => CommitKeeps(q);
    case Copies => CopyKeeps(q);
    case RingsDoorbell => DoorbellKeeps(q);
    case Unlocks => UnlockKeeps(q);
    case Aborts => AbortKeeps(q);
    case DeviceFetches => FetchKeeps(q);
  }

  datatype Event =
    | OnQueue(i: nat, step: QueueStep)
    | Completes(i: nat, idx: nat)      // the device completes any fetched request
    | Consumes(c: nat, j: nat)         // a poller takes the next entry of one of its sub queues
    | Reports(c: nat)                  // it reads wrid[] without the queue's lock
    | GivesBack(c: nat)                // it returns the index under the queue's lock

  ghost predicate Enabled(s: System, e: Event) {
    match e
    case OnQueue(i, step) => i < |s.qs| && QEnabled(s.qs[i], step)
    case Completes(i, idx) => i < |s.qs| && idx in s.qs[i].outstanding
    case Consumes(c, j) =>
      && c < |s.cqs| && s.cqs[c].NoCqe? && j < |s.subs| && s.subs[j].cq == c
      && s.subs[j].host.qmask < |s.subs[j].buf| && Pending(s.subs[j].host, s.subs[j].buf)
    case Reports(c) => c < |s.cqs| && s.cqs[c].Holding? && !s.cqs[c].reported
    case GivesBack(c) =>
      && c < |s.cqs| && s.cqs[c].Holding? && s.cqs[c].reported
      && s.cqs[c].sub < |s.subs| && s.cqs[c].slot < |s.subs[s.cqs[c].sub].buf|
      && var i := QueueOf(s.subs[s.cqs[c].sub].buf[s.cqs[c].slot]);
      && i < |s.qs| && s.qs[i].mode == Unlocked
  }

  /** The device writes a completion for a request into the sub completion queue of its queue. */
  ghost function DoComplete(s: System, i: nat, idx: nat): System
    requires i < |s.qs| && s.qs[i].sub < |s.subs| && 0 < |s.subs[s.qs[i].sub].buf|
    requires idx in s.qs[i].tickets
  {
    var q := s.qs[i];
    var u := s.subs[q.sub];
    var c := CqeFor(i, idx, PhaseAt(|u.prod|, |u.buf|));
    s.(qs := s.qs[i := Finish(q, idx)],
       subs := s.subs[q.sub := u.(buf := u.buf[SlotOf(|u.prod|, |u.buf|) := c], prod := u.prod + [c],
                                  whose := u.whose + [q.tickets[idx]])])
  }

  ghost function DoConsume(s: System, c: nat, j: nat): System
    requires c < |s.cqs| && j < |s.subs| && s.subs[j].host.phase <= 1
  {
    var u := s.subs[j];
    s.(subs := s.subs[j := u.(host := CompletionRing.Consume(u.host), consumed := u.consumed + 1)],
       cqs := s.cqs[c := Holding(j, CurrentIndex(u.host), false)])
  }

  /** The entry a poller points at. */
  ghost function HeldCqe(s: System, c: nat): Cqe
    requires c < |s.cqs| && s.cqs[c].Holding?
    requires s.cqs[c].sub < |s.subs| && s.cqs[c].slot < |s.subs[s.cqs[c].sub].buf|
  {
    s.subs[s.cqs[c].sub].buf[s.cqs[c].slot]
  }

  /** The poller's entry names an index of a queue that is in flight. */
  ghost predicate HeldValid(s: System, c: nat) {
    && c < |s.cqs| && s.cqs[c].Holding?
    && s.cqs[c].sub < |s.subs| && s.cqs[c].slot < |s.subs[s.cqs[c].sub].buf|
    && QueueOf(HeldCqe(s, c)) < |s.qs|
    && var q := s.qs[QueueOf(HeldCqe(s, c))];
    && HeldCqe(s, c).reqId < |q.wq.wrid| && HeldCqe(s, c).reqId in q.tickets
    && 0 < q.wq.next <= |q.wq.pool|
  }

  ghost function DoReport(s: System, c: nat): System
    requires HeldValid(s, c)
  {
    var e := HeldCqe(s, c);
    var q := s.qs[QueueOf(e)];
    s.(cqs := s.cqs[c := s.cqs[c].(reported := true)],
       reports := s.reports + [Report(QueueOf(e), q.tickets[e.reqId], q.wq.wrid[e.reqId])])
  }

  ghost function DoGiveBack(s: System, c: nat): System
    requires HeldValid(s, c)
  {
    var e := HeldCqe(s, c);
    s.(cqs := s.cqs[c := NoCqe], qs := s.qs[QueueOf(e) := GiveBack(s.qs[QueueOf(e)], e.reqId)])
  }

  // ---- consequences of the invariant -------------------------------------------------------------

  lemma LiveWithinCapacity(q: Queue)
    requires QInv(q)
    ensures LiveCqes(q) <= InFlight(q) <= Capacity(q)
  {
    UnfetchedHoldIndices(q);
    DeviceBehind(q);
    hide QInv;
  }

  /**
   Flow control alone bounds a sub completion queue: what it holds beyond what was given back is at most
   the requests in flight on its queues, hence at most its depth.
   */
  lemma NeverOverrun(s: System, j: nat)
    requires Inv(s) && j < |s.subs|
    ensures |s.subs[j].prod| - Returned(s, j) <= Sum(s.qs, j, InFlight) <= Sum(s.qs, j, Capacity)
            <= |s.subs[j].buf|
  {
    assert Flow(s, j);
    forall i | 0 <= i < |s.qs| ensures LiveCqes(s.qs[i]) <= InFlight(s.qs[i]) <= Capacity(s.qs[i]) {
      assert QInv(s.qs[i]);
      LiveWithinCapacity(s.qs[i]);
    }
    hide Inv, Flow, LiveCqes, InFlight, Capacity;
    SumMonotone(s.qs, j, LiveCqes, InFlight);
    SumMonotone(s.qs, j, InFlight, Capacity);
  }

  /** What a poller points at is still the entry it consumed, for a request still in flight. */
  lemma HeldEntry(s: System, c: nat)
    requires Inv(s) && c < |s.cqs| && s.cqs[c].Holding?
    ensures HeldValid(s, c)
    ensures var j := s.cqs[c].sub; var u := s.subs[j]; var n := u.consumed - 1;
            && u.cq == c && 0 <= n < |u.prod| == |u.whose| && Returned(s, j) == n
            && HeldCqe(s, c) == u.prod[n] && Live(s, j, n)
  {
    assert CursorOk(s, c);
    var j := s.cqs[c].sub;
    var u := s.subs[j];
    var n := u.consumed - 1;
    NeverOverrun(s, j);
    assert SubOk(u) && LiveOk(s, j) && Live(s, j, n);
    var q := s.qs[QueueOf(u.prod[n])];
    assert QInv(q);
    assert PoolInv(q.wq, q.tickets.Keys);
    hide Inv, QInv, LiveOk, SlotOf, Counts, InStep;
    assert u.buf[SlotOf(n, |u.buf|)] == u.prod[n];
  }

  // ---- every event keeps the invariant -----------------------------------------------------------

  ghost function WithQueue(s: System, i: nat, q': Queue): System
    requires i < |s.qs|
  {
    s.(qs := s.qs[i := q'])
  }

  lemma QuietFlow(s: System, i: nat, q': Queue)
    requires Inv(s) && i < |s.qs| && QInv(q') && Quiet(s.qs[i], q')
    ensures Linked(WithQueue(s, i, q')) && QueuesOk(WithQueue(s, i, q')) && SubsOk(WithQueue(s, i, q'))
    ensures FlowOk(WithQueue(s, i, q')) && CursorsOk(WithQueue(s, i, q'))
  {
    hide QInv, SubOk, LiveOk, ReportsOk, LiveCqes;
    var s' := WithQueue(s, i, q');
    assert s.qs[i].sub == q'.sub;
    forall k | 0 <= k < |s'.qs| ensures QInv(s'.qs[k]) { assert k != i ==> QInv(s.qs[k]); }
    forall j | 0 <= j < |s'.subs| ensures SubOk(s'.subs[j]) { assert SubOk(s.subs[j]); }
    forall c | 0 <= c < |s'.cqs| ensures CursorOk(s', c) { assert CursorOk(s, c); }
    forall j | 0 <= j < |s'.subs| ensures Flow(s', j) {
      assert Flow(s, j);
      SumUpdate(s.qs, j, Capacity, i, q');
      SumUpdate(s.qs, j, LiveCqes, i, q');
    }
  }

  lemma QuietLive(s: System, i: nat, q': Queue)
    requires Inv(s) && i < |s.qs| && Quiet(s.qs[i], q')
    requires Linked(WithQueue(s, i, q')) && SubsOk(WithQueue(s, i, q'))
    ensures AllLive(WithQueue(s, i, q'))
  {
    hide QInv, History, InStep, ReportsOk, LiveCqes;
    var s' := WithQueue(s, i, q');
    forall j | 0 <= j < |s'.subs| ensures SubOk(s'.subs[j]) && LiveOk(s', j) {
      assert SubOk(s.subs[j]) && LiveOk(s, j);
      assert Returned(s', j) == Returned(s, j);
      forall n | 0 <= n && Returned(s', j) <= n < |s'.subs[j].prod| ensures Live(s', j, n) {
        assert Live(s, j, n);
      }
    }
  }

  lemma QuietReports(s: System, i: nat, q': Queue)
    requires Inv(s) && i < |s.qs| && Quiet(s.qs[i], q')
    ensures ReportsOk(WithQueue(s, i, q'))
  {
    hide QInv, SubOk, LiveOk, LiveCqes, FlowOk, CursorsOk;
    var s' := WithQueue(s, i, q');
    forall a | 0 <= a < |s'.reports| ensures ReportOk(s', s'.reports[a]) {
      assert ReportOk(s, s.reports[a]);
      var r := s.reports[a];
      assert HeldReported(s', r.queue, r.ticket) <==> HeldReported(s, r.queue, r.ticket);
    }
    forall k, t | 0 <= k < |s'.qs| && 0 <= t && (t in s'.qs[k].released || HeldReported(s', k, t))
      ensures Told(s', k, t)
    {
      assert HeldReported(s', k, t) <==> HeldReported(s, k, t);
      assert Told(s, k, t);
    }
  }

  lemma QuietKeeps(s: System, i: nat, q': Queue)
    requires Inv(s) && i < |s.qs| && QInv(q') && Quiet(s.qs[i], q')
    ensures Inv(WithQueue(s, i, q'))
  {
    QuietFlow(s, i, q');
    QuietLive(s, i, q');
    QuietReports(s, i, q');
    hide QInv, Linked, QueuesOk, SubsOk, FlowOk, AllLive, CursorsOk, ReportsOk;
  }

  // Completes

  lemma CompleteDefined(s: System, i: nat, idx: nat)
    requires Inv(s) && i < |s.qs| && idx in s.qs[i].outstanding
    ensures var j := s.qs[i].sub;
            && j < |s.subs| && 0 < |s.subs[j].buf| && SubOk(s.subs[j])
            && idx in s.qs[i].tickets && s.qs[i].tickets[idx] < s.qs[i].fetchedReqs
            && QInv(Finish(s.qs[i], idx)) && LiveCqes(Finish(s.qs[i], idx)) == LiveCqes(s.qs[i]) + 1
  {
    assert QInv(s.qs[i]);
    FinishKeeps(s.qs[i], idx);
    assert SubOk(s.subs[s.qs[i].sub]);
  }

  lemma FinishFrame(q: Queue, idx: nat)
    ensures Finish(q, idx).sub == q.sub && Capacity(Finish(q, idx)) == Capacity(q)
  {
  }

  lemma CompleteFlow(s: System, i: nat, idx: nat)
    requires Inv(s) && i < |s.qs| && idx in s.qs[i].outstanding
    requires s.qs[i].sub < |s.subs| && 0 < |s.subs[s.qs[i].sub].buf| && idx in s.qs[i].tickets
    ensures var s' := DoComplete(s, i, idx);
            Linked(s') && QueuesOk(s') && SubsOk(s') && FlowOk(s') && CursorsOk(s')
  {
    hide QInv, History, InStep, LiveOk, ReportsOk, LiveCqes, PhaseAt, SlotOf, CqeFor, AllLive, Finish;
    CompleteDefined(s, i, idx);
    FinishFrame(s.qs[i], idx);
    var s', j, q' := DoComplete(s, i, idx), s.qs[i].sub, Finish(s.qs[i], idx);
    var u := s.subs[j];
    Produce(u.buf, u.prod, CqeFor(i, idx, PhaseAt(|u.prod|, |u.buf|)));
    forall k | 0 <= k < |s'.qs| ensures QInv(s'.qs[k]) { assert k != i ==> QInv(s.qs[k]); }
    forall k | 0 <= k < |s'.subs| ensures SubOk(s'.subs[k]) { assert SubOk(s.subs[k]); }
    forall c | 0 <= c < |s'.cqs| ensures CursorOk(s', c) { assert CursorOk(s, c); }
    forall k | 0 <= k < |s'.subs| ensures Flow(s', k) {
      assert Flow(s, k);
      SumUpdate(s.qs, k, Capacity, i, q');
      SumUpdate(s.qs, k, LiveCqes, i, q');
    }
  }

  lemma CompleteLiveAt(s: System, i: nat, idx: nat, j: nat, n: nat)
    requires Inv(s) && i < |s.qs| && idx in s.qs[i].outstanding
    requires s.qs[i].sub < |s.subs| && 0 < |s.subs[s.qs[i].sub].buf| && idx in s.qs[i].tickets
    requires j < |s.subs| && Returned(s, j) <= n
    requires var s' := DoComplete(s, i, idx); n < |s'.subs[j].prod| == |s'.subs[j].whose|
    ensures Live(DoComplete(s, i, idx), j, n)
    ensures n < |s.subs[j].prod| ==>
              QueueOf(s.subs[j].prod[n]) != i || s.subs[j].prod[n].reqId != idx
  {
    CompleteDefined(s, i, idx);
    assert SubOk(s.subs[j]) && LiveOk(s, j);
    if n < |s.subs[j].prod| { assert Live(s, j, n); }
    hide Inv, QInv, History, InStep, LiveOk, LiveCqes, PhaseAt, SlotOf, CqeFor, QueueOf;
  }

  lemma CompleteLive(s: System, i: nat, idx: nat)
    requires Inv(s) && i < |s.qs| && idx in s.qs[i].outstanding
    requires s.qs[i].sub < |s.subs| && 0 < |s.subs[s.qs[i].sub].buf| && idx in s.qs[i].tickets
    requires Linked(DoComplete(s, i, idx)) && SubsOk(DoComplete(s, i, idx))
    ensures AllLive(DoComplete(s, i, idx))
  {
    hide QInv, History, InStep, ReportsOk, LiveCqes, PhaseAt, SlotOf, CqeFor, QueueOf, Live, QueuesOk, FlowOk,
      CursorsOk;
    var s' := DoComplete(s, i, idx);
    forall j | 0 <= j < |s'.subs| ensures SubOk(s'.subs[j]) && LiveOk(s', j) {
      assert SubOk(s.subs[j]) && SubOk(s'.subs[j]) && LiveOk(s, j);
      assert Returned(s', j) == Returned(s, j);
      forall n | 0 <= n && Returned(s', j) <= n < |s'.subs[j].prod|
        ensures Live(s', j, n)
        ensures n < |s.subs[j].prod| ==> QueueOf(s.subs[j].prod[n]) != i || s.subs[j].prod[n].reqId != idx
      {
        CompleteLiveAt(s, i, idx, j, n);
      }
    }
  }

  lemma CompleteReports(s: System, i: nat, idx: nat)
    requires Inv(s) && i < |s.qs| && idx in s.qs[i].outstanding
    requires s.qs[i].sub < |s.subs| && 0 < |s.subs[s.qs[i].sub].buf| && idx in s.qs[i].tickets
    ensures ReportsOk(DoComplete(s, i, idx))
  {
    hide QInv, History, InStep, LiveOk, LiveCqes, FlowOk, CursorsOk, PhaseAt, SlotOf, CqeFor;
    var s' := DoComplete(s, i, idx);
    forall k: nat, t: nat | k < |s.qs| ensures HeldReported(s', k, t) <==> HeldReported(s, k, t) {
      assert s.qs[k].sub < |s.subs| && SubOk(s.subs[s.qs[k].sub]);
    }
    forall a | 0 <= a < |s'.reports| ensures ReportOk(s', s'.reports[a]) {
      assert ReportOk(s, s.reports[a]);
    }
    forall k, t | 0 <= k < |s'.qs| && 0 <= t && (t in s'.qs[k].released || HeldReported(s', k, t))
      ensures Told(s', k, t)
    {
      assert Told(s, k, t);
    }
  }

  lemma CompleteKeeps(s: System, i: nat, idx: nat)
    requires Inv(s) && i < |s.qs| && idx in s.qs[i].outstanding
    ensures s.qs[i].sub < |s.subs| && 0 < |s.subs[s.qs[i].sub].buf| && idx in s.qs[i].tickets
    ensures Inv(DoComplete(s, i, idx))
  {
    CompleteDefined(s, i, idx);
    CompleteFlow(s, i, idx);
    CompleteLive(s, i, idx);
    CompleteReports(s, i, idx);
    hide QInv, Linked, QueuesOk, SubsOk, FlowOk, AllLive, CursorsOk, ReportsOk;
  }

  // Consumes

  lemma ConsumeReads(s: System, c: nat, j: nat)
    requires Inv(s) && Enabled(s, Consumes(c, j))
    ensures var u := s.subs[j];
            && u.consumed < |u.prod| && u.host.phase <= 1 && 0 < |u.buf| && Returned(s, j) == u.consumed
            && CurrentIndex(u.host) == SlotOf(u.consumed, |u.buf|)
            && u.buf[CurrentIndex(u.host)] == u.prod[u.consumed]
            && InStep(CompletionRing.Consume(u.host), u.consumed + 1, |u.buf|)
  {
    var u := s.subs[j];
    assert SubOk(u);
    NeverOverrun(s, j);
    hide Inv, History, InStep, PhaseAt, SlotOf, Wrap16;
    PhaseProtocol(u.host, u.buf, u.prod, u.consumed);
    ConsumeKeeps(u.host, u.consumed, |u.buf|);
  }

  /** Nothing is in hand before a poller consumes, and only the consumed sub queue is afterwards. */
  lemma ConsumeHand(s: System, c: nat, j: nat)
    requires Inv(s) && Enabled(s, Consumes(c, j)) && s.subs[j].host.phase <= 1
    ensures var s' := DoConsume(s, c, j);
            && Linked(s')
            && (forall k :: 0 <= k < |s.subs| ==>
                  (InHand(s', k) <==> k == j || InHand(s, k)) && (k == j ==> !InHand(s, k)))
            && (forall k :: 0 <= k < |s.subs| ==> Returned(s', k) == Returned(s, k))
            && (forall i: nat, t: nat :: i < |s.qs| ==> (HeldReported(s', i, t) <==> HeldReported(s, i, t)))
  {
    hide QueuesOk, SubsOk, FlowOk, AllLive, CursorsOk, ReportsOk, Pending, CompletionRing.Consume, CurrentIndex;
  }

  lemma ConsumeSubs(s: System, c: nat, j: nat)
    requires Inv(s) && Enabled(s, Consumes(c, j)) && s.subs[j].host.phase <= 1
    ensures var s' := DoConsume(s, c, j);
            Linked(s') && QueuesOk(s') && SubsOk(s') && FlowOk(s') && CursorsOk(s')
  {
    ConsumeReads(s, c, j);
    ConsumeHand(s, c, j);
    hide QInv, History, InStep, LiveOk, ReportsOk, LiveCqes, SlotOf, Pending, CompletionRing.Consume, CurrentIndex;
    var s' := DoConsume(s, c, j);
    forall k | 0 <= k < |s'.qs| ensures QInv(s'.qs[k]) { assert QInv(s.qs[k]); }
    forall k | 0 <= k < |s'.subs| ensures SubOk(s'.subs[k]) { assert SubOk(s.subs[k]); }
    forall k | 0 <= k < |s'.cqs| ensures CursorOk(s', k) { assert CursorOk(s, k); }
    forall k | 0 <= k < |s'.subs| ensures Flow(s', k) { assert Flow(s, k); }
  }

  lemma ConsumeLive(s: System, c: nat, j: nat)
    requires Inv(s) && Enabled(s, Consumes(c, j)) && s.subs[j].host.phase <= 1
    requires Linked(DoConsume(s, c, j)) && SubsOk(DoConsume(s, c, j))
    ensures AllLive(DoConsume(s, c, j)) && ReportsOk(DoConsume(s, c, j))
  {
    ConsumeHand(s, c, j);
    hide QInv, History, InStep, LiveCqes, SlotOf, Pending, CompletionRing.Consume, CurrentIndex, HeldReported;
    var s' := DoConsume(s, c, j);
    forall k | 0 <= k < |s'.subs| ensures SubOk(s'.subs[k]) && LiveOk(s', k) {
      assert SubOk(s.subs[k]) && SubOk(s'.subs[k]) && LiveOk(s, k);
      forall n | 0 <= n && Returned(s', k) <= n < |s'.subs[k].prod| ensures Live(s', k, n) { assert Live(s, k, n); }
    }
    forall a | 0 <= a < |s'.reports| ensures ReportOk(s', s'.reports[a]) { assert ReportOk(s, s.reports[a]); }
    forall k, t | 0 <= k < |s'.qs| && 0 <= t && (t in s'.qs[k].released || HeldReported(s', k, t))
      ensures Told(s', k, t)
    {
      assert Told(s, k, t);
    }
  }

  lemma ConsumeEventKeeps(s: System, c: nat, j: nat)
    requires Inv(s) && Enabled(s, Consumes(c, j))
    ensures s.subs[j].host.phase <= 1 && Inv(DoConsume(s, c, j))
  {
    ConsumeReads(s, c, j);
    ConsumeSubs(s, c, j);
    ConsumeLive(s, c, j);
    hide QInv, Linked, QueuesOk, SubsOk, FlowOk, AllLive, CursorsOk, ReportsOk;
  }

  // Reports

  /** The entry a poller holds is that of one accepted request, whose wrid entry is still its own. */
  lemma HeldRequest(s: System, c: nat)
    requires Inv(s) && c < |s.cqs| && s.cqs[c].Holding?
    ensures HeldValid(s, c)
    ensures var e := HeldCqe(s, c); var i := QueueOf(e); var q := s.qs[i]; var t := q.tickets[e.reqId];
            && q.sub == s.cqs[c].sub && t < q.fetchedReqs <= |q.log| && t !in q.released
            && q.log[t].idx == e.reqId && q.wq.wrid[e.reqId] == q.log[t].wrId
            && e.reqId !in q.outstanding
            && (s.cqs[c].reported ==> HeldReported(s, i, t))
    ensures forall i: nat, t: nat :: i < |s.qs| && HeldReported(s, i, t) && s.qs[i].sub == s.cqs[c].sub ==>
              i == QueueOf(HeldCqe(s, c)) && t == s.qs[i].tickets[HeldCqe(s, c).reqId] && s.cqs[c].reported
  {
    HeldEntry(s, c);
    var q := s.qs[QueueOf(HeldCqe(s, c))];
    assert QInv(q);
    assert TicketOk(q) && DeviceOk(q) && q.sub < |s.subs|;
    hide Inv, QInv, SubsOk, Linked;
  }

  lemma ReportLive(s: System, c: nat)
    requires Inv(s) && Enabled(s, Reports(c)) && HeldValid(s, c)
    ensures var s' := DoReport(s, c);
            && Linked(s') && QueuesOk(s') && SubsOk(s') && FlowOk(s') && CursorsOk(s') && AllLive(s')
  {
    hide QInv, History, InStep, ReportsOk, LiveCqes, SlotOf, HeldValid, HeldCqe, QueueOf;
    var s' := DoReport(s, c);
    forall k | 0 <= k < |s'.qs| ensures QInv(s'.qs[k]) { assert QInv(s.qs[k]); }
    forall k | 0 <= k < |s'.cqs| ensures CursorOk(s', k) { assert CursorOk(s, k); }
    forall k | 0 <= k < |s'.subs| ensures InHand(s', k) <==> InHand(s, k) { }
    forall k | 0 <= k < |s'.subs| ensures Flow(s', k) { assert Flow(s, k); }
    forall k | 0 <= k < |s'.subs| ensures SubOk(s'.subs[k]) && LiveOk(s', k) {
      assert SubOk(s.subs[k]) && LiveOk(s, k);
      forall n | 0 <= n && Returned(s', k) <= n < |s'.subs[k].prod| ensures Live(s', k, n) { assert Live(s, k, n); }
    }
  }

  lemma ReportHeld(s: System, c: nat)
    requires Inv(s) && Enabled(s, Reports(c)) && HeldValid(s, c)
    ensures var e := HeldCqe(s, c); var i := QueueOf(e);
            && HeldReported(DoReport(s, c), i, s.qs[i].tickets[e.reqId])
            && (forall k: nat, u: nat :: k < |s.qs| && HeldReported(DoReport(s, c), k, u) ==>
                  HeldReported(s, k, u) || (k == i && u == s.qs[i].tickets[e.reqId]))
            && (forall k: nat, u: nat :: k < |s.qs| && HeldReported(s, k, u) ==> s.qs[k].sub != s.cqs[c].sub)
            && (forall k: nat, u: nat :: k < |s.qs| && HeldReported(s, k, u) ==> HeldReported(DoReport(s, c), k, u))
  {
    HeldEntry(s, c);
    HeldRequest(s, c);
    hide Inv, QInv, QueueOf;
  }

  lemma ReportReports(s: System, c: nat)
    requires Inv(s) && Enabled(s, Reports(c)) && HeldValid(s, c)
    ensures ReportsOk(DoReport(s, c))
  {
    HeldRequest(s, c);
    ReportHeld(s, c);
    hide QInv, History, InStep, LiveOk, LiveCqes, SlotOf, FlowOk, CursorsOk, AllLive, SubsOk, QueuesOk, QueueOf;
    var s', e := DoReport(s, c), HeldCqe(s, c);
    var i := QueueOf(e);
    var t := s.qs[i].tickets[e.reqId];
    forall a | 0 <= a < |s'.reports| ensures ReportOk(s', s'.reports[a]) {
      if a < |s.reports| {
        var r := s.reports[a];
        assert ReportOk(s, r);
        assert HeldReported(s, r.queue, r.ticket) ==> HeldReported(s', r.queue, r.ticket);
      }
    }
    forall a | 0 <= a < |s.reports| ensures s.reports[a].queue != i || s.reports[a].ticket != t {
      assert ReportOk(s, s.reports[a]);
    }
    forall k, u | 0 <= k < |s'.qs| && 0 <= u && (u in s'.qs[k].released || HeldReported(s', k, u))
      ensures Told(s', k, u)
    {
      if k == i && u == t {
        assert s'.reports[|s.reports|].queue == k;
      } else {
        assert HeldReported(s', k, u) ==> HeldReported(s, k, u);
        assert Told(s, k, u);
        var a :| 0 <= a < |s.reports| && s.reports[a].queue == k && s.reports[a].ticket == u;
        assert s'.reports[a].queue == k;
      }
    }
  }

  lemma ReportEventKeeps(s: System, c: nat)
    requires Inv(s) && Enabled(s, Reports(c))
    ensures HeldValid(s, c) && Inv(DoReport(s, c))
  {
    HeldEntry(s, c);
    ReportLive(s, c);
    ReportReports(s, c);
    hide QInv, Linked, QueuesOk, SubsOk, FlowOk, AllLive, CursorsOk, ReportsOk;
  }

  // GivesBack

  lemma GiveBackDefined(s: System, c: nat)
    requires Inv(s) && Enabled(s, GivesBack(c))
    ensures HeldValid(s, c)
    ensures var e := HeldCqe(s, c); var i := QueueOf(e); var q := s.qs[i]; var q' := GiveBack(q, e.reqId);
            && QInv(q') && LiveCqes(q') == LiveCqes(q) - 1 && q'.sub == q.sub == s.cqs[c].sub
            && HeldReported(s, i, q.tickets[e.reqId])
  {
    HeldRequest(s, c);
    var e := HeldCqe(s, c);
    assert QInv(s.qs[QueueOf(e)]);
    GiveBackKeeps(s.qs[QueueOf(e)], e.reqId);
    hide Inv, QInv, QueueOf, HeldReported, LiveCqes;
  }

  lemma GiveBackHand(s: System, c: nat)
    requires Inv(s) && Enabled(s, GivesBack(c)) && HeldValid(s, c)
    ensures var s' := DoGiveBack(s, c);
            && Linked(s')
            && (forall k :: 0 <= k < |s.subs| ==>
                  Returned(s', k) == Returned(s, k) + (if k == s.cqs[c].sub then 1 else 0))
  {
    HeldEntry(s, c);
    GiveBackDefined(s, c);
    hide QueuesOk, SubsOk, FlowOk, AllLive, CursorsOk, ReportsOk, QInv, LiveCqes, QueueOf, HeldReported;
  }

  lemma GiveBackFlow(s: System, c: nat)
    requires Inv(s) && Enabled(s, GivesBack(c)) && HeldValid(s, c)
    ensures var s' := DoGiveBack(s, c);
            && Linked(s') && QueuesOk(s') && SubsOk(s') && FlowOk(s') && CursorsOk(s')
  {
    GiveBackDefined(s, c);
    GiveBackHand(s, c);
    hide QInv, History, InStep, LiveOk, ReportsOk, LiveCqes, SlotOf, QueueOf, HeldReported;
    var s', e := DoGiveBack(s, c), HeldCqe(s, c);
    var i := QueueOf(e);
    var q' := GiveBack(s.qs[i], e.reqId);
    forall k | 0 <= k < |s'.qs| ensures QInv(s'.qs[k]) { assert k != i ==> QInv(s.qs[k]); }
    forall k | 0 <= k < |s'.subs| ensures SubOk(s'.subs[k]) { assert SubOk(s.subs[k]); }
    forall k | 0 <= k < |s'.cqs| ensures CursorOk(s', k) { assert CursorOk(s, k); }
    forall k | 0 <= k < |s'.subs| ensures Flow(s', k) {
      assert Flow(s, k);
      SumUpdate(s.qs, k, Capacity, i, q');
      SumUpdate(s.qs, k, LiveCqes, i, q');
    }
  }

  lemma GiveBackLiveAt(s: System, c: nat, j: nat, n: nat)
    requires Inv(s) && Enabled(s, GivesBack(c)) && HeldValid(s, c)
    requires j < |s.subs| && Linked(DoGiveBack(s, c)) && Returned(DoGiveBack(s, c), j) <= n
    requires n < |s.subs[j].prod| == |s.subs[j].whose|
    ensures Live(DoGiveBack(s, c), j, n)
  {
    HeldEntry(s, c);
    GiveBackHand(s, c);
    assert SubOk(s.subs[j]) && LiveOk(s, j) && Live(s, j, n);
    if j == s.cqs[c].sub {
      assert !SameRequest(s.subs[j].prod[s.subs[j].consumed - 1], s.subs[j].prod[n]);
    } else {
      assert Live(s, s.cqs[c].sub, s.subs[s.cqs[c].sub].consumed - 1);
    }
    hide Inv, QInv, History, InStep, LiveOk, SlotOf, QueueOf;
  }

  lemma GiveBackLive(s: System, c: nat)
    requires Inv(s) && Enabled(s, GivesBack(c)) && HeldValid(s, c)
    requires Linked(DoGiveBack(s, c)) && SubsOk(DoGiveBack(s, c))
    ensures AllLive(DoGiveBack(s, c))
  {
    GiveBackHand(s, c);
    hide QInv, History, InStep, ReportsOk, LiveCqes, SlotOf, QueueOf, Live, QueuesOk, FlowOk, CursorsOk, HeldValid,
      Returned, Linked, GiveBack;
    var s' := DoGiveBack(s, c);
    forall j | 0 <= j < |s'.subs| ensures SubOk(s'.subs[j]) && LiveOk(s', j) {
      assert SubOk(s.subs[j]) && SubOk(s'.subs[j]) && LiveOk(s, j);
      forall n | 0 <= n && Returned(s', j) <= n < |s'.subs[j].prod| ensures Live(s', j, n) {
        GiveBackLiveAt(s, c, j, n);
      }
    }
  }

  lemma GiveBackHeld(s: System, c: nat)
    requires Inv(s) && Enabled(s, GivesBack(c)) && HeldValid(s, c)
    ensures var e := HeldCqe(s, c); var i := QueueOf(e); var t := s.qs[i].tickets[e.reqId]; var s' := DoGiveBack(s, c);
            && (forall k: nat, u: nat :: k < |s.qs| && HeldReported(s, k, u) ==>
                  HeldReported(s', k, u) || (k == i && u == t))
            && (forall k: nat, u: nat :: k < |s.qs| && HeldReported(s', k, u) ==> HeldReported(s, k, u))
            && HeldReported(s, i, t)
  {
    HeldRequest(s, c);
    HeldEntry(s, c);
    hide Inv, QInv, QueueOf;
  }

  lemma GiveBackReports(s: System, c: nat)
    requires Inv(s) && Enabled(s, GivesBack(c)) && HeldValid(s, c)
    ensures ReportsOk(DoGiveBack(s, c))
  {
    GiveBackHeld(s, c);
    hide QInv, History, InStep, LiveOk, LiveCqes, SlotOf, FlowOk, CursorsOk, AllLive, SubsOk, QueuesOk, QueueOf,
      HeldReported;
    var s' := DoGiveBack(s, c);
    forall a | 0 <= a < |s'.reports| ensures ReportOk(s', s'.reports[a]) { assert ReportOk(s, s.reports[a]); }
    forall k, u | 0 <= k < |s'.qs| && 0 <= u && (u in s'.qs[k].released || HeldReported(s', k, u))
      ensures Told(s', k, u)
    {
      assert Told(s, k, u);
    }
  }

  lemma GiveBackEventKeeps(s: System, c: nat)
    requires Inv(s) && Enabled(s, GivesBack(c))
    ensures HeldValid(s, c) && Inv(DoGiveBack(s, c))
  {
    GiveBackDefined(s, c);
    GiveBackFlow(s, c);
    GiveBackLive(s, c);
    GiveBackReports(s, c);
    hide QInv, Linked, QueuesOk, SubsOk, FlowOk, AllLive, CursorsOk, ReportsOk, LiveCqes, HeldReported;
  }

  // ---- runs --------------------------------------------------------------------------------------

  ghost function Apply(s: System, e: Event): System
    requires Inv(s) && Enabled(s, e)
  {
    match e
    case OnQueue(i, step) =>
      assert QInv(s.qs[i]);
      WithQueue(s, i, QApply(s.qs[i], step))
    case Completes(i, idx) => CompleteKeeps(s, i, idx); DoComplete(s, i, idx)
    case Consumes(c, j) => ConsumeEventKeeps(s, c, j); DoConsume(s, c, j)
    case Reports(c) => ReportEventKeeps(s, c); DoReport(s, c)
    case GivesBack(c) => GiveBackEventKeeps(s, c); DoGiveBack(s, c)
  }

  lemma ApplyKeeps(s: System, e: Event)
    requires Inv(s) && Enabled(s, e)
    ensures Inv(Apply(s, e))
  {
    match e
    case OnQueue(i, step) =>
      assert QInv(s.qs[i]);
      QStepKeeps(s.qs[i], step);
      hide Inv, QInv, Quiet;
      QuietKeeps(s, i, QApply(s.qs[i], step));
    case Completes(i, idx) => CompleteKeeps(s, i, idx);
    case Consumes(c, j) => ConsumeEventKeeps(s, c, j);
    case Reports(c) => ReportEventKeeps(s, c);
    case GivesBack(c) => GiveBackEventKeeps(s, c);
  }

  ghost predicate QueueInit(q: Queue) {
    && ConfigOk(q) && |q.wq.wrid| == q.wq.cnt <= 0x8000 && q.wq == Fresh(q.wq.cnt, q.wq.mask, q.wq.wrid)
    && q.mode == Unlocked && q.todo == [] && q.staged == [] && q.db == 0 && q.devPc == 0 && q.outstanding == {}
    && q.log == [] && q.dlog == [] && q.owner == [] && q.tickets == map[] && q.released == {}
    && q.written == q.rung == q.fetched == q.fetchedReqs == 0
  }

  ghost predicate SubInit(u: Sub) {
    && RingSize(|u.buf|) && 0 < |u.buf| && u.host == Initialize(|u.buf|)
    && (forall i :: 0 <= i < |u.buf| ==> u.buf[i].phase == 0)
    && u.prod == [] && u.whose == [] && u.consumed == 0
  }

  /** Fresh queues and completion queues, attached in any way. */
  ghost predicate Created(s: System) {
    && Linked(s) && s.reports == []
    && (forall i {:trigger QueueInit(s.qs[i])} :: 0 <= i < |s.qs| ==> QueueInit(s.qs[i]))
    && (forall j {:trigger SubInit(s.subs[j])} :: 0 <= j < |s.subs| ==> SubInit(s.subs[j]))
    && (forall c :: 0 <= c < |s.cqs| ==> s.cqs[c] == NoCqe)
  }

  /** The queues attached to a sub completion queue fit it. */
  ghost predicate Fits(s: System, j: nat)
    requires j < |s.subs|
  {
    Sum(s.qs, j, Capacity) <= |s.subs[j].buf|
  }

  /** Fresh queues and completion queues, sized so that attached queues fit their completion queue. */
  ghost predicate Init(s: System) {
    Created(s) && forall j {:trigger Fits(s, j)} :: 0 <= j < |s.subs| ==> Fits(s, j)
  }

  lemma QueueInitInv(q: Queue)
    requires QueueInit(q)
    ensures QInv(q) && LiveCqes(q) == 0
  {
    FreshInv(q.wq.cnt, q.wq.mask, q.wq.wrid);
    FirstLap(0, |q.ring|);
    hide SlotOf, LapOf, RingSize, Fresh;
  }

  lemma {:induction false} SumZero(qs: seq<Queue>, j: nat, f: Queue -> int)
    requires forall i :: 0 <= i < |qs| ==> f(qs[i]) == 0
    ensures Sum(qs, j, f) == 0
  {
    if qs != [] { SumZero(qs[..|qs| - 1], j, f); }
  }

  lemma InitInv(s: System)
    requires Init(s)
    ensures Inv(s)
  {
    forall i | 0 <= i < |s.qs| ensures QInv(s.qs[i]) && LiveCqes(s.qs[i]) == 0 && s.qs[i].released == {} {
      assert QueueInit(s.qs[i]);
      QueueInitInv(s.qs[i]);
    }
    forall j | 0 <= j < |s.subs| ensures SubOk(s.subs[j]) && s.subs[j].prod == [] {
      assert SubInit(s.subs[j]);
      Start(|s.subs[j].buf|, s.subs[j].buf);
    }
    forall j | 0 <= j < |s.subs| ensures Flow(s, j) {
      assert SubInit(s.subs[j]);
      SumZero(s.qs, j, LiveCqes);
      assert Fits(s, j);
    }
  }

  /** A run from one state to another. */
  ghost predicate IsRun(s: System, es: seq<Event>, s': System)
    requires Inv(s)
    decreases |es|
  {
    if es == [] then s' == s
    else Enabled(s, es[0]) && (ApplyKeeps(s, es[0]); IsRun(Apply(s, es[0]), es[1..], s'))
  }

  lemma {:induction false} RunKeeps(s: System, es: seq<Event>, s': System)
    requires Inv(s) && IsRun(s, es, s')
    ensures Inv(s')
    decreases |es|
  {
    if es != [] {
      ApplyKeeps(s, es[0]);
      RunKeeps(Apply(s, es[0]), es[1..], s');
    }
  }

  ghost predicate Reachable(s: System) {
    exists s0, es :: Init(s0) && Inv(s0) && IsRun(s0, es, s)
  }

  lemma ReachableInv(s: System)
    requires Reachable(s)
    ensures Inv(s)
  {
    var s0, es :| Init(s0) && Inv(s0) && IsRun(s0, es, s);
    RunKeeps(s0, es, s);
  }

  // ---- main results ------------------------------------------------------------------------------

  /**
   In every interleaving of list posts, sessions, aborts, out-of-order completions and polling: every
   completion reports exactly the wr_id its request was posted with, no accepted request is reported
   twice, and every index given back belonged to a request that had been reported.
   */
  lemma CompletionsAreExact(s: System)
    requires Reachable(s)
    ensures forall a :: 0 <= a < |s.reports| ==>
              && s.reports[a].queue < |s.qs|
              && s.reports[a].ticket < |s.qs[s.reports[a].queue].log|
              && s.reports[a].wrId == s.qs[s.reports[a].queue].log[s.reports[a].ticket].wrId
    ensures forall a, b :: 0 <= a < b < |s.reports| ==>
              s.reports[a].queue != s.reports[b].queue || s.reports[a].ticket != s.reports[b].ticket
    ensures forall i, t {:trigger Told(s, i, t)} ::
              0 <= i < |s.qs| && 0 <= t && t in s.qs[i].released ==> Told(s, i, t)
  {
    ReachableInv(s);
    forall a | 0 <= a < |s.reports| ensures ReportOk(s, s.reports[a]) { }
  }

  /** Between an entry's consumption and its release, no other event touches what the poller reads. */
  lemma HeldUntouched(s: System, e: Event, c: nat)
    requires Inv(s) && Enabled(s, e) && c < |s.cqs| && s.cqs[c].Holding? && e != GivesBack(c)
    ensures HeldValid(s, c) && HeldValid(Apply(s, e), c)
    ensures HeldCqe(Apply(s, e), c) == HeldCqe(s, c)
    ensures Apply(s, e).qs[QueueOf(HeldCqe(s, c))].wq.wrid[HeldCqe(s, c).reqId]
         == s.qs[QueueOf(HeldCqe(s, c))].wq.wrid[HeldCqe(s, c).reqId]
  {
    var s' := Apply(s, e);
    ApplyKeeps(s, e);
    HeldEntry(s, c);
    HeldRequest(s, c);
    HeldPersists(s, e, c);
    HeldEntry(s', c);
    HeldRequest(s', c);
    hide Inv, QueueOf, HeldReported, Enabled, Apply;
  }

  lemma QueueHolds(s: System, i: nat)
    requires Inv(s) && i < |s.qs|
    ensures QInv(s.qs[i])
  {
    hide QInv, Linked, SubsOk, FlowOk, AllLive, CursorsOk, ReportsOk;
  }

  /** The poller's pointer, the entry under it and its request's record persist. */
  lemma HeldPersists(s: System, e: Event, c: nat)
    requires Inv(s) && Enabled(s, e) && c < |s.cqs| && s.cqs[c].Holding? && e != GivesBack(c)
    requires HeldValid(s, c)
    ensures var s' := Apply(s, e); var j := s.cqs[c].sub; var n := s.subs[j].consumed - 1;
            && c < |s'.cqs| && s'.cqs[c].Holding? && s'.cqs[c].sub == j && |s'.qs| == |s.qs| && |s'.subs| == |s.subs|
            && s'.subs[j].consumed == n + 1 && 0 <= n < |s.subs[j].prod| <= |s'.subs[j].prod|
            && s'.subs[j].prod[n] == s.subs[j].prod[n]
    ensures var i := QueueOf(HeldCqe(s, c)); var q, q' := s.qs[i], Apply(s, e).qs[i];
            var t := q.tickets[HeldCqe(s, c).reqId];
            && HeldCqe(s, c).reqId in q'.tickets && q'.tickets[HeldCqe(s, c).reqId] == t
            && t < |q.log| && t < |q'.log| && q'.log[t] == q.log[t]
  {
    hide Inv, QInv, QueueOf, HeldReported, LiveCqes, SubOk, QApply, QEnabled, CqeFor;
    HeldEntry(s, c);
    HeldRequest(s, c);
    match e
    case OnQueue(i, step) =>
      QueueHolds(s, i);
      QStepKeeps(s.qs[i], step);
    case Completes(i, idx) =>
      CompleteDefined(s, i, idx);
    case Consumes(d, j) =>
    case Reports(d) =>
    case GivesBack(d) =>
      HeldEntry(s, d);
      HeldRequest(s, d);
  }

  /**
   In every reachable state the next completion the device writes lands in a slot whose entry has been
   given back, although the device never learns what the host consumed.
   */
  lemma CompletionOverwritesNothing(s: System, i: nat, idx: nat)
    requires Reachable(s) && Enabled(s, Completes(i, idx))
    ensures var j := s.qs[i].sub;
            && j < |s.subs| && Linked(s) && 0 < |s.subs[j].buf|
            && |s.subs[j].prod| - Returned(s, j) < |s.subs[j].buf|
            && (forall n :: 0 <= n && Returned(s, j) <= n < |s.subs[j].prod| ==>
                  SlotOf(n, |s.subs[j].buf|) != SlotOf(|s.subs[j].prod|, |s.subs[j].buf|))
  {
    ReachableInv(s);
    var j := s.qs[i].sub;
    CompleteKeeps(s, i, idx);
    CompleteDefined(s, i, idx);
    var s' := DoComplete(s, i, idx);
    NeverOverrun(s', j);
    assert Returned(s', j) == Returned(s, j);
    var d := |s.subs[j].buf|;
    hide Inv, QInv, SlotOf, QueueOf, CqeFor, LiveCqes, SubOk;
    forall n | 0 <= n && Returned(s, j) <= n < |s.subs[j].prod|
      ensures SlotOf(n, d) != SlotOf(|s.subs[j].prod|, d)
    {
      SlotsDiffer(n, |s.subs[j].prod|, d);
    }
  }

  /** Polling a sub completion queue finds an entry exactly when one is unconsumed, and it is the oldest. */
  lemma PollFindsOldest(s: System, j: nat)
    requires Reachable(s) && j < |s.subs| && Linked(s) && !InHand(s, j)
    ensures var u := s.subs[j];
            && u.host.qmask < |u.buf|
            && (Pending(u.host, u.buf) <==> u.consumed < |u.prod|)
            && (Pending(u.host, u.buf) ==> u.buf[CurrentIndex(u.host)] == u.prod[u.consumed])
  {
    ReachableInv(s);
    var u := s.subs[j];
    assert SubOk(u);
    NeverOverrun(s, j);
    hide Inv, History, PhaseAt, SlotOf, Wrap16;
    PhaseProtocol(u.host, u.buf, u.prod, u.consumed);
  }

  /**
   Send and receive ring safety. What the device has not fetched is in the ring as it was posted, with
   the phase of its lap; the doorbell covers nothing else; and a slot about to be written holds none of it.
   */
  lemma RingsAreSafe(s: System, i: nat)
    requires Reachable(s) && i < |s.qs|
    ensures var q := s.qs[i]; var n := |q.ring|;
            && 0 < n && q.fetched <= q.rung <= q.written <= |q.dlog| <= q.fetched + n
            && q.devPc == Wrap16(q.fetched) && q.db == Wrap16(q.rung)
            && (forall p :: q.fetched <= p < q.written ==>
                  q.ring[SlotOf(p, n)] == q.dlog[p] && q.dlog[p].phase == LapOf(p, n) % 2)
    ensures var q := s.qs[i];
            QEnabled(q, Emits) && q.mode == Listing ==>
              && BitAnd(q.wq.pc, q.wq.mask) < |q.ring|
              && (forall p :: q.fetched <= p < q.written ==> SlotOf(p, |q.ring|) != BitAnd(q.wq.pc, q.wq.mask))
    ensures var q := s.qs[i];
            QEnabled(q, Copies) ==>
              && CopySlot(q) < |q.ring|
              && (forall p :: q.fetched <= p < q.written ==> SlotOf(p, |q.ring|) != CopySlot(q))
  {
    ReachableInv(s);
    var q := s.qs[i];
    assert QInv(q);
    WindowFits(q);
    EmitSlot(q);
    StagedPosition(q);
    assert RingOk(q) && LogOk(q) && |q.ring| > 0;
    hide Inv, QInv, SlotOf, LapOf, Wrap16, BitAnd, CopySlot;
    var n := |q.ring|;
    forall p | q.fetched <= p < q.written
      ensures q.dlog[p].phase == LapOf(p, n) % 2
      ensures q.written < q.fetched + n ==> SlotOf(p, n) != SlotOf(q.written, n)
    {
      assert DescRight(q, p);
      if q.written < q.fetched + n { SlotsDiffer(p, q.written, n); }
    }
  }
}
