/**
 One work queue shared by posting threads, the device and a poller, as a state machine. Host steps are
 those of the list and session posting paths, taken under the queue's lock; the device fetches ring
 descriptors in order up to the last doorbell and completes fetched requests in any order.

 A send request has one descriptor; a receive request has one per scatter entry. Only `wq`, `mode`,
 `todo`, `head`, `first`, `staged`, `pending`, `phaseRb`, `ring`, `db` and the device's `devPc`,
 `partial`, `outstanding` exist in the system. The other fields record history: unbounded positions
 where the system keeps 16- and 32-bit counters, and who each index was handed out to.
 */
module QueueMachine {
  import opened Words
  import opened WridPool

  /** A ring descriptor; `body` stands for everything but the request id and the control bits. */
  datatype Desc = Desc(reqId: nat, first: bool, last: bool, phase: nat, body: nat)

  datatype Request = Request(wrId: nat, bodies: seq<nat>)

  /** An accepted request: its index, and the position of its first descriptor. */
  datatype Entry = Entry(wrId: nat, bodies: seq<nat>, idx: nat, start: nat)

  /** Who holds the queue's lock: nobody, a list post, an open session, a completing session. */
  datatype Mode = Unlocked | Listing | Session | Committing

  datatype Queue = Queue(
    sub: nat,               // the sub completion queue this queue reports to
    maxDesc: nat,
    wq: Wq,
    mode: Mode,
    todo: seq<nat>,         // bodies of the current request still to be written
    head: nat,              // request id of the next descriptor: set in a request's first one only
    first: bool,
    staged: seq<Desc>,      // local_queue, not yet copied to the ring
    pending: nat,           // num_wqe_pending
    phaseRb: nat,
    ring: seq<Desc>,
    db: nat,                // last doorbell value, 16 bits
    devPc: nat,             // the device's fetch counter, 16 bits
    partial: nat,           // request id of the request being fetched
    outstanding: set<nat>,  // fetched and not yet completed
    // history
    log: seq<Entry>,
    dlog: seq<Desc>,        // every descriptor written or staged, in order
    owner: seq<nat>,        // the request each of them belongs to
    written: nat,
    rung: nat,
    fetched: nat,
    fetchedReqs: nat,
    tickets: map<nat, nat>, // in-flight index -> position in log
    released: set<nat>)     // positions in log whose index was given back

  /** Position of the first descriptor of the t-th request. */
  function StartOf(q: Queue, t: nat): nat {
    if t < |q.log| then q.log[t].start else |q.dlog| + |q.todo|
  }

  function EndOf(e: Entry): nat { e.start + |e.bodies| }

  /** The descriptor of an accepted request at a position, in a ring of the given size. */
  function DescAt(e: Entry, p: nat, size: nat): Desc
    requires e.start <= p < EndOf(e) && size > 0
  {
    Desc(if p == e.start then e.idx else 0, p == e.start, p == EndOf(e) - 1, LapOf(p, size) % 2,
         e.bodies[p - e.start])
  }

  ghost predicate ConfigOk(q: Queue) {
    && RingSize(|q.ring|) && 0 < |q.ring| == q.wq.mask + 1
    && 1 <= q.maxDesc && q.wq.cnt * q.maxDesc <= |q.ring|
  }

  /** The t-th request ends where the next one starts. */
  ghost predicate Adjacent(q: Queue, t: nat)
    requires t < |q.log|
  {
    1 <= |q.log[t].bodies| <= q.maxDesc && EndOf(q.log[t]) == StartOf(q, t + 1)
  }

  /** The descriptor at position p is the one its request asks for. */
  ghost predicate DescRight(q: Queue, p: nat)
    requires p < |q.dlog| == |q.owner| && |q.ring| > 0
  {
    && q.owner[p] < |q.log|
    && var e := q.log[q.owner[p]];
    && e.start <= p < EndOf(e) && q.dlog[p] == DescAt(e, p, |q.ring|)
  }

  ghost predicate LogOk(q: Queue)
    requires |q.ring| > 0
  {
    && StartOf(q, 0) == 0 && |q.owner| == |q.dlog|
    && (forall t {:trigger Adjacent(q, t)} :: 0 <= t < |q.log| ==> Adjacent(q, t))
    && (forall p {:trigger DescRight(q, p)} :: 0 <= p < |q.dlog| ==> DescRight(q, p))
  }

  /** The request being written is the last of the log. */
  ghost predicate TodoOk(q: Queue) {
    q.todo != [] ==>
      && (q.mode == Listing || q.mode == Session)
      && |q.log| > 0
      && var e := q.log[|q.log| - 1];
      && |q.todo| <= |e.bodies| && q.todo == e.bodies[|e.bodies| - |q.todo|..]
      && q.first == (|q.todo| == |e.bodies|) && q.head == (if q.first then e.idx else 0)
  }

  ghost predicate CountOk(q: Queue)
    requires |q.ring| > 0
  {
    && q.wq.pc == Wrap16(|q.dlog|) && q.wq.phase == LapOf(|q.dlog|, |q.ring|)
    && q.wq.posted == Wrap32(|q.log|) && q.wq.completed == Wrap32(|q.released|)
    && |q.log| == |q.released| + |q.tickets.Keys|
  }

  ghost predicate TicketOk(q: Queue) {
    && (forall i :: i in q.tickets ==>
          && q.tickets[i] < |q.log| && q.tickets[i] !in q.released && q.log[q.tickets[i]].idx == i)
    && (forall t :: 0 <= t < |q.log| && t !in q.released ==>
          && q.log[t].idx in q.tickets && q.tickets[q.log[t].idx] == t
          && q.log[t].idx < |q.wq.wrid| && q.wq.wrid[q.log[t].idx] == q.log[t].wrId)
    && (forall t :: t in q.released ==> t < q.fetchedReqs)
  }

  ghost predicate RingOk(q: Queue)
    requires |q.ring| > 0
  {
    && q.fetched <= q.rung <= q.written <= |q.dlog|
    && q.staged == q.dlog[q.written..]
    && (forall p :: q.fetched <= p < q.written ==> q.ring[SlotOf(p, |q.ring|)] == q.dlog[p])
    && q.db == Wrap16(q.rung) && q.devPc == Wrap16(q.fetched)
    && (q.mode == Unlocked || q.mode == Listing ==> q.staged == [])
    && (q.mode == Unlocked || q.mode == Session ==> q.rung == q.written)
  }

  ghost predicate DeviceOk(q: Queue) {
    && q.fetchedReqs <= |q.log|
    && StartOf(q, q.fetchedReqs) <= q.fetched
    && (q.fetchedReqs < |q.log| ==> q.fetched < StartOf(q, q.fetchedReqs + 1))
    && (q.fetchedReqs == |q.log| ==> q.fetched == StartOf(q, q.fetchedReqs))
    && (q.fetchedReqs < |q.log| && StartOf(q, q.fetchedReqs) < q.fetched ==>
          q.partial == q.log[q.fetchedReqs].idx)
    && (forall i :: i in q.outstanding ==> i in q.tickets && q.tickets[i] < q.fetchedReqs)
  }

  ghost predicate SessionOk(q: Queue)
    requires |q.ring| > 0
  {
    q.mode == Session ==>
      && q.pending <= q.wq.next <= |q.wq.pool|
      && q.fetchedReqs + q.pending <= |q.log|
      && |q.staged| + |q.todo| == q.pending
      && q.phaseRb == LapOf(q.written, |q.ring|)
      && (forall t :: |q.log| - q.pending <= t < |q.log| ==>
            && q.log[t].start == |q.dlog| + |q.todo| - (|q.log| - t)
            && q.log[t].idx == q.wq.pool[q.wq.next - (|q.log| - t)])
  }

  ghost predicate QInv(q: Queue) {
    && ConfigOk(q) && PoolInv(q.wq, q.tickets.Keys)
    && LogOk(q) && TodoOk(q) && CountOk(q) && TicketOk(q) && RingOk(q) && DeviceOk(q) && SessionOk(q)
  }

  /** Entries this queue has in its completion queue or in a poller's hands. */
  ghost function LiveCqes(q: Queue): int {
    |q.tickets.Keys| - (|q.log| - q.fetchedReqs) - |q.outstanding|
  }

  // ---- steps -------------------------------------------------------------------------------------

  /** Takes the lock for a list post or for a session. */
  function Lock(q: Queue, mode: Mode): Queue
    requires q.mode == Unlocked && (mode == Listing || mode == Session)
  {
    q.(mode := mode, pending := 0, phaseRb := q.wq.phase)
  }

  ghost predicate CanBegin(q: Queue, r: Request) {
    && (q.mode == Listing || q.mode == Session) && q.todo == []
    && 1 <= |r.bodies| <= q.maxDesc && (q.mode == Session ==> |r.bodies| == 1)
    && !Full(q.wq)
  }

  /** Accepts a request: takes an index for it and starts its first descriptor. */
  ghost function Begin(q: Queue, r: Request): Queue
    requires q.wq.next < |q.wq.pool| && HeadIndex(q.wq) < |q.wq.wrid|
  {
    var idx := HeadIndex(q.wq);
    q.(wq := CountPosted(Reserve(q.wq, r.wrId)), todo := r.bodies, head := idx, first := true,
       pending := if q.mode == Session then q.pending + 1 else q.pending,
       log := q.log + [Entry(r.wrId, r.bodies, idx, |q.dlog|)], tickets := q.tickets[idx := |q.log|])
  }

  function NextDesc(q: Queue): Desc
    requires q.todo != []
  {
    Desc(q.head, q.first, |q.todo| == 1, q.wq.phase % 2, q.todo[0])
  }

  /** Writes the next descriptor: a list post straight into the ring, a session into its local queue. */
  ghost function Emit(q: Queue): Queue
    requires q.todo != [] && q.log != [] && BitAnd(q.wq.pc, q.wq.mask) < |q.ring|
  {
    var d := NextDesc(q);
    var q' := q.(wq := StepPc(q.wq), todo := q.todo[1..], head := 0, first := false,
                 dlog := q.dlog + [d], owner := q.owner + [|q.log| - 1]);
    if q.mode == Session then q'.(staged := q.staged + [d])
    else q'.(ring := q.ring[BitAnd(q.wq.pc, q.wq.mask) := d], written := q.written + 1)
  }

  function Commit(q: Queue): Queue
    requires q.mode == Session && q.todo == []
  {
    q.(mode := Committing)
  }

  function CopySlot(q: Queue): nat { BitAnd(Wrap16(q.wq.pc - |q.staged|), q.wq.mask) }

  /** Copies one staged descriptor; a chunk of the copy loop is several of these. */
  function Copy(q: Queue): Queue
    requires q.mode == Committing && q.staged != [] && CopySlot(q) < |q.ring|
  {
    q.(ring := q.ring[CopySlot(q) := q.staged[0]], staged := q.staged[1..], written := q.written + 1)
  }

  /** Rings the doorbell with the position reached in the ring. */
  function Doorbell(q: Queue): Queue {
    q.(db := Wrap16(q.wq.pc - |q.staged|), rung := q.written)
  }

  function Unlock(q: Queue): Queue { q.(mode := Unlocked) }

  /** Aborts a session, or completes one that saw an error. */
  ghost function Abort(q: Queue): Queue
    requires q.pending <= |q.log| && |q.staged| <= |q.dlog| == |q.owner|
  {
    var keep := |q.log| - q.pending;
    q.(mode := Unlocked, wq := RollBack(q.wq, q.pending, q.phaseRb), staged := [],
       log := q.log[..keep], dlog := q.dlog[..|q.dlog| - |q.staged|], owner := q.owner[..|q.dlog| - |q.staged|],
       tickets := map i | i in q.tickets && q.tickets[i] < keep :: q.tickets[i])
  }

  /** The device reads the descriptor at its fetch position; the last one of a request makes it outstanding. */
  ghost function Fetch(q: Queue): Queue
    requires |q.ring| > 0 && BitAnd(q.devPc, |q.ring| - 1) < |q.ring|
  {
    var d := q.ring[BitAnd(q.devPc, |q.ring| - 1)];
    var id := if d.first then d.reqId else q.partial;
    q.(devPc := Wrap16(q.devPc + 1), partial := id, fetched := q.fetched + 1,
       fetchedReqs := if d.last then q.fetchedReqs + 1 else q.fetchedReqs,
       outstanding := if d.last then q.outstanding + {id} else q.outstanding)
  }

  /** The device completes an outstanding request. */
  function Finish(q: Queue, idx: nat): Queue { q.(outstanding := q.outstanding - {idx}) }

  /** A poller gives an index back, under the queue's lock. */
  ghost function GiveBack(q: Queue, idx: nat): Queue
    requires idx in q.tickets && 0 < q.wq.next <= |q.wq.pool|
  {
    q.(wq := Put(q.wq, idx), tickets := q.tickets - {idx}, released := q.released + {q.tickets[idx]})
  }

  // ---- what the other parts of the system rely on ------------------------------------------------

  /** A step that neither completes nor releases: requests already fetched keep all they had. */
  ghost predicate Quiet(q: Queue, q': Queue) {
    && q'.sub == q.sub && q'.wq.cnt == q.wq.cnt
    && LiveCqes(q') == LiveCqes(q)
    && q.fetchedReqs <= q'.fetchedReqs <= |q'.log| && q.fetchedReqs <= |q.log|
    && (forall t :: 0 <= t < q.fetchedReqs ==> q'.log[t] == q.log[t])
    && q'.released == q.released
    && (forall i :: i in q.tickets && q.tickets[i] < q.fetchedReqs ==>
          && i in q'.tickets && q'.tickets[i] == q.tickets[i]
          && (i in q'.outstanding ==> i in q.outstanding))
  }

  // ---- every step keeps the invariant ------------------------------------------------------------

  lemma KeysGrow(m: map<nat, nat>, k: nat, v: nat)
    requires k !in m
    ensures m[k := v].Keys == m.Keys + {k} && |m[k := v].Keys| == |m.Keys| + 1
  {
    assert m[k := v].Keys == m.Keys + {k};
  }

  lemma Parts(q: Queue)
    requires QInv(q)
    ensures ConfigOk(q) && |q.ring| > 0 && PoolInv(q.wq, q.tickets.Keys)
    ensures LogOk(q) && TodoOk(q) && CountOk(q) && TicketOk(q) && RingOk(q) && DeviceOk(q) && SessionOk(q)
  {
    hide PoolInv, LogOk, TodoOk, CountOk, TicketOk, RingOk, DeviceOk, SessionOk, RingSize;
  }

  lemma DeviceBehind(q: Queue)
    requires QInv(q)
    ensures q.fetchedReqs <= |q.log|
  {
    hide PoolInv, LogOk, TodoOk, CountOk, TicketOk, RingOk, SessionOk;
  }

  /** Only the log, and what is left to write of its last request, matter to LogOk. */
  lemma LogFrame(q: Queue, q': Queue)
    requires |q.ring| > 0 && LogOk(q)
    requires q'.log == q.log && q'.dlog == q.dlog && q'.owner == q.owner && q'.todo == q.todo
    requires |q'.ring| == |q.ring| && q'.maxDesc == q.maxDesc
    ensures LogOk(q')
  {
    hide SlotOf, LapOf;
    forall t | 0 <= t < |q'.log| ensures Adjacent(q', t) { assert Adjacent(q, t); }
    forall p | 0 <= p < |q'.dlog| ensures DescRight(q', p) { assert DescRight(q, p); }
  }

  /** Steps that move descriptors only leave indices and their tickets alone. */
  lemma TicketFrame(q: Queue, q': Queue)
    requires TicketOk(q) && q.fetchedReqs <= |q.log|
    requires q'.log == q.log && q'.tickets == q.tickets && q'.released == q.released
    requires q'.fetchedReqs == q.fetchedReqs && q'.wq.wrid == q.wq.wrid && q'.wq.cnt == q.wq.cnt
    requires q'.outstanding == q.outstanding && q'.sub == q.sub
    ensures TicketOk(q') && Quiet(q, q')
  {
  }

  lemma LockRest(q: Queue, mode: Mode)
    requires QInv(q) && q.mode == Unlocked && (mode == Listing || mode == Session)
    ensures TodoOk(Lock(q, mode)) && RingOk(Lock(q, mode)) && SessionOk(Lock(q, mode))
  {
    DeviceBehind(q);
    hide SlotOf, LapOf, Wrap16, Wrap32, LogOk, TicketOk, DeviceOk, ConfigOk, Counts, FreeList;
  }

  lemma LockKeeps(q: Queue, mode: Mode)
    requires QInv(q) && q.mode == Unlocked && (mode == Listing || mode == Session)
    ensures QInv(Lock(q, mode)) && Quiet(q, Lock(q, mode))
  {
    hide SlotOf, LapOf, Wrap16, Wrap32, RingSize, PoolInv, LogOk, TicketOk, TodoOk, RingOk, SessionOk, Quiet;
    LockRest(q, mode);
    LogFrame(q, Lock(q, mode));
    DeviceBehind(q);
    TicketFrame(q, Lock(q, mode));
  }

  lemma BeginDefined(q: Queue, r: Request)
    requires QInv(q) && CanBegin(q, r)
    ensures q.wq.next < q.wq.cnt == |q.wq.pool| == |q.wq.wrid|
    ensures HeadIndex(q.wq) < q.wq.cnt && HeadIndex(q.wq) !in q.tickets
    ensures PoolInv(Begin(q, r).wq, Begin(q, r).tickets.Keys)
  {
    hide SlotOf, LapOf, Wrap16, Wrap32, LogOk, TodoOk, CountOk, TicketOk, RingOk, DeviceOk, SessionOk;
    ReserveKeeps(q.wq, q.tickets.Keys, r.wrId);
    KeysGrow(q.tickets, HeadIndex(q.wq), |q.log|);
  }

  lemma BeginLog(q: Queue, r: Request)
    requires QInv(q) && CanBegin(q, r)
    requires q.wq.next < |q.wq.pool| && HeadIndex(q.wq) < |q.wq.wrid|
    ensures LogOk(Begin(q, r)) && TodoOk(Begin(q, r))
  {
    hide SlotOf, LapOf, Wrap16, Wrap32, PoolInv, Full, CountOk, TicketOk, RingOk, DeviceOk, SessionOk;
    var q' := Begin(q, r);
    assert StartOf(q, |q.log|) == |q.dlog| by {
      if |q.log| > 0 { assert Adjacent(q, |q.log| - 1); }
    }
    forall t | 0 <= t < |q'.log| ensures Adjacent(q', t) {
      if t < |q.log| { assert Adjacent(q, t); }
    }
    forall p | 0 <= p < |q'.dlog| ensures DescRight(q', p) {
      assert DescRight(q, p);
    }
  }

  lemma BeginTickets(q: Queue, r: Request)
    requires QInv(q) && CanBegin(q, r)
    requires q.wq.next < |q.wq.pool| && HeadIndex(q.wq) < |q.wq.wrid|
    requires HeadIndex(q.wq) !in q.tickets
    ensures TicketOk(Begin(q, r))
  {
    hide SlotOf, LapOf, Wrap16, Wrap32, PoolInv, Full, LogOk, TodoOk, CountOk, RingOk, SessionOk;
    var q' := Begin(q, r);
    forall t | 0 <= t < |q'.log| && t !in q'.released
      ensures q'.log[t].idx in q'.tickets && q'.tickets[q'.log[t].idx] == t
      ensures q'.log[t].idx < |q'.wq.wrid| && q'.wq.wrid[q'.log[t].idx] == q'.log[t].wrId
    {
      if t < |q.log| { assert q.log[t].idx in q.tickets; }
    }
  }

  lemma BeginCount(q: Queue, r: Request)
    requires QInv(q) && CanBegin(q, r)
    requires q.wq.next < |q.wq.pool| && HeadIndex(q.wq) < |q.wq.wrid|
    requires HeadIndex(q.wq) !in q.tickets
    ensures CountOk(Begin(q, r))
  {
    hide SlotOf, LapOf, Wrap16, Wrap32, PoolInv, Full, LogOk, TodoOk, RingOk, SessionOk, TicketOk, DeviceOk;
    Wrap32Add(|q.log|, 1);
    KeysGrow(q.tickets, HeadIndex(q.wq), |q.log|);
  }

  lemma BeginDevice(q: Queue, r: Request)
    requires QInv(q) && CanBegin(q, r)
    requires q.wq.next < |q.wq.pool| && HeadIndex(q.wq) < |q.wq.wrid|
    requires HeadIndex(q.wq) !in q.tickets
    ensures RingOk(Begin(q, r)) && DeviceOk(Begin(q, r))
  {
    hide SlotOf, LapOf, Wrap16, Wrap32, PoolInv, Full, LogOk, TodoOk, CountOk, SessionOk, TicketOk;
  }

  lemma BeginQuiet(q: Queue, r: Request)
    requires QInv(q) && CanBegin(q, r)
    requires q.wq.next < |q.wq.pool| && HeadIndex(q.wq) < |q.wq.wrid|
    requires HeadIndex(q.wq) !in q.tickets
    ensures Quiet(q, Begin(q, r))
  {
    DeviceBehind(q);
    hide SlotOf, LapOf, Wrap16, Wrap32, PoolInv, Full, LogOk, TodoOk, CountOk, SessionOk, RingOk, DeviceOk,
      TicketOk, ConfigOk, Reserve, CountPosted, CanBegin;
    KeysGrow(q.tickets, HeadIndex(q.wq), |q.log|);
  }

  lemma BeginSession(q: Queue, r: Request)
    requires QInv(q) && CanBegin(q, r)
    requires q.wq.next < q.wq.cnt == |q.wq.pool| && HeadIndex(q.wq) < |q.wq.wrid|
    ensures SessionOk(Begin(q, r))
  {
    hide SlotOf, LapOf, Wrap16, Wrap32, Counts, Full, TodoOk, CountOk, RingOk, TicketOk, LogOk, FreeList;
    assert Wrap16(q.wq.next + 1) == q.wq.next + 1;
  }

  lemma BeginKeeps(q: Queue, r: Request)
    requires QInv(q) && CanBegin(q, r)
    ensures q.wq.next < |q.wq.pool| && HeadIndex(q.wq) < |q.wq.wrid|
    ensures QInv(Begin(q, r)) && Quiet(q, Begin(q, r))
  {
    hide PoolInv, LogOk, TodoOk, CountOk, TicketOk, RingOk, DeviceOk, SessionOk, Quiet, CanBegin;
    BeginDefined(q, r);
    BeginLog(q, r);
    BeginTickets(q, r);
    BeginCount(q, r);
    BeginDevice(q, r);
    BeginQuiet(q, r);
    BeginSession(q, r);
  }

  // Emit

  lemma Distribute(n: nat, m: nat)
    ensures (n + 1) * m == n * m + m
  {
  }

  /** Requests start in order. */
  lemma {:induction false} StartsGrow(q: Queue, t: nat, u: nat)
    requires |q.ring| > 0 && LogOk(q) && t <= u <= |q.log|
    ensures StartOf(q, t) + (u - t) <= StartOf(q, u) <= StartOf(q, t) + (u - t) * q.maxDesc
    decreases u - t
  {
    hide SlotOf, LapOf;
    if t < u {
      StartsGrow(q, t + 1, u);
      assert Adjacent(q, t);
      Distribute(u - t - 1, q.maxDesc);
    }
  }

  /** Requests whose descriptors are not all fetched hold an index, and there are at most cnt indices. */
  lemma UnfetchedHoldIndices(q: Queue)
    requires QInv(q)
    ensures |q.log| - q.fetchedReqs <= |q.tickets.Keys| <= q.wq.cnt
  {
    hide SlotOf, LapOf, Wrap16, Wrap32, LogOk, TodoOk, RingOk, SessionOk, Counts;
    assert q.released <= Below(q.fetchedReqs);
    SubsetSize(q.released, Below(q.fetchedReqs));
  }

  /** Flow control keeps everything unfetched, written or about to be, within one lap of the ring. */
  lemma WindowFits(q: Queue)
    requires QInv(q)
    ensures |q.dlog| + |q.todo| <= q.fetched + |q.ring|
  {
    UnfetchedHoldIndices(q);
    hide SlotOf, LapOf, Wrap16, Wrap32, PoolInv, TodoOk, CountOk, TicketOk, SessionOk;
    StartsGrow(q, q.fetchedReqs, |q.log|);
    var n := |q.log| - q.fetchedReqs;
    MulMonotone(n, q.wq.cnt, q.maxDesc);
  }

  lemma EmitSlot(q: Queue)
    requires QInv(q)
    ensures BitAnd(q.wq.pc, q.wq.mask) == SlotOf(|q.dlog|, |q.ring|)
  {
    Slot(|q.dlog|, |q.ring|);
  }

  lemma EmitLog(q: Queue)
    requires QInv(q) && q.todo != [] && q.log != [] && BitAnd(q.wq.pc, q.wq.mask) < |q.ring|
    ensures LogOk(Emit(q)) && TodoOk(Emit(q))
  {
    hide SlotOf, LapOf, Wrap16, Wrap32, PoolInv, TicketOk, DeviceOk, SessionOk;
    var q' := Emit(q);
    var last := |q.log| - 1;
    assert Adjacent(q, last);
    forall t | 0 <= t < |q'.log| ensures Adjacent(q', t) {
      assert Adjacent(q, t);
    }
    forall p | 0 <= p < |q'.dlog| ensures DescRight(q', p) {
      if p < |q.dlog| { assert DescRight(q, p); }
    }
  }

  lemma EmitCount(q: Queue)
    requires QInv(q) && q.todo != [] && q.log != [] && BitAnd(q.wq.pc, q.wq.mask) < |q.ring|
    ensures PoolInv(Emit(q).wq, Emit(q).tickets.Keys) && CountOk(Emit(q))
  {
    hide SlotOf, LapOf, Wrap16, Wrap32, LogOk, TodoOk, TicketOk, RingOk, DeviceOk, SessionOk, FreeList;
    Wrap16Add(|q.dlog|, 1);
    Slot(|q.dlog| + 1, |q.ring|);
    StepLap(|q.dlog|, |q.ring|);
  }

  lemma EmitRing(q: Queue)
    requires QInv(q) && q.todo != [] && q.log != [] && BitAnd(q.wq.pc, q.wq.mask) < |q.ring|
    ensures RingOk(Emit(q))
  {
    hide QInv, SlotOf, LapOf, Wrap16, Wrap32, BitAnd, ConfigOk, PoolInv, LogOk, CountOk, TicketOk, DeviceOk, SessionOk;
    EmitSlot(q);
    WindowFits(q);
    Parts(q);
    var q', d := Emit(q), NextDesc(q);
    assert q'.dlog == q.dlog + [d];
    forall p | q'.fetched <= p < q'.written ensures q'.ring[SlotOf(p, |q'.ring|)] == q'.dlog[p] {
      if p < |q.dlog| { SlotsDiffer(p, |q.dlog|, |q.ring|); }
    }
  }

  lemma EmitRest(q: Queue)
    requires QInv(q) && q.todo != [] && q.log != [] && BitAnd(q.wq.pc, q.wq.mask) < |q.ring|
    ensures DeviceOk(Emit(q)) && SessionOk(Emit(q))
  {
    hide SlotOf, LapOf, Wrap16, Wrap32, PoolInv, LogOk, CountOk, TicketOk, BitAnd, ConfigOk;
  }

  lemma EmitKeeps(q: Queue)
    requires QInv(q) && q.todo != []
    ensures q.log != [] && BitAnd(q.wq.pc, q.wq.mask) < |q.ring|
    ensures QInv(Emit(q)) && Quiet(q, Emit(q))
  {
    hide PoolInv, LogOk, CountOk, TicketOk, RingOk, DeviceOk, SessionOk, Quiet;
    EmitSlot(q);
    EmitLog(q);
    EmitCount(q);
    EmitRing(q);
    EmitRest(q);
    DeviceBehind(q);
    TicketFrame(q, Emit(q));
  }

  // Commit, Copy, Doorbell, Unlock

  lemma CommitKeeps(q: Queue)
    requires QInv(q) && q.mode == Session && q.todo == []
    ensures QInv(Commit(q)) && Quiet(q, Commit(q))
  {
    hide SlotOf, LapOf, Wrap16, Wrap32, PoolInv, LogOk, TicketOk, Quiet, RingSize;
    LogFrame(q, Commit(q));
    DeviceBehind(q);
    TicketFrame(q, Commit(q));
  }

  lemma StagedPosition(q: Queue)
    requires QInv(q)
    ensures Wrap16(q.wq.pc - |q.staged|) == Wrap16(q.written)
    ensures CopySlot(q) == SlotOf(q.written, |q.ring|)
  {
    hide SlotOf, LapOf, Wrap16, Wrap32, PoolInv, LogOk, TicketOk, DeviceOk, SessionOk;
    Wrap16Add(|q.dlog|, 0 - |q.staged|);
    assert |q.dlog| - |q.staged| == q.written;
    Slot(q.written, |q.ring|);
  }

  lemma CopyRing(q: Queue)
    requires QInv(q) && q.mode == Committing && q.staged != []
    requires CopySlot(q) == SlotOf(q.written, |q.ring|)
    ensures RingOk(Copy(q))
  {
    hide SlotOf, LapOf, Wrap16, Wrap32, PoolInv, LogOk, CountOk, TicketOk, DeviceOk, SessionOk, CopySlot, RingSize;
    WindowFits(q);
    var q' := Copy(q);
    forall p | q'.fetched <= p < q'.written ensures q'.ring[SlotOf(p, |q'.ring|)] == q'.dlog[p] {
      if p < q.written { SlotsDiffer(p, q.written, |q.ring|); }
    }
  }

  lemma CopyKeeps(q: Queue)
    requires QInv(q) && q.mode == Committing && q.staged != []
    ensures CopySlot(q) < |q.ring|
    ensures QInv(Copy(q)) && Quiet(q, Copy(q))
  {
    hide SlotOf, LapOf, Wrap16, Wrap32, PoolInv, LogOk, TicketOk, RingOk, Quiet, CopySlot, RingSize;
    StagedPosition(q);
    CopyRing(q);
    LogFrame(q, Copy(q));
    DeviceBehind(q);
    TicketFrame(q, Copy(q));
  }

  lemma DoorbellKeeps(q: Queue)
    requires QInv(q) && (q.mode == Listing || q.mode == Committing) && q.todo == []
    ensures QInv(Doorbell(q)) && Quiet(q, Doorbell(q))
  {
    hide SlotOf, LapOf, Wrap16, Wrap32, PoolInv, LogOk, TicketOk, Quiet, RingSize;
    StagedPosition(q);
    LogFrame(q, Doorbell(q));
    DeviceBehind(q);
    TicketFrame(q, Doorbell(q));
  }

  /** 16-bit counters that are less than 2^16 apart are equal exactly when their positions are. */
  lemma SamePosition(a: nat, b: nat)
    requires a <= b < a + 0x1_0000
    ensures Wrap16(a) == Wrap16(b) <==> a == b
  {
    if Wrap16(a) == Wrap16(b) {
      assert b - a == (b / 0x1_0000 - a / 0x1_0000) * 0x1_0000;
    }
  }

  /** The lock is given up only with an empty local queue and the doorbell at the producer counter. */
  ghost predicate CanUnlock(q: Queue) {
    && (q.mode == Listing || q.mode == Committing)
    && q.todo == [] && q.staged == [] && q.db == q.wq.pc
  }

  lemma UnlockKeeps(q: Queue)
    requires QInv(q) && CanUnlock(q)
    ensures QInv(Unlock(q)) && Quiet(q, Unlock(q))
    ensures q.rung == q.written == |q.dlog|
  {
    WindowFits(q);
    SamePosition(q.rung, |q.dlog|);
    LogFrame(q, Unlock(q));
    DeviceBehind(q);
    TicketFrame(q, Unlock(q));
    hide SlotOf, LapOf, Wrap16, Wrap32, RingSize, PoolInv, LogOk, TicketOk, Quiet;
  }

  // Abort

  lemma AbortLog(q: Queue)
    requires QInv(q) && q.mode == Session && q.todo == []
    requires q.pending <= |q.log| && |q.staged| <= |q.dlog| == |q.owner|
    ensures LogOk(Abort(q)) && RingOk(Abort(q))
  {
    hide SlotOf, LapOf, Wrap16, Wrap32, PoolInv, CountOk, TicketOk, DeviceOk;
    var q' := Abort(q);
    var keep := |q.log| - q.pending;
    assert StartOf(q, keep) == q.written == |q'.dlog|;
    forall t | 0 <= t < |q'.log| ensures Adjacent(q', t) { assert Adjacent(q, t); }
    forall p | 0 <= p < |q'.dlog| ensures DescRight(q', p) {
      assert DescRight(q, p);
    }
  }

  /** The indices a session took are the last entries of the log, in order and distinct. */
  lemma SessionIndices(q: Queue)
    requires QInv(q) && q.mode == Session
    ensures q.pending <= q.wq.next <= |q.wq.pool| && q.pending <= |q.log|
    ensures forall i :: q.wq.next - q.pending <= i < q.wq.next ==>
              && q.wq.pool[i] in q.tickets && q.tickets[q.wq.pool[i]] == |q.log| - (q.wq.next - i)
    ensures forall x :: x in Taken(q.wq.pool, q.wq.next - q.pending, q.wq.next) <==>
              x in q.tickets && q.tickets[x] >= |q.log| - q.pending
  {
    hide SlotOf, LapOf, Wrap16, Wrap32, PoolInv, LogOk, CountOk, RingOk, DeviceOk, ConfigOk;
    var lo, hi, n := q.wq.next - q.pending, q.wq.next, |q.log|;
    forall i | lo <= i < hi
      ensures q.wq.pool[i] in q.tickets && q.tickets[q.wq.pool[i]] == n - (hi - i)
    {
      var t := n - (hi - i);
      assert q.log[t].idx == q.wq.pool[hi - (n - t)];
      assert t !in q.released;
    }
    forall x
      ensures x in Taken(q.wq.pool, lo, hi) <==> x in q.tickets && q.tickets[x] >= n - q.pending
    {
      TakenMember(q.wq.pool, lo, hi, x);
      if x in q.tickets && q.tickets[x] >= n - q.pending {
        var t := q.tickets[x];
        assert q.wq.pool[hi - (n - t)] == x;
      }
    }
  }

  lemma AbortKeys(q: Queue)
    requires QInv(q) && q.mode == Session && q.todo == []
    requires q.pending <= |q.log| && |q.staged| <= |q.dlog| == |q.owner|
    ensures q.pending <= q.wq.next <= |q.wq.pool|
    ensures Abort(q).tickets.Keys == q.tickets.Keys - Taken(q.wq.pool, q.wq.next - q.pending, q.wq.next)
  {
    SessionIndices(q);
    hide QInv;
  }

  lemma PoolHolds(q: Queue)
    requires QInv(q)
    ensures PoolInv(q.wq, q.tickets.Keys)
  {
    hide PoolInv, LogOk, TodoOk, CountOk, TicketOk, RingOk, DeviceOk, SessionOk;
  }

  lemma AbortWq(q: Queue)
    requires q.pending <= |q.log| && |q.staged| <= |q.dlog| == |q.owner|
    ensures Abort(q).wq == RollBack(q.wq, q.pending, q.phaseRb)
  {
    hide RollBack;
  }

  lemma AbortPool(q: Queue)
    requires QInv(q) && q.mode == Session && q.todo == []
    requires q.pending <= |q.log| && |q.staged| <= |q.dlog| == |q.owner|
    ensures PoolInv(Abort(q).wq, Abort(q).tickets.Keys)
  {
    hide QInv, PoolInv, RollBack, Taken, Abort;
    SessionIndices(q);
    AbortKeys(q);
    PoolHolds(q);
    AbortWq(q);
    RollBackKeeps(q.wq, q.tickets.Keys, q.pending, q.phaseRb);
  }

  lemma AbortSize(q: Queue)
    requires QInv(q) && q.mode == Session && q.todo == []
    requires q.pending <= |q.log| && |q.staged| <= |q.dlog| == |q.owner|
    requires PoolInv(Abort(q).wq, Abort(q).tickets.Keys)
    ensures |Abort(q).tickets.Keys| == |q.tickets.Keys| - q.pending
  {
    hide SlotOf, LapOf, Wrap16, Wrap32, Counts, LogOk, TodoOk, CountOk, RingOk, DeviceOk, TicketOk, ConfigOk;
    RollBackCounters(q.wq, q.pending, q.phaseRb);
  }

  lemma AbortCount(q: Queue)
    requires QInv(q) && q.mode == Session && q.todo == []
    requires q.pending <= |q.log| && |q.staged| <= |q.dlog| == |q.owner|
    requires |Abort(q).tickets.Keys| == |q.tickets.Keys| - q.pending
    ensures CountOk(Abort(q))
  {
    hide SlotOf, LapOf, Wrap16, Wrap32, PoolInv, LogOk, TodoOk, DeviceOk, TicketOk, ConfigOk;
    Wrap16Add(|q.dlog|, 0 - q.pending);
    Wrap32Add(|q.log|, 0 - q.pending);
  }

  lemma AbortTickets(q: Queue)
    requires QInv(q) && q.mode == Session && q.todo == []
    requires q.pending <= |q.log| && |q.staged| <= |q.dlog| == |q.owner|
    ensures TicketOk(Abort(q))
  {
    hide SlotOf, LapOf, Wrap16, Wrap32, PoolInv, LogOk, TodoOk, CountOk, RingOk, ConfigOk, SessionOk;
  }

  lemma AbortDevice(q: Queue)
    requires QInv(q) && q.mode == Session && q.todo == []
    requires q.pending <= |q.log| && |q.staged| <= |q.dlog| == |q.owner|
    ensures DeviceOk(Abort(q))
  {
    hide SlotOf, LapOf, Wrap16, Wrap32, PoolInv, LogOk, TodoOk, CountOk, TicketOk, ConfigOk;
    var keep := |q.log| - q.pending;
    assert StartOf(q, keep) == q.written;
    assert StartOf(Abort(q), keep) == q.written;
  }

  lemma AbortQuiet(q: Queue)
    requires QInv(q) && q.mode == Session && q.todo == []
    requires q.pending <= |q.log| && |q.staged| <= |q.dlog| == |q.owner|
    requires |Abort(q).tickets.Keys| == |q.tickets.Keys| - q.pending
    ensures Quiet(q, Abort(q))
  {
    DeviceBehind(q);
    hide SlotOf, LapOf, Wrap16, Wrap32, PoolInv, LogOk, TodoOk, CountOk, RingOk, ConfigOk, TicketOk, DeviceOk;
  }

  /** Aborting at any wraparound point keeps the invariant: exactly the session's indices are free again. */
  lemma AbortKeeps(q: Queue)
    requires QInv(q) && q.mode == Session && q.todo == []
    ensures q.pending <= |q.log| && |q.staged| <= |q.dlog| == |q.owner|
    ensures QInv(Abort(q)) && Quiet(q, Abort(q))
  {
    SessionIndices(q);
    assert |q.staged| <= |q.dlog| == |q.owner|;
    AbortLog(q);
    AbortPool(q);
    AbortSize(q);
    AbortCount(q);
    AbortTickets(q);
    AbortDevice(q);
    AbortQuiet(q);
    hide SlotOf, LapOf, Wrap16, Wrap32, PoolInv, LogOk, TicketOk, CountOk, RingOk, DeviceOk, SessionOk, Quiet;
  }

  // Fetch, Finish, GiveBack

  /** What the device reads: the next descriptor of the oldest request it has not completely fetched. */
  lemma FetchReads(q: Queue)
    requires QInv(q) && q.devPc != q.db
    ensures q.fetched < q.rung && q.fetchedReqs < |q.log|
    ensures BitAnd(q.devPc, |q.ring| - 1) == SlotOf(q.fetched, |q.ring|)
    ensures q.log[q.fetchedReqs].start <= q.fetched < EndOf(q.log[q.fetchedReqs])
    ensures q.ring[SlotOf(q.fetched, |q.ring|)] == DescAt(q.log[q.fetchedReqs], q.fetched, |q.ring|)
  {
    hide QInv, SlotOf, LapOf, Wrap16, PoolInv, TodoOk, CountOk, TicketOk, SessionOk;
    Parts(q);
    Slot(q.fetched, |q.ring|);
    var f := q.fetchedReqs;
    assert f < |q.log|;
    assert Adjacent(q, f) && DescRight(q, q.fetched);
    var o := q.owner[q.fetched];
    assert Adjacent(q, o);
    if o < f {
      StartsGrow(q, o + 1, f);
    } else if f < o {
      StartsGrow(q, f + 1, o);
    }
  }

  /** The request id the device sees is the index the request was given, also in its later descriptors. */
  lemma FetchedId(q: Queue)
    requires QInv(q) && q.devPc != q.db
    ensures BitAnd(q.devPc, |q.ring| - 1) < |q.ring| && q.fetchedReqs < |q.log|
    ensures var e := q.log[q.fetchedReqs];
            && Fetch(q).partial == e.idx && e.idx in q.tickets && q.tickets[e.idx] == q.fetchedReqs
            && e.idx !in q.outstanding
            && (Fetch(q).fetchedReqs == q.fetchedReqs + 1 <==> q.fetched + 1 == EndOf(e))
  {
    hide QInv, SlotOf, LapOf, Wrap16, BitAnd, ConfigOk, PoolInv, LogOk, TodoOk, CountOk, RingOk, SessionOk;
    Parts(q);
    FetchReads(q);
    assert q.fetchedReqs !in q.released;
  }

  lemma FetchDevice(q: Queue)
    requires QInv(q) && q.devPc != q.db && BitAnd(q.devPc, |q.ring| - 1) < |q.ring|
    ensures DeviceOk(Fetch(q)) && RingOk(Fetch(q))
  {
    hide QInv, SlotOf, LapOf, Wrap16, BitAnd, ConfigOk, PoolInv, TodoOk, CountOk, TicketOk, SessionOk;
    Parts(q);
    FetchReads(q);
    FetchedId(q);
    Wrap16Add(q.fetched, 1);
    var f := q.fetchedReqs;
    assert Adjacent(q, f);
    if f + 1 < |q.log| { assert Adjacent(q, f + 1); }
    assert StartOf(q, f + 1) == EndOf(q.log[f]);
  }

  lemma FetchQuiet(q: Queue)
    requires QInv(q) && q.devPc != q.db && BitAnd(q.devPc, |q.ring| - 1) < |q.ring|
    ensures TicketOk(Fetch(q)) && Quiet(q, Fetch(q))
  {
    hide QInv, SlotOf, LapOf, Wrap16, BitAnd, ConfigOk, PoolInv, LogOk, TodoOk, CountOk, RingOk, SessionOk;
    Parts(q);
    FetchedId(q);
    assert |q.outstanding + {q.log[q.fetchedReqs].idx}| == |q.outstanding| + 1;
  }

  lemma FetchSession(q: Queue)
    requires QInv(q) && q.devPc != q.db && BitAnd(q.devPc, |q.ring| - 1) < |q.ring|
    ensures SessionOk(Fetch(q))
  {
    hide QInv, SlotOf, LapOf, Wrap16, BitAnd, ConfigOk, PoolInv, TodoOk, CountOk, TicketOk, DeviceOk;
    Parts(q);
    FetchReads(q);
    var f, keep := q.fetchedReqs, |q.log| - q.pending;
    assert q.mode == Session ==> StartOf(q, keep) == q.written;
  }

  lemma FetchKeeps(q: Queue)
    requires QInv(q) && q.devPc != q.db
    ensures BitAnd(q.devPc, |q.ring| - 1) < |q.ring|
    ensures QInv(Fetch(q)) && Quiet(q, Fetch(q))
  {
    hide SlotOf, LapOf, Wrap16, Wrap32, RingSize, PoolInv, LogOk, TicketOk, RingOk, DeviceOk, SessionOk, Quiet,
      BitAnd, DescAt;
    FetchReads(q);
    FetchDevice(q);
    FetchQuiet(q);
    FetchSession(q);
    LogFrame(q, Fetch(q));
  }

  lemma FinishRest(q: Queue, idx: nat)
    requires QInv(q) && idx in q.outstanding
    ensures TicketOk(Finish(q, idx)) && DeviceOk(Finish(q, idx))
    ensures idx in q.tickets && q.tickets[idx] < q.fetchedReqs
    ensures LiveCqes(Finish(q, idx)) == LiveCqes(q) + 1
  {
    hide QInv, ConfigOk, PoolInv, LogOk, TodoOk, CountOk, RingOk, SessionOk;
    Parts(q);
    assert q.outstanding == (q.outstanding - {idx}) + {idx};
  }

  lemma FinishRing(q: Queue, idx: nat)
    requires QInv(q) && idx in q.outstanding
    ensures RingOk(Finish(q, idx)) && SessionOk(Finish(q, idx)) && TodoOk(Finish(q, idx))
  {
    assert RingOk(q) && SessionOk(q) && TodoOk(q);
    hide QInv, SlotOf, LapOf, Wrap16;
  }

  lemma FinishKeeps(q: Queue, idx: nat)
    requires QInv(q) && idx in q.outstanding
    ensures QInv(Finish(q, idx)) && LiveCqes(Finish(q, idx)) == LiveCqes(q) + 1
    ensures idx in q.tickets && q.tickets[idx] < q.fetchedReqs
  {
    LogFrame(q, Finish(q, idx));
    FinishRest(q, idx);
    FinishRing(q, idx);
    hide SlotOf, LapOf, Wrap16, Wrap32, RingSize, PoolInv, LogOk, TicketOk, DeviceOk, RingOk, SessionOk, TodoOk,
      LiveCqes;
  }

  lemma GiveBackPool(q: Queue, idx: nat)
    requires QInv(q) && idx in q.tickets
    ensures 0 < q.wq.next <= |q.wq.pool|
    ensures PoolInv(GiveBack(q, idx).wq, GiveBack(q, idx).tickets.Keys)
  {
    hide QInv, Counts, Wrap16, Wrap32, ConfigOk, LogOk, TodoOk, CountOk, TicketOk, RingOk, DeviceOk, SessionOk;
    Parts(q);
    PutKeeps(q.wq, q.tickets.Keys, idx);
    assert GiveBack(q, idx).tickets.Keys == q.tickets.Keys - {idx};
  }

  lemma KeysShrink(m: map<nat, nat>, k: nat)
    requires k in m
    ensures (m - {k}).Keys == m.Keys - {k} && |(m - {k}).Keys| == |m.Keys| - 1
  {
    assert m.Keys == (m.Keys - {k}) + {k};
  }

  lemma GiveBackCount(q: Queue, idx: nat)
    requires QInv(q) && idx in q.tickets && 0 < q.wq.next <= |q.wq.pool|
    ensures CountOk(GiveBack(q, idx)) && LiveCqes(GiveBack(q, idx)) == LiveCqes(q) - 1
  {
    hide QInv, LapOf, Wrap16, Wrap32, ConfigOk, PoolInv, LogOk, TodoOk, RingOk, DeviceOk, SessionOk;
    Parts(q);
    Wrap32Add(|q.released|, 1);
    KeysShrink(q.tickets, idx);
    var n := q.tickets[idx];
    assert n !in q.released;
    assert |q.released + {n}| == |q.released| + 1;
  }

  lemma GiveBackTickets(q: Queue, idx: nat)
    requires QInv(q) && idx in q.tickets && 0 < q.wq.next <= |q.wq.pool|
    requires q.tickets[idx] < q.fetchedReqs
    ensures TicketOk(GiveBack(q, idx))
  {
    assert TicketOk(q);
    hide QInv, Wrap16, Wrap32;
    var q', n := GiveBack(q, idx), q.tickets[idx];
    assert q'.wq.wrid == q.wq.wrid;
    forall t | 0 <= t < |q'.log| && t !in q'.released
      ensures q'.log[t].idx in q'.tickets && q'.tickets[q'.log[t].idx] == t
    {
      assert t !in q.released && t != n;
    }
  }

  lemma GiveBackDevice(q: Queue, idx: nat)
    requires QInv(q) && idx in q.tickets && 0 < q.wq.next <= |q.wq.pool|
    requires idx !in q.outstanding
    ensures DeviceOk(GiveBack(q, idx))
  {
    assert DeviceOk(q);
    hide QInv, Wrap16, Wrap32;
  }

  /** Releasing a completed request, in any order, while nobody holds the lock. */
  lemma GiveBackKeeps(q: Queue, idx: nat)
    requires QInv(q) && q.mode == Unlocked && idx in q.tickets
    requires q.tickets[idx] < q.fetchedReqs && idx !in q.outstanding
    ensures 0 < q.wq.next <= |q.wq.pool|
    ensures QInv(GiveBack(q, idx)) && LiveCqes(GiveBack(q, idx)) == LiveCqes(q) - 1
  {
    GiveBackPool(q, idx);
    GiveBackCount(q, idx);
    GiveBackTickets(q, idx);
    GiveBackDevice(q, idx);
    LogFrame(q, GiveBack(q, idx));
    hide SlotOf, LapOf, Wrap16, Wrap32, RingSize, PoolInv, LogOk, CountOk, TicketOk, DeviceOk;
  }
}
