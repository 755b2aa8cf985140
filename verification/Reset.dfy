/**
 Moving a queue pair to RESET clears four counters of each queue and nothing else: the pool of indices,
 the work-request ids and the phase stay as they are.
 */
module Reset {
  import opened Words
  import opened WridPool
  import opened CompletionRing
  import opened QueueMachine
  import F = Fabric
  import Overrun

  lemma {:induction false} AsManyAsDistinct(s: seq<nat>)
    ensures |Elems(s)| <= |s|
    ensures |Elems(s)| == |s| ==> NoDuplicates(s)
  {
    if s == [] {
      assert Elems(s) == {};
    } else {
      var t, x := s[..|s| - 1], s[|s| - 1];
      AsManyAsDistinct(t);
      assert s == t + [x];
      assert Elems(s) == Elems(t) + {x};
      if x in Elems(t) { assert Elems(s) == Elems(t); }
    }
  }

  lemma Halves(s: seq<nat>, n: nat)
    requires n <= |s|
    ensures Elems(s) == Elems(s[..n]) + Elems(s[n..])
    ensures NoDuplicates(s) ==> Elems(s[..n]) !! Elems(s[n..])
  {
    assert s == s[..n] + s[n..];
    forall x, y | x in Elems(s[..n]) && y in Elems(s[n..]) && NoDuplicates(s) ensures x != y {
      var i :| 0 <= i < n && s[..n][i] == x;
      var j :| 0 <= j < |s| - n && s[n..][j] == y;
      assert s[i] == x && s[n + j] == y;
    }
  }

  lemma DistinctThen(w: Wq, inflight: set<nat>)
    requires PoolInv(w, inflight) && NoDuplicates(w.pool)
    ensures Elems(w.pool[..w.next]) == inflight
  {
    hide Counts, FreeList, NoDuplicates;
    PoolPartition(w, inflight);
    Halves(w.pool, w.next);
    ElemsSize(w.pool);
    assert Elems(w.pool) <= Below(w.cnt);
    SubsetSize(Elems(w.pool), Below(w.cnt));
    FlightBelow(w, inflight);
  }

  lemma FlightBelow(w: Wq, inflight: set<nat>)
    requires PoolInv(w, inflight)
    ensures |inflight| == w.next && forall i :: w.next <= i < |w.pool| ==> w.pool[i] !in inflight
    ensures forall i, j :: w.next <= i < j < |w.pool| ==> w.pool[i] != w.pool[j]
  {
    hide Counts;
  }

  /** The pool lists no index twice exactly when the entries below the pool position are the in-flight ones. */
  lemma StalePrefix(w: Wq, inflight: set<nat>)
    requires PoolInv(w, inflight)
    ensures NoDuplicates(w.pool) <==> Elems(w.pool[..w.next]) == inflight
  {
    hide Shape, FreeList;
    FlightBelow(w, inflight);
    PoolSize(w, inflight);
    var low := w.pool[..w.next];
    if NoDuplicates(w.pool) { DistinctThen(w, inflight); }
    if Elems(low) == inflight {
      AsManyAsDistinct(low);
      forall i, j | 0 <= i < j < |w.pool| ensures w.pool[i] != w.pool[j] {
        if j < w.next { assert low[i] != low[j]; } else if i < w.next { assert low[i] in inflight; }
      }
    }
  }

  lemma PoolSize(w: Wq, inflight: set<nat>)
    requires PoolInv(w, inflight)
    ensures w.next <= |w.pool|
  {
  }

  /**
   Clearing the counters gives back a sound pool, all of it free, exactly when the pool entries below the
   pool position are the indices in flight. A drained queue always meets that.
   */
  lemma ResetPool(w: Wq, inflight: set<nat>)
    requires PoolInv(w, inflight)
    ensures PoolInv(InitIndices(w), {}) <==> Elems(w.pool[..w.next]) == inflight
    ensures inflight == {} ==> PoolInv(InitIndices(w), {})
  {
    StalePrefix(w, inflight);
    assert Wrap32(0) == 0;
    if inflight == {} { assert Elems(w.pool[..0]) == {}; }
  }

  // ---- one queue ---------------------------------------------------------------------------------

  /**
   A queue after RESET, with a device that starts over: nothing fetched or outstanding, both counters at
   0. Only the lowest bit of the phase is ever used, and that of a receive queue is not: its descriptors
   carry none.
   */
  ghost function Restarted(q: Queue, send: bool): Queue {
    q.(wq := InitIndices(q.wq).(phase := if send then q.wq.phase % 2 else 0), db := 0, devPc := 0, outstanding := {},
       log := [], dlog := [], owner := [], written := 0, rung := 0, fetched := 0, fetchedReqs := 0,
       tickets := map[], released := {})
  }

  /** The stale part of the pool lists the in-flight indices, and a send queue has gone an even number of laps. */
  ghost predicate CleanForReset(q: Queue, send: bool)
    requires 0 < |q.ring| && q.wq.next <= |q.wq.pool|
  {
    Elems(q.wq.pool[..q.wq.next]) == q.tickets.Keys && (send ==> LapOf(|q.dlog|, |q.ring|) % 2 == 0)
  }

  lemma ResetQueueInv(q: Queue, send: bool)
    requires QInv(q) && q.mode == Unlocked
    ensures 0 < |q.ring| && q.wq.next <= |q.wq.pool|
    ensures QInv(Restarted(q, send)) <==> CleanForReset(q, send)
    ensures LiveCqes(Restarted(q, send)) == 0
  {
    hide SlotOf, LapOf, FreeList, Wrap16, Elems, RingSize;
    ResetPool(q.wq, q.tickets.Keys);
    FirstLap(0, |q.ring|);
    var r := Restarted(q, send);
    assert r.tickets.Keys == {};
    PhaseApart(InitIndices(q.wq), r.wq.phase);
    RestPlain(q, send);
  }

  lemma PhaseApart(w: Wq, phase: nat)
    ensures PoolInv(w.(phase := phase), {}) <==> PoolInv(w, {})
  {
  }

  /** What does not depend on the pool or the phase holds in any case. */
  lemma RestPlain(q: Queue, send: bool)
    requires QInv(q) && q.mode == Unlocked
    ensures var r := Restarted(q, send);
            ConfigOk(r) && LogOk(r) && TodoOk(r) && TicketOk(r) && RingOk(r) && DeviceOk(r) && SessionOk(r)
  {
    hide SlotOf, LapOf, PoolInv, RingSize, TicketOk, DeviceOk, CountOk;
    RestTickets(q, send);
  }

  lemma RestTickets(q: Queue, send: bool)
    requires QInv(q) && q.mode == Unlocked
    ensures TodoOk(Restarted(q, send)) && TicketOk(Restarted(q, send)) && DeviceOk(Restarted(q, send))
  {
    hide SlotOf, LapOf, PoolInv, RingSize;
  }

  // ---- completions not yet given back ------------------------------------------------------------

  /** The indices of requests that were completed and not given back. */
  ghost function Unreleased(q: Queue): set<nat> {
    set i | i in q.tickets && q.tickets[i] < q.fetchedReqs && i !in q.outstanding
  }

  /** The indices of requests from the t-th on. */
  ghost function From(q: Queue, t: nat): set<nat> { set i | i in q.tickets && q.tickets[i] >= t }

  lemma {:induction false} FromSize(q: Queue, t: nat)
    requires TicketOk(q) && t <= |q.log| && (forall u :: u in q.released ==> u < t)
    ensures |From(q, t)| == |q.log| - t
    decreases |q.log| - t
  {
    hide TicketOk;
    if t == |q.log| {
      forall i | i in q.tickets ensures q.tickets[i] < t { TicketBack(q, i); }
      assert From(q, t) == {};
    } else {
      FromSize(q, t + 1);
      TicketAt(q, t);
      var i := q.log[t].idx;
      forall k | k in q.tickets && q.tickets[k] == t ensures k == i { TicketBack(q, k); }
      assert From(q, t) == From(q, t + 1) + {i} && i !in From(q, t + 1);
    }
  }

  lemma TicketBack(q: Queue, i: nat)
    requires TicketOk(q) && i in q.tickets
    ensures q.tickets[i] < |q.log| && q.log[q.tickets[i]].idx == i
  {
  }

  lemma TicketAt(q: Queue, t: nat)
    requires TicketOk(q) && t < |q.log| && t !in q.released
    ensures q.log[t].idx in q.tickets && q.tickets[q.log[t].idx] == t
  {
  }

  /** LiveCqes counts them. */
  lemma UnreleasedCount(q: Queue)
    requires QInv(q)
    ensures |Unreleased(q)| == LiveCqes(q)
  {
    hide QInv, PoolInv, LogOk, TodoOk, CountOk, RingOk, SessionOk, ConfigOk;
    Parts(q);
    FromSize(q, q.fetchedReqs);
    var a, b, c := Unreleased(q), From(q, q.fetchedReqs), q.outstanding;
    assert q.tickets.Keys == a + b + c && a !! b && (a + b) !! c;
    assert |a + b + c| == |a| + |b| + |c|;
  }

  // ---- the whole system --------------------------------------------------------------------------

  /** Reports of requests of other queues; those of the reset queue belong to its past. */
  ghost function Kept(reports: seq<F.Report>, i: nat): seq<F.Report> {
    if reports == [] then []
    else
      var r := reports[|reports| - 1];
      Kept(reports[..|reports| - 1], i) + (if r.queue == i then [] else [r])
  }

  ghost predicate AllDifferent(reports: seq<F.Report>) {
    forall a, b :: 0 <= a < b < |reports| ==>
      reports[a].queue != reports[b].queue || reports[a].ticket != reports[b].ticket
  }

  lemma {:induction false} KeptMeans(reports: seq<F.Report>, i: nat)
    ensures forall r :: r in Kept(reports, i) <==> r in reports && r.queue != i
    ensures AllDifferent(reports) ==> AllDifferent(Kept(reports, i))
  {
    if reports != [] {
      var n := |reports| - 1;
      var init, r := reports[..n], reports[n];
      KeptMeans(init, i);
      assert reports == init + [r];
      if AllDifferent(reports) {
        assert AllDifferent(init);
        var k := Kept(init, i);
        forall a | 0 <= a < |k| ensures k[a].queue != r.queue || k[a].ticket != r.ticket {
          assert k[a] in init;
          var b :| 0 <= b < n && init[b] == k[a];
          assert reports[b] == k[a];
        }
      }
    }
  }

  /** Queue i of the system after RESET. Completion queues and pollers stay as they are. */
  ghost function ResetQueue(s: F.System, i: nat): F.System
    requires i < |s.qs|
  {
    s.(qs := s.qs[i := Restarted(s.qs[i], i % 2 == 0)], reports := Kept(s.reports, i))
  }

  /** If nothing of the queue is unreleased, no entry that is still to be given back names it. */
  lemma NoEntryNames(s: F.System, i: nat, j: nat, n: nat)
    requires F.Inv(s) && i < |s.qs| && LiveCqes(s.qs[i]) == 0 && j < |s.subs| && F.Returned(s, j) <= n
    requires n < |s.subs[j].prod| == |s.subs[j].whose|
    ensures F.Live(s, j, n) && F.QueueOf(s.subs[j].prod[n]) != i
  {
    hide F.QueueOf, QInv, F.LiveOk, F.SubOk;
    LiveAt(s, j, n);
    F.QueueHolds(s, i);
    UnreleasedCount(s.qs[i]);
    assert Unreleased(s.qs[i]) == {};
    assert s.subs[j].prod[n].reqId !in Unreleased(s.qs[i]);
  }

  lemma LiveAt(s: F.System, j: nat, n: nat)
    requires F.Inv(s) && j < |s.subs| && F.Returned(s, j) <= n < |s.subs[j].prod|
    ensures n < |s.subs[j].whose| == |s.subs[j].prod| && F.Live(s, j, n) && F.SubOk(s.subs[j])
  {
    hide QInv, History, InStep, F.Live, F.Returned;
    assert F.SubOk(s.subs[j]) && F.LiveOk(s, j);
  }

  lemma ResetFlow(s: F.System, i: nat)
    requires F.Inv(s) && i < |s.qs| && s.qs[i].mode == Unlocked
    ensures var s' := ResetQueue(s, i);
            F.Linked(s') && F.SubsOk(s') && F.CursorsOk(s') && (F.FlowOk(s') <==> LiveCqes(s.qs[i]) == 0)
  {
    hide QInv, LiveCqes, Restarted, Kept, F.LiveOk, F.SubOk;
    var s', q' := ResetQueue(s, i), Restarted(s.qs[i], i % 2 == 0);
    F.QueueHolds(s, i);
    ResetQueueInv(s.qs[i], i % 2 == 0);
    RestartedFields(s.qs[i], i % 2 == 0);
    forall k | 0 <= k < |s'.subs| ensures F.SubOk(s'.subs[k]) { assert F.SubOk(s.subs[k]); }
    forall c | 0 <= c < |s'.cqs| ensures F.CursorOk(s', c) { assert F.CursorOk(s, c); }
    forall k | 0 <= k < |s'.subs|
      ensures F.Flow(s', k) <==> (s.qs[i].sub != k || LiveCqes(s.qs[i]) == 0)
    {
      assert F.Flow(s, k);
      F.SumUpdate(s.qs, k, F.Capacity, i, q');
      F.SumUpdate(s.qs, k, LiveCqes, i, q');
    }
    if F.FlowOk(s') { assert F.Flow(s', s.qs[i].sub); }
  }

  lemma RestartedFields(q: Queue, send: bool)
    ensures var r := Restarted(q, send);
            r.sub == q.sub && r.wq.cnt == q.wq.cnt && r.released == {} && r.mode == q.mode
  {
  }

  lemma ResetLive(s: F.System, i: nat)
    requires F.Inv(s) && i < |s.qs| && s.qs[i].mode == Unlocked && LiveCqes(s.qs[i]) == 0
    requires F.Linked(ResetQueue(s, i)) && F.SubsOk(ResetQueue(s, i))
    ensures F.AllLive(ResetQueue(s, i))
  {
    hide QInv, LiveCqes, Restarted, Kept, F.QueueOf, F.SubOk, F.Live;
    var s' := ResetQueue(s, i);
    forall j | 0 <= j < |s'.subs| ensures F.SubOk(s'.subs[j]) && F.LiveOk(s', j) {
      assert F.SubOk(s'.subs[j]) && F.SubOk(s.subs[j]) && F.LiveOk(s, j);
      SubSizes(s.subs[j]);
      assert F.Returned(s', j) == F.Returned(s, j);
      forall n | 0 <= n && F.Returned(s', j) <= n < |s'.subs[j].prod| ensures F.Live(s', j, n) {
        NoEntryNames(s, i, j, n);
        LiveElsewhere(s, i, j, n);
      }
    }
  }

  lemma SubSizes(u: F.Sub)
    requires F.SubOk(u)
    ensures |u.prod| == |u.whose|
  {
  }

  lemma LiveElsewhere(s: F.System, i: nat, j: nat, n: nat)
    requires i < |s.qs| && j < |s.subs| && n < |s.subs[j].prod| == |s.subs[j].whose|
    requires F.Live(s, j, n) && F.QueueOf(s.subs[j].prod[n]) != i
    ensures F.Live(ResetQueue(s, i), j, n)
  {
    hide F.QueueOf, Restarted, Kept;
  }

  lemma HeldElsewhere(s: F.System, i: nat, k: nat, t: nat)
    requires F.Inv(s) && i < |s.qs| && k < |s.qs| && LiveCqes(s.qs[i]) == 0
    ensures F.HeldReported(ResetQueue(s, i), k, t) <==> F.HeldReported(s, k, t)
    ensures F.HeldReported(s, k, t) ==> k != i
  {
    hide QInv, LiveCqes, Kept, F.QueueOf, F.SubsOk, F.FlowOk, F.AllLive, F.CursorsOk, F.ReportsOk, F.QueuesOk;
    if F.HeldReported(s, k, t) {
      var j := s.qs[k].sub;
      NoEntryNames(s, i, j, s.subs[j].consumed - 1);
    }
  }

  lemma ResetReports(s: F.System, i: nat)
    requires F.Inv(s) && i < |s.qs| && s.qs[i].mode == Unlocked && LiveCqes(s.qs[i]) == 0
    ensures F.ReportsOk(ResetQueue(s, i))
  {
    hide QInv, LiveCqes, Restarted, Kept, F.HeldReported, F.Linked, F.QueuesOk, F.SubsOk, F.FlowOk, F.AllLive,
      F.CursorsOk;
    var s' := ResetQueue(s, i);
    RestartedFields(s.qs[i], i % 2 == 0);
    KeptMeans(s.reports, i);
    forall k: nat, t: nat | k < |s.qs|
      ensures F.HeldReported(s', k, t) <==> F.HeldReported(s, k, t)
      ensures F.HeldReported(s, k, t) ==> k != i
    {
      HeldElsewhere(s, i, k, t);
    }
    forall a | 0 <= a < |s'.reports| ensures F.ReportOk(s', s'.reports[a]) {
      var r := s'.reports[a];
      assert r in s.reports && r.queue != i;
      var b :| 0 <= b < |s.reports| && s.reports[b] == r;
      assert F.ReportOk(s, s.reports[b]);
    }
    forall k, t | 0 <= k < |s'.qs| && 0 <= t && (t in s'.qs[k].released || F.HeldReported(s', k, t))
      ensures F.Told(s', k, t)
    {
      assert F.Told(s, k, t);
      var a :| 0 <= a < |s.reports| && s.reports[a].queue == k && s.reports[a].ticket == t;
      assert s.reports[a] in s'.reports;
    }
  }

  lemma ResetQueues(s: F.System, i: nat)
    requires F.Inv(s) && i < |s.qs| && s.qs[i].mode == Unlocked
    ensures F.QueuesOk(ResetQueue(s, i)) <==> QInv(Restarted(s.qs[i], i % 2 == 0))
  {
    hide QInv, Kept, Restarted;
    var s' := ResetQueue(s, i);
    forall k | 0 <= k < |s'.qs| && k != i ensures QInv(s'.qs[k]) { F.QueueHolds(s, k); }
    if F.QueuesOk(s') { assert QInv(s'.qs[i]); }
  }

  /**
   When RESET leaves a sound system: if and only if no completion of the queue is still to be given back,
   the stale part of the index pool lists the indices in flight, and a send queue has gone an even number
   of laps. A drained queue meets the first two.
   */
  lemma ResetRestores(s: F.System, i: nat)
    requires F.Inv(s) && i < |s.qs| && s.qs[i].mode == Unlocked
    ensures var q := s.qs[i];
            && 0 < |q.ring| && q.wq.next <= |q.wq.pool|
            && (F.Inv(ResetQueue(s, i)) <==> LiveCqes(q) == 0 && CleanForReset(q, i % 2 == 0))
            && (q.tickets == map[] ==> LiveCqes(q) == 0 && Elems(q.wq.pool[..q.wq.next]) == q.tickets.Keys)
  {
    hide QInv, LiveCqes, CleanForReset, Restarted, ResetQueue, F.Linked, F.QueuesOk, F.SubsOk, F.FlowOk, F.AllLive,
      F.CursorsOk, F.ReportsOk, Elems;
    var q := s.qs[i];
    F.QueueHolds(s, i);
    ResetQueueInv(q, i % 2 == 0);
    ResetQueues(s, i);
    ResetFlow(s, i);
    if LiveCqes(q) == 0 {
      ResetLive(s, i);
      ResetReports(s, i);
    }
    if q.tickets == map[] { Drained(q); }
  }

  /** Nothing of the queue is still to be given back, and its pool and lap are as RESET needs them. */
  ghost predicate ReadyForReset(s: F.System, i: nat)
    requires i < |s.qs| && 0 < |s.qs[i].ring| && s.qs[i].wq.next <= |s.qs[i].wq.pool|
  {
    LiveCqes(s.qs[i]) == 0 && CleanForReset(s.qs[i], i % 2 == 0)
  }

  /** Both queues of queue pair k, as efa_qp_init_indices resets them. */
  ghost function ResetPair(s: F.System, k: nat): F.System
    requires 2 * k + 1 < |s.qs|
  {
    ResetQueue(ResetQueue(s, 2 * k), 2 * k + 1)
  }

  lemma PoolBounds(s: F.System, i: nat)
    requires F.Inv(s) && i < |s.qs|
    ensures 0 < |s.qs[i].ring| && s.qs[i].wq.next <= |s.qs[i].wq.pool| && 0 <= LiveCqes(s.qs[i])
  {
    hide QInv, F.Inv, LogOk, TodoOk, CountOk, TicketOk, RingOk, DeviceOk, SessionOk, RingSize, Counts, FreeList;
    F.QueueHolds(s, i);
    Parts(s.qs[i]);
    UnreleasedCount(s.qs[i]);
  }

  /** The completions of both queues that one sub queue still holds cannot cancel out. */
  lemma PairFlow(s: F.System, k: nat, j: nat)
    requires F.Inv(s) && 2 * k + 1 < |s.qs| && s.qs[2 * k].mode == Unlocked && s.qs[2 * k + 1].mode == Unlocked
    requires F.Inv(ResetPair(s, k)) && j < |s.subs|
    ensures s.qs[2 * k].sub == j ==> LiveCqes(s.qs[2 * k]) == 0
    ensures s.qs[2 * k + 1].sub == j ==> LiveCqes(s.qs[2 * k + 1]) == 0
  {
    hide QInv, LiveCqes, Restarted, Kept, F.SubsOk, F.QueuesOk, F.AllLive, F.CursorsOk, F.ReportsOk;
    var a, b := 2 * k, 2 * k + 1;
    var s1, s2 := ResetQueue(s, a), ResetPair(s, k);
    PoolBounds(s, a);
    PoolBounds(s, b);
    F.QueueHolds(s, a);
    F.QueueHolds(s, b);
    ResetQueueInv(s.qs[a], a % 2 == 0);
    ResetQueueInv(s.qs[b], b % 2 == 0);
    RestartedFields(s.qs[a], a % 2 == 0);
    RestartedFields(s.qs[b], b % 2 == 0);
    assert F.Flow(s, j) && F.Flow(s2, j);
    F.SumUpdate(s.qs, j, LiveCqes, a, s1.qs[a]);
    F.SumUpdate(s1.qs, j, LiveCqes, b, s2.qs[b]);
  }

  lemma SubExists(s: F.System, i: nat)
    requires F.Inv(s) && i < |s.qs|
    ensures s.qs[i].sub < |s.subs|
  {
    hide QInv, F.SubsOk, F.QueuesOk, F.FlowOk, F.AllLive, F.CursorsOk, F.ReportsOk;
  }

  /** RESET of a queue pair leaves a sound system if and only if both its queues are ready for it. */
  lemma PairResetRestores(s: F.System, k: nat)
    requires F.Inv(s) && 2 * k + 1 < |s.qs| && s.qs[2 * k].mode == Unlocked && s.qs[2 * k + 1].mode == Unlocked
    ensures forall i :: 0 <= i < |s.qs| ==> 0 < |s.qs[i].ring| && s.qs[i].wq.next <= |s.qs[i].wq.pool|
    ensures F.Inv(ResetPair(s, k)) <==> ReadyForReset(s, 2 * k) && ReadyForReset(s, 2 * k + 1)
  {
    hide QInv, LiveCqes, CleanForReset, Restarted, F.Inv, Kept;
    var a, b := 2 * k, 2 * k + 1;
    forall i | 0 <= i < |s.qs| ensures 0 < |s.qs[i].ring| && s.qs[i].wq.next <= |s.qs[i].wq.pool| { PoolBounds(s, i); }
    ResetRestores(s, a);
    var s1 := ResetQueue(s, a);
    if F.Inv(s1) { ResetRestores(s1, b); }
    if F.Inv(ResetPair(s, k)) {
      SubExists(s, a);
      SubExists(s, b);
      PairFlow(s, k, s.qs[a].sub);
      PairFlow(s, k, s.qs[b].sub);
      F.QueueHolds(s, a);
      F.QueueHolds(s, b);
      ResetQueueInv(s.qs[a], a % 2 == 0);
      ResetQueueInv(s.qs[b], b % 2 == 0);
      F.QueueHolds(ResetPair(s, k), a);
      F.QueueHolds(ResetPair(s, k), b);
    }
  }

  lemma Drained(q: Queue)
    requires QInv(q) && q.tickets == map[]
    ensures q.wq.next <= |q.wq.pool| && LiveCqes(q) == 0 && Elems(q.wq.pool[..q.wq.next]) == q.tickets.Keys
  {
    hide QInv, LogOk, TodoOk, CountOk, TicketOk, RingOk, SessionOk, ConfigOk, DeviceOk;
    Parts(q);
    UnreleasedCount(q);
    assert Unreleased(q) == {};
    assert Elems(q.wq.pool[..0]) == {} && |q.tickets.Keys| == 0;
  }

  /**
   Why the first condition is needed: after RESET the pool position is 0, so giving back any entry that
   was still waiting moves it to 65535, and the index is written outside the pool.
   */
  lemma ReleaseAfterResetUnderflows(q: Queue, send: bool)
    requires QInv(q)
    ensures PutPosition(Restarted(q, send).wq) == 65535 && PutPosition(Restarted(q, send).wq) >= |q.wq.pool|
  {
    hide QInv, LogOk, TodoOk, CountOk, TicketOk, RingOk, SessionOk, DeviceOk, ConfigOk, FreeList, Counts;
    Parts(q);
    PutInBounds(Restarted(q, send).wq);
  }

  /**
   And it happens: from any initial system, post one request, let the device fetch and complete it, and
   reset the queue without polling. The other two conditions hold, yet the system is not sound.
   */
  lemma ResetUnpolledUnderflows(s0: F.System, i: nat) returns (s: F.System)
    requires F.Init(s0) && i < |s0.qs| && 1 <= s0.qs[i].wq.cnt && 2 <= |s0.qs[i].ring|
    ensures F.Reachable(s) && F.Inv(s) && i < |s.qs| && s.qs[i].mode == Unlocked && LiveCqes(s.qs[i]) == 1
    ensures var q := s.qs[i];
            && 0 < |q.ring| && q.wq.next <= |q.wq.pool| && CleanForReset(q, i % 2 == 0)
            && !F.Inv(ResetQueue(s, i)) && PutPosition(ResetQueue(s, i).qs[i].wq) >= |q.wq.pool|
  {
    hide QInv, LiveCqes, F.Inv, Overrun.UnpolledRun, Overrun.Rested, ResetQueue, PoolInv, F.Created, LapOf, Elems,
      PutPosition, Restarted;
    Overrun.CreatedFills(s0);
    F.InitInv(s0);
    FreshRoom(s0, i);
    var es;
    es, s := Overrun.FillOne(s0, i);
    Overrun.UnpolledIsRun(s0, es, s);
    F.RunKeeps(s0, es, s);
    assert F.Reachable(s);
    OneUnreleased(s0.qs[i], s.qs[i], i % 2 == 0);
    ResetRestores(s, i);
    F.QueueHolds(s, i);
    ReleaseAfterResetUnderflows(s.qs[i], i % 2 == 0);
    ResetAt(s, i);
  }

  lemma ResetAt(s: F.System, i: nat)
    requires i < |s.qs|
    ensures ResetQueue(s, i).qs[i] == Restarted(s.qs[i], i % 2 == 0)
  {
    hide Restarted, Kept;
  }

  lemma FreshRoom(s: F.System, i: nat)
    requires F.Created(s) && i < |s.qs| && 1 <= s.qs[i].wq.cnt
    ensures s.qs[i].wq.next == 0 && s.qs[i].tickets == map[] && s.qs[i].dlog == [] && !Full(s.qs[i].wq)
  {
    assert F.QueueInit(s.qs[i]);
  }

  lemma OneUnreleased(q0: Queue, q: Queue, send: bool)
    requires Overrun.Rested(q) && q0.wq.next == 0 < |q0.wq.pool| && q0.tickets == map[] && q0.dlog == []
    requires Overrun.Grew(q0, q) && 2 <= |q0.ring|
    ensures q.mode == Unlocked && LiveCqes(q) == 1 && 0 < |q.ring| && q.wq.next <= |q.wq.pool| && CleanForReset(q, send)
  {
    hide QInv, LiveCqes, LapOf;
    Overrun.RestedFields(q);
    FirstLap(1, |q.ring|);
    assert q.tickets.Keys == {q0.wq.pool[0]};
    assert q.wq.pool[..1] == [q0.wq.pool[0]];
  }

  // ---- requests in flight ------------------------------------------------------------------------

  /** Post three requests, complete the oldest, reset: the next three requests share an index. */
  lemma ResetUndrainedDuplicates()
    ensures var w0 := Fresh(4, 3, [0, 0, 0, 0]);
            var w1 := CountPosted(Reserve(w0, 10));
            var w2 := CountPosted(Reserve(w1, 11));
            var w3 := CountPosted(Reserve(w2, 12));
            var r := InitIndices(Put(w3, HeadIndex(w0)));
            && PoolInv(w3, {0, 1, 2}) && !PoolInv(r, {})
            && HeadIndex(r) == HeadIndex(Reserve(Reserve(r, 20), 21))
            && !Full(CountPosted(Reserve(CountPosted(Reserve(r, 20)), 21)))
  {
    var w0 := Fresh(4, 3, [0, 0, 0, 0]);
    assert w0.pool == [0, 1, 2, 3];
    assert w0 == Wq(4, 3, [0, 0, 0, 0], [0, 1, 2, 3], 0, 0, 0, 0, 0);
    var w1 := CountPosted(Reserve(w0, 10));
    assert w1 == Wq(4, 3, [10, 0, 0, 0], [0, 1, 2, 3], 1, 0, 0, 1, 0);
    var w2 := CountPosted(Reserve(w1, 11));
    assert w2 == Wq(4, 3, [10, 11, 0, 0], [0, 1, 2, 3], 2, 0, 0, 2, 0);
    var w3 := CountPosted(Reserve(w2, 12));
    assert w3 == Wq(4, 3, [10, 11, 12, 0], [0, 1, 2, 3], 3, 0, 0, 3, 0);
    assert Put(w3, 0).pool == [0, 1, 0, 3];
    DuplicateHandedOut(InitIndices(Put(w3, 0)));
    ThreeInFlight(w3);
  }

  lemma ThreeInFlight(w: Wq)
    requires w == Wq(4, 3, [10, 11, 12, 0], [0, 1, 2, 3], 3, 0, 0, 3, 0)
    ensures PoolInv(w, {0, 1, 2})
  {
    hide Shape, FreeList;
    ThreeFree(w.pool);
    ThreeShape(w);
  }

  lemma ThreeFree(pool: seq<nat>)
    requires pool == [0, 1, 2, 3]
    ensures FreeList(pool, 3, {0, 1, 2})
  {
    assert |{0, 1, 2}| == 3 && |pool| == 4 && pool[3] == 3;
  }

  lemma ThreeShape(w: Wq)
    requires w == Wq(4, 3, [10, 11, 12, 0], [0, 1, 2, 3], 3, 0, 0, 3, 0)
    ensures Shape(w)
  {
    assert Wrap32(3 - 0) == 3;
  }

  lemma DuplicateHandedOut(r: Wq)
    requires r == Wq(4, 3, [10, 11, 12, 0], [0, 1, 0, 3], 0, 0, 0, 0, 0)
    ensures !PoolInv(r, {}) && HeadIndex(r) == HeadIndex(Reserve(Reserve(r, 20), 21))
    ensures !Full(CountPosted(Reserve(CountPosted(Reserve(r, 20)), 21)))
  {
    assert r.pool[0] == r.pool[2];
    assert Reserve(Reserve(r, 20), 21).pool == [0, 1, 0, 3];
    assert Wrap32(0 - 0) == 0 && Wrap32(2 - 0) == 2;
  }
}
