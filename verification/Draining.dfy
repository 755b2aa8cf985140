/** Polling until nothing is left: what a poll that finds nothing says, and where polling leads. */
module Draining {
  import opened Words
  import opened WridPool
  import opened CompletionRing
  import opened Polling
  import opened ExtendedPolling
  import opened PollRefinement
  import QM = QueueMachine
  import F = Fabric
  import Overrun
  import Reset

  // ---- what finding nothing means ----------------------------------------------------------------

  /** Each sub queue with queues attached to it is referenced. */
  ghost predicate Referenced(s: F.System, base: nat, q: Cq) {
    forall i :: 0 <= i < |s.qs| && base <= s.qs[i].sub < base + |q.subs| ==> q.subs[s.qs[i].sub - base].refCnt > 0
  }

  lemma {:induction false} SumOfNone(qs: seq<QM.Queue>, j: nat, f: QM.Queue -> int, i: nat)
    requires (forall k :: 0 <= k < |qs| ==> f(qs[k]) >= 0) && F.Sum(qs, j, f) <= 0 && i < |qs| && qs[i].sub == j
    ensures f(qs[i]) == 0
  {
    var n := |qs| - 1;
    SumNotNegative(qs[..n], j, f);
    if i < n { SumOfNone(qs[..n], j, f, i); }
  }

  lemma {:induction false} SumNotNegative(qs: seq<QM.Queue>, j: nat, f: QM.Queue -> int)
    requires forall k :: 0 <= k < |qs| ==> f(qs[k]) >= 0
    ensures F.Sum(qs, j, f) >= 0
  {
    if qs != [] { SumNotNegative(qs[..|qs| - 1], j, f); }
  }

  /** A sub queue with nothing in hand has an entry exactly when one is unconsumed. */
  lemma PendingMeans(s: F.System, j: nat)
    requires F.Inv(s) && j < |s.subs| && F.Linked(s) && !F.InHand(s, j)
    ensures var u := s.subs[j];
            && u.host.qmask < |u.buf| && |u.whose| == |u.prod|
            && (Pending(u.host, u.buf) <==> u.consumed < |u.prod|) && u.consumed <= |u.prod|
  {
    var u := s.subs[j];
    assert F.SubOk(u);
    F.NeverOverrun(s, j);
    hide F.Inv, History, PhaseAt, SlotOf, Wrap16;
    PhaseProtocol(u.host, u.buf, u.prod, u.consumed);
  }

  /** If every entry of a sub queue is consumed and given back, so is every completion of its queues. */
  lemma ConsumedMeansReleased(s: F.System, j: nat, i: nat)
    requires F.Inv(s) && j < |s.subs| && i < |s.qs| && s.qs[i].sub == j && F.Linked(s) && !F.InHand(s, j)
    requires s.subs[j].consumed == |s.subs[j].prod|
    ensures QM.LiveCqes(s.qs[i]) == 0
  {
    hide F.Inv, QM.LiveCqes;
    FlowAt(s, j);
    forall k | 0 <= k < |s.qs| ensures QM.LiveCqes(s.qs[k]) >= 0 { Reset.PoolBounds(s, k); }
    SumOfNone(s.qs, j, QM.LiveCqes, i);
  }

  lemma FlowAt(s: F.System, j: nat)
    requires F.Inv(s) && j < |s.subs|
    ensures F.Linked(s) && |s.subs[j].prod| - F.Returned(s, j) == F.Sum(s.qs, j, QM.LiveCqes)
  {
    hide QM.LiveCqes, F.QueuesOk, F.SubsOk, F.AllLive, F.CursorsOk, F.ReportsOk;
    assert F.Flow(s, j);
  }

  /**
   A poll that finds nothing, plain or extended, with no entry in hand: every completion the device has
   written for a queue attached to this completion queue has been consumed and given back.
   */
  lemma NothingMeansDrained(s: F.System, c: nat, base: nat, q: Cq, extended: bool)
    requires Idle(s, c, base, q) && Referenced(s, base, q) && PollSubCqs(q, extended).res == Nothing
    ensures forall i :: 0 <= i < |s.qs| && base <= s.qs[i].sub < base + |q.subs| ==>
              && s.qs[i].sub < |s.subs| && s.subs[s.qs[i].sub].consumed == |s.subs[s.qs[i].sub].prod|
              && QM.LiveCqes(s.qs[i]) == 0
  {
    hide F.Inv, QM.LiveCqes, CqOk, TableShows, AllFree, Wanted, PollSubCqs, ShowsSub, HasEntry, F.InHand;
    forall i | 0 <= i < |s.qs| && base <= s.qs[i].sub < base + |q.subs|
      ensures s.qs[i].sub < |s.subs| && s.subs[s.qs[i].sub].consumed == |s.subs[s.qs[i].sub].prod|
      ensures QM.LiveCqes(s.qs[i]) == 0
    {
      var j := s.qs[i].sub;
      NothingMeansEmpty(q, extended);
      assert !Wanted(q, j - base);
      NotWanted(q, j - base);
      NothingPending(s, c, base, q, j - base);
      ConsumedMeansReleased(s, j, i);
    }
  }

  lemma NotWanted(q: Cq, m: nat)
    requires CqOk(q) && m < |q.subs| && !Wanted(q, m) && q.subs[m].refCnt > 0
    ensures !HasEntry(q, m)
  {
    hide HasEntry;
  }

  lemma NothingPending(s: F.System, c: nat, base: nat, q: Cq, m: nat)
    requires Idle(s, c, base, q) && m < |q.subs| && !HasEntry(q, m)
    ensures base + m < |s.subs| && F.Linked(s) && !F.InHand(s, base + m)
    ensures s.subs[base + m].consumed == |s.subs[base + m].prod|
  {
    hide F.Inv, CqOk, TableShows, AllFree, HasEntry, BitAnd;
    ProbeIsEnabled(s, c, base, q, m);
    assert ShowsSub(s, c, base, q, m);
    FlowAt(s, base + m);
    PendingMeans(s, base + m);
  }

  // ---- draining ----------------------------------------------------------------------------------

  /** What polling does not change. */
  ghost predicate PollsOnly(s: F.System, s': F.System) {
    && |s'.qs| == |s.qs| && |s'.subs| == |s.subs|
    && (forall k {:trigger s'.qs[k]} :: 0 <= k < |s.qs| ==>
          s'.qs[k] == s.qs[k].(wq := s'.qs[k].wq, tickets := s'.qs[k].tickets, released := s'.qs[k].released))
    && (forall j {:trigger s'.subs[j]} :: 0 <= j < |s.subs| ==>
          s'.subs[j].prod == s.subs[j].prod && s'.subs[j].cq == s.subs[j].cq)
  }

  /** The poller of each completion queue has empty hands, and every lock is free. */
  ghost predicate AtRest(s: F.System) { AllFree(s) && forall c :: 0 <= c < |s.cqs| ==> s.cqs[c] == F.NoCqe }

  /** One entry consumed, reported and given back. */
  lemma DrainOne(s: F.System, j: nat) returns (es: seq<F.Event>, s': F.System)
    requires F.Inv(s) && AtRest(s) && j < |s.subs| && s.subs[j].consumed < |s.subs[j].prod|
    ensures F.IsRun(s, es, s') && F.Inv(s') && AtRest(s') && PollsOnly(s, s')
    ensures s'.subs[j].consumed == s.subs[j].consumed + 1
  {
    hide F.Inv, F.IsRun, F.QueueOf, F.HeldValid, Consume, F.DoGiveBack, F.DoReport, F.Apply, F.Enabled, Pending;
    FlowAt(s, j);
    PendingMeans(s, j);
    var c := s.subs[j].cq;
    CanConsume(s, j);
    SysStep(s, F.Consumes(c, j));
    var s1 := F.Apply(s, F.Consumes(c, j));
    F.HeldRequest(s1, c);
    var s2 := ReportShows(s1, c);
    ReleaseEnabled(s2, c);
    Released(s2, c);
    SysStep(s2, F.GivesBack(c));
    s' := F.Apply(s2, F.GivesBack(c));
    SysJoin(s, [F.Consumes(c, j)], s1, [F.Reports(c)], s2);
    SysJoin(s, [F.Consumes(c, j)] + [F.Reports(c)], s2, [F.GivesBack(c)], s');
    es := [F.Consumes(c, j)] + [F.Reports(c)] + [F.GivesBack(c)];
  }

  lemma CanConsume(s: F.System, j: nat)
    requires F.Inv(s) && j < |s.subs| && s.subs[j].cq < |s.cqs| && s.cqs[s.subs[j].cq] == F.NoCqe
    requires s.subs[j].host.qmask < |s.subs[j].buf| && Pending(s.subs[j].host, s.subs[j].buf)
    ensures F.Enabled(s, F.Consumes(s.subs[j].cq, j))
    ensures var s' := F.Apply(s, F.Consumes(s.subs[j].cq, j)); var c := s.subs[j].cq;
            && s'.qs == s.qs && |s'.cqs| == |s.cqs| && |s'.subs| == |s.subs|
            && s'.cqs == s.cqs[c := s'.cqs[c]] && s'.cqs[c].Holding? && !s'.cqs[c].reported
            && s'.subs == s.subs[j := s'.subs[j]]
            && s'.subs[j] == s.subs[j].(host := s'.subs[j].host, consumed := s.subs[j].consumed + 1)
  {
    hide F.Inv, Consume, Pending, CurrentIndex;
    F.ConsumeEventKeeps(s, s.subs[j].cq, j);
  }

  lemma Released(s: F.System, c: nat)
    requires F.Inv(s) && F.Enabled(s, F.GivesBack(c))
    ensures PollsOnly(s, F.Apply(s, F.GivesBack(c)))
  {
    hide F.Inv, F.QueueOf;
    F.GiveBackEventKeeps(s, c);
  }

  lemma PollsOnlyMore(a: F.System, b: F.System, c: F.System)
    requires PollsOnly(a, b) && PollsOnly(b, c)
    ensures PollsOnly(a, c)
  {
    forall k {:trigger c.qs[k]} | 0 <= k < |a.qs|
      ensures c.qs[k] == a.qs[k].(wq := c.qs[k].wq, tickets := c.qs[k].tickets, released := c.qs[k].released)
    {
      assert b.qs[k] == a.qs[k].(wq := b.qs[k].wq, tickets := b.qs[k].tickets, released := b.qs[k].released);
    }
    forall j {:trigger c.subs[j]} | 0 <= j < |a.subs|
      ensures c.subs[j].prod == a.subs[j].prod && c.subs[j].cq == a.subs[j].cq
    {
      assert b.subs[j].prod == a.subs[j].prod;
    }
  }

  /** Polling alone drains a sub queue, from every sound state at rest. */
  lemma {:induction false} Drain(s: F.System, j: nat) returns (es: seq<F.Event>, s': F.System)
    requires F.Inv(s) && AtRest(s) && j < |s.subs|
    ensures F.IsRun(s, es, s') && F.Inv(s') && AtRest(s') && PollsOnly(s, s')
    ensures s'.subs[j].consumed == |s'.subs[j].prod|
    decreases |s.subs[j].prod| - s.subs[j].consumed
  {
    hide F.Inv, F.IsRun;
    NotBeyond(s, j);
    if s.subs[j].consumed == |s.subs[j].prod| {
      es, s' := [], s;
      NoSteps(s);
    } else {
      var es1, s1 := DrainOne(s, j);
      var es2;
      es2, s' := Drain(s1, j);
      SysJoin(s, es1, s1, es2, s');
      PollsOnlyMore(s, s1, s');
      es := es1 + es2;
    }
  }

  lemma NotBeyond(s: F.System, j: nat)
    requires F.Inv(s) && j < |s.subs|
    ensures s.subs[j].consumed <= |s.subs[j].prod|
  {
    hide QM.QInv, F.Linked, F.QueuesOk, F.FlowOk, F.AllLive, F.CursorsOk, F.ReportsOk;
    assert F.SubOk(s.subs[j]);
  }

  /** A queue all of whose requests are fetched and completed is drained once its completions are given back. */
  lemma NoTicketsLeft(q: QM.Queue)
    requires QM.LiveCqes(q) == 0 && q.fetchedReqs == |q.log| && q.outstanding == {}
    ensures q.tickets == map[]
  {
    assert |q.tickets.Keys| == 0;
    assert q.tickets.Keys == {};
  }

  // ---- draining is not enough for a send queue ---------------------------------------------------

  /** One queue filled with n requests, each fetched and completed. */
  lemma {:induction false} FillQueue(s: F.System, i: nat, n: nat) returns (es: seq<F.Event>, s': F.System)
    requires Overrun.Filling(s) && i < |s.qs| && |s.qs[i].tickets.Keys| + n <= s.qs[i].wq.cnt
    ensures Overrun.UnpolledRun(s, es, s') && Overrun.Filling(s') && |s'.qs| == |s.qs| && s'.cqs == s.cqs
    ensures |s'.qs[i].dlog| == |s.qs[i].dlog| + n && |s'.qs[i].ring| == |s.qs[i].ring| && |s'.subs| == |s.subs|
    decreases n
  {
    hide QM.QInv, QM.LiveCqes, Overrun.Unpolled, Full, Overrun.AllHeld, Overrun.Untouched;
    if n == 0 {
      es, s' := [], s;
    } else {
      assert Overrun.Rested(s.qs[i]);
      Overrun.RestedFields(s.qs[i]);
      var es1, s1 := Overrun.FillOne(s, i);
      assert Overrun.Rested(s1.qs[i]);
      SameSize(s, i, es1, s1);
      CqsStay(s, es1, s1);
      var es2;
      es2, s' := FillQueue(s1, i, n - 1);
      Overrun.RunsJoin(s, es1, s1, es2, s');
      es := es1 + es2;
    }
  }

  lemma {:induction false} CqsStay(s: F.System, es: seq<F.Event>, s': F.System)
    requires Overrun.UnpolledRun(s, es, s')
    ensures s'.cqs == s.cqs
    decreases |es|
  {
    hide F.QApply, F.QEnabled, QM.QInv;
    if es != [] {
      var m :| Overrun.Unpolled(s, es[0], m) && Overrun.UnpolledRun(m, es[1..], s');
      CqsStay(m, es[1..], s');
    }
  }

  lemma {:induction false} SameSize(s: F.System, i: nat, es: seq<F.Event>, s': F.System)
    requires Overrun.UnpolledRun(s, es, s') && i < |s.qs|
    ensures |s'.qs| == |s.qs| && s'.qs[i].wq.cnt == s.qs[i].wq.cnt
    decreases |es|
  {
    hide F.QApply, F.QEnabled, QM.QInv, QM.LiveCqes, F.CqeFor;
    if es != [] {
      var m :| Overrun.Unpolled(s, es[0], m) && Overrun.UnpolledRun(m, es[1..], s');
      if es[0].OnQueue? { F.QStepKeeps(s.qs[es[0].i], es[0].step); }
      SameSize(m, i, es[1..], s');
    }
  }

  /**
   A send queue that has gone an odd number of laps: post as many requests as it has entries, have them
   fetched and completed, poll until nothing is left, and reset. It is drained, and yet the system is not
   sound: the phase its next descriptors carry is not the one a device that starts over expects.
   */
  lemma DrainedOddLapFails(s0: F.System, i: nat) returns (s: F.System)
    requires F.Init(s0) && i < |s0.qs| && i % 2 == 0 && |s0.qs[i].ring| == s0.qs[i].wq.cnt
    ensures F.Reachable(s) && F.Inv(s) && i < |s.qs| && s.qs[i].mode == QM.Unlocked && s.qs[i].tickets == map[]
    ensures 0 < |s.qs[i].ring| && LapOf(|s.qs[i].dlog|, |s.qs[i].ring|) == 1
    ensures !F.Inv(Reset.ResetQueue(s, i))
  {
    hide QM.QInv, QM.LiveCqes, F.Inv, Overrun.UnpolledRun, F.IsRun, LapOf, Reset.ResetQueue, Overrun.AllHeld,
      Overrun.Untouched, Reset.CleanForReset;
    Overrun.CreatedFills(s0);
    F.InitInv(s0);
    Fresh0(s0, i);
    var n := s0.qs[i].wq.cnt;
    var es1, s1 := FillQueue(s0, i, n);
    Overrun.UnpolledIsRun(s0, es1, s1);
    F.RunKeeps(s0, es1, s1);
    forall k | 0 <= k < |s1.qs| ensures s1.qs[k].mode == QM.Unlocked { assert Overrun.Rested(s1.qs[k]); }
    assert Overrun.Rested(s1.qs[i]);
    var j := s1.qs[i].sub;
    var es2;
    es2, s := Drain(s1, j);
    SysJoin(s0, es1, s1, es2, s);
    assert F.Reachable(s);
    FlowAt(s, j);
    ConsumedMeansReleased(s, j, i);
    NoTicketsLeft(s.qs[i]);
    NextLap(0, n);
    FirstLap(0, n);
    Reset.ResetRestores(s, i);
    OddLap(s.qs[i]);
  }

  lemma OddLap(q: QM.Queue)
    requires 0 < |q.ring| && q.wq.next <= |q.wq.pool| && LapOf(|q.dlog|, |q.ring|) == 1
    ensures !Reset.CleanForReset(q, true)
  {
    hide LapOf;
  }

  lemma Fresh0(s: F.System, i: nat)
    requires F.Init(s) && i < |s.qs|
    ensures s.qs[i].tickets == map[] && s.qs[i].dlog == [] && 0 < |s.qs[i].ring| && s.qs[i].sub < |s.subs|
    ensures forall c :: 0 <= c < |s.cqs| ==> s.cqs[c] == F.NoCqe
  {
    assert F.QueueInit(s.qs[i]);
  }
}
