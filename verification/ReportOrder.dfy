/** Which requests are reported, and in which order: the entries of each sub completion queue, as written. */
module ReportOrder {
  import opened CompletionRing
  import opened QueueMachine
  import opened Fabric

  /** The reports of requests whose queue is attached to sub completion queue j. */
  ghost function ReportsOf(reports: seq<Report>, qs: seq<Queue>, j: nat): seq<Report> {
    if reports == [] then []
    else
      var r := reports[|reports| - 1];
      ReportsOf(reports[..|reports| - 1], qs, j) + (if r.queue < |qs| && qs[r.queue].sub == j then [r] else [])
  }

  /** How many entries have been reported: those consumed, but for one in hand whose record is still to be read. */
  ghost function Reported(s: System, j: nat): int
    requires Linked(s) && j < |s.subs|
  {
    s.subs[j].consumed - (if InHand(s, j) && !s.cqs[s.subs[j].cq].reported then 1 else 0)
  }

  /** The n-th report of a sub completion queue is about the request of its n-th entry. */
  ghost predicate InOrder(s: System, j: nat) {
    && Linked(s) && j < |s.subs|
    && var u, rs := s.subs[j], ReportsOf(s.reports, s.qs, j);
    && |rs| == Reported(s, j) && |rs| <= |u.prod| == |u.whose|
    && (forall n {:trigger rs[n]} :: 0 <= n < |rs| ==> rs[n].queue == QueueOf(u.prod[n]) && rs[n].ticket == u.whose[n])
  }

  lemma {:induction false} SameReports(reports: seq<Report>, qs: seq<Queue>, qs': seq<Queue>, j: nat)
    requires |qs'| == |qs| && forall k :: 0 <= k < |qs| ==> qs'[k].sub == qs[k].sub
    ensures ReportsOf(reports, qs', j) == ReportsOf(reports, qs, j)
  {
    if reports != [] { SameReports(reports[..|reports| - 1], qs, qs', j); }
  }

  lemma OneReport(reports: seq<Report>, r: Report, qs: seq<Queue>, j: nat)
    ensures ReportsOf(reports + [r], qs, j)
         == ReportsOf(reports, qs, j) + (if r.queue < |qs| && qs[r.queue].sub == j then [r] else [])
  {
    assert (reports + [r])[..|reports|] == reports;
  }

  /** What a step may change without moving the reports of a sub completion queue. */
  lemma OrderFrame(s: System, s': System, j: nat)
    requires InOrder(s, j) && Linked(s') && |s'.subs| == |s.subs| && s'.reports == s.reports
    requires |s'.qs| == |s.qs| && forall k :: 0 <= k < |s.qs| ==> s'.qs[k].sub == s.qs[k].sub
    requires Reported(s', j) == Reported(s, j) && |s'.subs[j].prod| == |s'.subs[j].whose|
    requires s.subs[j].prod <= s'.subs[j].prod && s.subs[j].whose <= s'.subs[j].whose
    ensures InOrder(s', j)
  {
    hide QueueOf;
    SameReports(s.reports, s.qs, s'.qs, j);
  }

  lemma OrderStarts(s: System, j: nat)
    requires Init(s) && j < |s.subs|
    ensures InOrder(s, j)
  {
    assert SubInit(s.subs[j]);
  }

  lemma InvParts(s: System)
    requires Inv(s)
    ensures Linked(s) && (forall c :: 0 <= c < |s.cqs| ==> CursorOk(s, c))
    ensures forall j :: 0 <= j < |s.subs| ==> |s.subs[j].prod| == |s.subs[j].whose|
  {
    hide QInv, QueuesOk, FlowOk, AllLive, ReportsOk, History, InStep;
    forall j | 0 <= j < |s.subs| ensures |s.subs[j].prod| == |s.subs[j].whose| { assert SubOk(s.subs[j]); }
  }

  lemma OrderOnQueue(s: System, i: nat, step: QueueStep, j: nat)
    requires Inv(s) && Enabled(s, OnQueue(i, step)) && InOrder(s, j)
    ensures InOrder(Apply(s, OnQueue(i, step)), j)
  {
    hide Inv, QInv, QEnabled, QApply, LiveCqes;
    QueueHolds(s, i);
    QStepKeeps(s.qs[i], step);
    InvParts(s);
    OrderFrame(s, Apply(s, OnQueue(i, step)), j);
  }

  lemma OrderCompletes(s: System, i: nat, idx: nat, j: nat)
    requires Inv(s) && Enabled(s, Completes(i, idx)) && InOrder(s, j)
    ensures InOrder(Apply(s, Completes(i, idx)), j)
  {
    hide Inv, QInv, CqeFor, LiveCqes, ReportsOf, QueueOf, PhaseAt;
    CompleteKeeps(s, i, idx);
    InvParts(s);
    InvParts(DoComplete(s, i, idx));
    OrderFrame(s, Apply(s, Completes(i, idx)), j);
  }

  lemma OrderConsumes(s: System, c: nat, k: nat, j: nat)
    requires Inv(s) && Enabled(s, Consumes(c, k)) && InOrder(s, j)
    ensures InOrder(Apply(s, Consumes(c, k)), j)
  {
    hide Inv, ReportsOf, QueueOf, CompletionRing.Consume, CurrentIndex;
    ConsumeEventKeeps(s, c, k);
    InvParts(s);
    InvParts(DoConsume(s, c, k));
    OrderFrame(s, Apply(s, Consumes(c, k)), j);
  }

  lemma OrderReports(s: System, c: nat, j: nat)
    requires Inv(s) && Enabled(s, Reports(c)) && InOrder(s, j)
    ensures InOrder(Apply(s, Reports(c)), j)
  {
    hide Inv, ReportsOf, QueueOf, QInv;
    ReportEventKeeps(s, c);
    InvParts(s);
    HeldEntry(s, c);
    HeldRequest(s, c);
    var s' := DoReport(s, c);
    InvParts(s');
    OneReport(s.reports, s'.reports[|s.reports|], s.qs, j);
  }

  lemma OrderGivesBack(s: System, c: nat, j: nat)
    requires Inv(s) && Enabled(s, GivesBack(c)) && InOrder(s, j)
    ensures InOrder(Apply(s, GivesBack(c)), j)
  {
    hide Inv, ReportsOf, QueueOf, QInv;
    GiveBackEventKeeps(s, c);
    InvParts(s);
    InvParts(DoGiveBack(s, c));
    OrderFrame(s, Apply(s, GivesBack(c)), j);
  }

  lemma {:induction false} OrderRuns(s: System, es: seq<Event>, s': System, j: nat)
    requires Inv(s) && IsRun(s, es, s') && InOrder(s, j)
    ensures InOrder(s', j)
    decreases |es|
  {
    hide Inv, Enabled, Apply, InOrder;
    if es != [] {
      match es[0] {
        case OnQueue(i, step) => OrderOnQueue(s, i, step, j);
        case Completes(i, idx) => OrderCompletes(s, i, idx, j);
        case Consumes(c, k) => OrderConsumes(s, c, k, j);
        case Reports(c) => OrderReports(s, c, j);
        case GivesBack(c) => OrderGivesBack(s, c, j);
      }
      ApplyKeeps(s, es[0]);
      OrderRuns(Apply(s, es[0]), es[1..], s', j);
    }
  }

  /**
   In every reachable state the reports of each sub completion queue are, in order and without gap, the
   requests whose completions the device wrote there, as far as they have been consumed.
   */
  lemma ReportsFollowEntries(s: System, j: nat)
    requires Reachable(s) && j < |s.subs|
    ensures InOrder(s, j)
  {
    hide Inv, Init, InOrder, IsRun;
    var s0, es :| Init(s0) && Inv(s0) && IsRun(s0, es, s);
    SubsKept(s0, es, s);
    OrderStarts(s0, j);
    OrderRuns(s0, es, s, j);
  }

  lemma {:induction false} SubsKept(s: System, es: seq<Event>, s': System)
    requires Inv(s) && IsRun(s, es, s')
    ensures |s'.subs| == |s.subs|
    decreases |es|
  {
    hide Inv, Enabled, Apply;
    if es != [] {
      ApplyKeeps(s, es[0]);
      StepSubs(s, es[0]);
      SubsKept(Apply(s, es[0]), es[1..], s');
    }
  }

  lemma StepSubs(s: System, e: Event)
    requires Inv(s) && Enabled(s, e)
    ensures |Apply(s, e).subs| == |s.subs|
  {
    hide Inv, QInv, QApply, QEnabled, CqeFor, CompletionRing.Consume, QueueOf;
    match e
    case OnQueue(i, step) => QueueHolds(s, i);
    case Completes(i, idx) => CompleteKeeps(s, i, idx);
    case Consumes(c, j) => ConsumeEventKeeps(s, c, j);
    case Reports(c) => ReportEventKeeps(s, c);
    case GivesBack(c) => GiveBackEventKeeps(s, c);
  }
}
