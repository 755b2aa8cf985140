/**
 Polling as steps of the whole system: probing a sub queue is the system's consuming step, or no step;
 releasing the current entry is its releasing step, under the lock of the queue the entry names.
 */
module PollRefinement {
  import opened Words
  import opened CompletionRing
  import opened Polling
  import opened ExtendedPolling
  import QM = QueueMachine
  import F = Fabric

  /** A part of the buffer, from a position on. */
  ghost predicate Stretch(buf: seq<Cqe>, at: nat, part: seq<Cqe>) {
    at + |part| <= |buf| && forall k {:trigger part[k]} :: 0 <= k < |part| ==> buf[at + k] == part[k]
  }

  /** Sub queue i of the completion queue is sub queue base + i of the system. */
  ghost predicate ShowsSub(s: F.System, c: nat, base: nat, q: Cq, i: nat)
    requires i < |q.subs|
  {
    && base + i < |s.subs|
    && var u := s.subs[base + i];
    && u.cq == c && u.host == q.subs[i].(refCnt := u.host.refCnt)
    && |u.buf| == q.depth && Stretch(q.buf, i * q.depth, u.buf)
  }

  ghost predicate ShowsSubs(s: F.System, c: nat, base: nat, q: Cq) {
    c < |s.cqs| && forall i {:trigger ShowsSub(s, c, base, q, i)} :: 0 <= i < |q.subs| ==> ShowsSub(s, c, base, q, i)
  }

  /** A probe succeeds exactly when the system may take the consuming step. */
  lemma ProbeIsEnabled(s: F.System, c: nat, base: nat, q: Cq, i: nat)
    requires F.Inv(s) && CqOk(q) && ShowsSubs(s, c, base, q) && s.cqs[c] == F.NoCqe && i < |q.subs|
    ensures HasEntry(q, i) <==> F.Enabled(s, F.Consumes(c, base + i))
    ensures CurrentIndex(q.subs[i]) < q.depth
  {
    hide F.Inv, BitAnd;
    assert ShowsSub(s, c, base, q, i);
    HeadInBounds(q, i);
  }

  lemma ConsumedEntry(s: F.System, c: nat, base: nat, q: Cq, i: nat)
    requires F.Inv(s) && CqOk(q) && ShowsSubs(s, c, base, q) && s.cqs[c] == F.NoCqe && i < |q.subs| && Wanted(q, i)
    ensures F.Enabled(s, F.Consumes(c, base + i))
    ensures F.DoConsume.requires(s, c, base + i)
    ensures F.Apply(s, F.Consumes(c, base + i)) == F.DoConsume(s, c, base + i)
    ensures F.Inv(F.DoConsume(s, c, base + i)) && F.HeldValid(F.DoConsume(s, c, base + i), c)
  {
    hide F.Inv, HasEntry, F.DoConsume, BitAnd;
    ProbeIsEnabled(s, c, base, q, i);
    F.ConsumeEventKeeps(s, c, base + i);
    F.ApplyKeeps(s, F.Consumes(c, base + i));
    NowHolding(s, c, base + i);
    F.HeldRequest(F.DoConsume(s, c, base + i), c);
  }

  lemma NowHolding(s: F.System, c: nat, j: nat)
    requires c < |s.cqs| && j < |s.subs| && s.subs[j].host.phase <= 1
    ensures var s' := F.DoConsume(s, c, j); var u := s.subs[j];
            && c < |s'.cqs| && s'.cqs[c] == F.Holding(j, CurrentIndex(u.host), false)
            && s'.subs == s.subs[j := s'.subs[j]] && |s'.cqs| == |s.cqs|
            && s'.qs == s.qs && s'.reports == s.reports
            && s'.subs[j] == u.(host := Consume(u.host), consumed := s'.subs[j].consumed)
  {
    hide Consume, CurrentIndex;
  }

  lemma OtherSubs(s: F.System, c: nat, base: nat, q: Cq, s': F.System, q': Cq, i: nat, m: nat)
    requires ShowsSubs(s, c, base, q) && i < |q.subs| && m < |q.subs| && m != i && base + m < |s.subs|
    requires |s'.subs| == |s.subs| && |q'.subs| == |q.subs| && q'.depth == q.depth && q'.buf == q.buf
    requires s'.subs[base + m] == s.subs[base + m] && q'.subs[m] == q.subs[m]
    ensures ShowsSub(s', c, base, q', m)
  {
    assert ShowsSub(s, c, base, q, m);
  }

  lemma ThisSub(s: F.System, c: nat, base: nat, q: Cq, s': F.System, q': Cq, i: nat)
    requires ShowsSubs(s, c, base, q) && i < |q.subs| && q.subs[i].phase <= 1 && base + i < |s.subs|
    requires |s'.subs| == |s.subs| && |q'.subs| == |q.subs| && q'.depth == q.depth && q'.buf == q.buf
    requires s.subs[base + i].host.phase <= 1
    requires s'.subs[base + i] == s.subs[base + i].(host := Consume(s.subs[base + i].host),
              consumed := s'.subs[base + i].consumed)
    requires q'.subs[i] == Consume(q.subs[i])
    ensures ShowsSub(s', c, base, q', i)
  {
    hide BitAnd, Wrap16;
    assert ShowsSub(s, c, base, q, i);
  }

  /** What a successful probe of an extended poll leaves, when the entry's queue pair is in the table. */
  lemma ProbeEffect(q: Cq, i: nat)
    requires CqOk(q) && i < |q.subs| && Wanted(q, i)
    ensures Head(q, i) < |q.buf| && q.subs[i].phase <= 1
    ensures var r, c := PollSub(q, i, true), q.buf[Head(q, i)];
            Lookup(q, c.qpNum) == Some(c.qpNum) ==>
              && r.res == Got
              && r.q == q.(subs := q.subs[i := Consume(q.subs[i])], cur := Some(Head(q, i)),
                           taken := q.taken + [Taking(q, c)], curWq := QueueIndex(c.qpNum, c.qType))
  {
    hide BitAnd, Consume, Head;
    HeadInBounds(q, i);
  }

  lemma SameIndex(a: SubCq, b: SubCq)
    requires a == b.(refCnt := a.refCnt)
    ensures CurrentIndex(a) == CurrentIndex(b)
  {
    hide BitAnd;
  }

  // ---- the state between polls -------------------------------------------------------------------

  /** Every queue's lock is free. */
  ghost predicate AllFree(s: F.System) { forall i :: 0 <= i < |s.qs| ==> s.qs[i].mode == QM.Unlocked }

  /** Every queue of the system belongs to a queue pair in the table. */
  ghost predicate TableShows(s: F.System, q: Cq) {
    TableOk(q) && forall i :: 0 <= i < |s.qs| ==> Lookup(q, i / 2) == Some(i / 2)
  }

  /** The system shows the completion queue, between the steps of its polls. */
  ghost predicate Shows(s: F.System, c: nat, base: nat, q: Cq) {
    F.Inv(s) && CqOk(q) && ShowsSubs(s, c, base, q) && TableShows(s, q) && AllFree(s)
  }

  /** No entry is in hand. */
  ghost predicate Idle(s: F.System, c: nat, base: nat, q: Cq) { Shows(s, c, base, q) && s.cqs[c] == F.NoCqe }

  /** The entry in hand is the one the system holds, of the queue polling has as its current one. */
  ghost predicate SameHand(s: F.System, c: nat, base: nat, q: Cq) {
    && F.HeldValid(s, c) && s.cqs[c].reported && base <= s.cqs[c].sub < base + |q.subs| && s.cqs[c].slot < q.depth
    && q.cur == Some((s.cqs[c].sub - base) * q.depth + s.cqs[c].slot)
    && q.curWq == F.QueueOf(F.HeldCqe(s, c))
  }

  ghost predicate Holds(s: F.System, c: nat, base: nat, q: Cq) {
    Shows(s, c, base, q) && SomeReferenced(q) && SameHand(s, c, base, q)
  }

  lemma HeldSlot(s: F.System, c: nat, base: nat, q: Cq)
    requires ShowsSubs(s, c, base, q) && SameHand(s, c, base, q)
    ensures q.cur.Some? && q.cur.value < |q.buf| && q.buf[q.cur.value] == F.HeldCqe(s, c)
  {
    hide F.QueueOf;
    assert ShowsSub(s, c, base, q, s.cqs[c].sub - base);
  }

  lemma {:induction false} SysJoin(s: F.System, es: seq<F.Event>, s1: F.System, fs: seq<F.Event>, s2: F.System)
    requires F.Inv(s) && F.IsRun(s, es, s1) && F.Inv(s1) && F.IsRun(s1, fs, s2)
    ensures F.IsRun(s, es + fs, s2)
    decreases |es|
  {
    hide F.Inv, F.Enabled, F.Apply;
    if es == [] {
      assert es + fs == fs;
    } else {
      F.ApplyKeeps(s, es[0]);
      SysJoin(F.Apply(s, es[0]), es[1..], s1, fs, s2);
      assert (es + fs)[1..] == es[1..] + fs && (es + fs)[0] == es[0];
    }
  }

  lemma SysStep(s: F.System, e: F.Event)
    requires F.Inv(s) && F.Enabled(s, e)
    ensures F.Inv(F.Apply(s, e)) && F.IsRun(s, [e], F.Apply(s, e))
  {
    hide F.Inv, F.Enabled, F.Apply;
    F.ApplyKeeps(s, e);
    assert [e][1..] == [];
    assert F.IsRun(F.Apply(s, e), [], F.Apply(s, e));
  }

  lemma NoSteps(s: F.System)
    requires F.Inv(s)
    ensures F.IsRun(s, [], s)
  {
  }

  // ---- consuming, reporting, releasing -----------------------------------------------------------

  /** The consuming step: both now show the same counters and point at the same entry. */
  lemma ConsumeShows(s: F.System, c: nat, base: nat, q: Cq, i: nat) returns (s': F.System)
    requires Idle(s, c, base, q) && i < |q.subs| && Wanted(q, i)
    ensures F.IsRun(s, [F.Consumes(c, base + i)], s') && F.Inv(s') && F.Enabled(s, F.Consumes(c, base + i))
    ensures s'.qs == s.qs && s'.reports == s.reports && F.HeldValid(s', c) && !s'.cqs[c].reported
    ensures var r := PollSub(q, i, true);
            && r.res == Got && ShowsSubs(s', c, base, r.q) && SomeReferenced(r.q)
            && |r.q.subs| == |q.subs| && r.q.depth == q.depth && r.q.table == q.table
            && r.q.cur == Some(i * q.depth + s'.cqs[c].slot)
            && s'.cqs[c].sub == base + i && s'.cqs[c].slot < q.depth
            && r.q.curWq == F.QueueOf(F.HeldCqe(s', c))
            && r.q.taken == q.taken + [Record(Ref(F.QueueOf(F.HeldCqe(s', c)), F.HeldCqe(s', c).reqId), true)]
  {
    hide F.Inv, BitAnd, Consume, F.Apply, F.HeldValid, F.DoConsume, PollSub, HasEntry, CqOk, CurrentIndex, F.Enabled,
      AllFree, F.IsRun, F.QueueOf, QueueIndex, Taking, Lookup;
    ConsumedEntry(s, c, base, q, i);
    ProbeIsEnabled(s, c, base, q, i);
    SysStep(s, F.Consumes(c, base + i));
    ProbeEffect(q, i);
    NowHolding(s, c, base + i);
    s' := F.DoConsume(s, c, base + i);
    assert ShowsSub(s, c, base, q, i);
    SameIndex(s.subs[base + i].host, q.subs[i]);
    HeldFields(s', c);
    var e := F.HeldCqe(s', c);
    assert e == q.buf[Head(q, i)];
    NamesLive(s, q, e);
    var r := PollSub(q, i, true).q;
    ThisSub(s, c, base, q, s', r, i);
    forall m | 0 <= m < |r.subs| ensures ShowsSub(s', c, base, r, m) {
      assert ShowsSub(s, c, base, q, m);
      if m != i { OtherSubs(s, c, base, q, s', r, i, m); }
    }
    RefKept(q.subs[i]);
    assert r.subs[i].refCnt > 0;
  }

  lemma NamesLive(s: F.System, q: Cq, e: Cqe)
    requires TableShows(s, q) && F.QueueOf(e) < |s.qs|
    ensures F.QueueOf(e) == QueueIndex(e.qpNum, e.qType) && Lookup(q, e.qpNum) == Some(e.qpNum)
    ensures Taking(q, e) == Record(Ref(F.QueueOf(e), e.reqId), true)
  {
    hide BitAnd;
    assert F.QueueOf(e) / 2 == e.qpNum;
  }

  lemma RefKept(s: SubCq)
    requires s.phase <= 1
    ensures Consume(s).refCnt == s.refCnt
  {
    hide BitAnd;
  }

  lemma HeldFields(s: F.System, c: nat)
    requires F.HeldValid(s, c)
    ensures c < |s.cqs| && s.cqs[c].Holding? && s.cqs[c].sub < |s.subs| && s.cqs[c].slot < |s.subs[s.cqs[c].sub].buf|
    ensures F.QueueOf(F.HeldCqe(s, c)) < |s.qs|
    ensures F.HeldCqe(s, c).reqId < |s.qs[F.QueueOf(F.HeldCqe(s, c))].wq.wrid|
    ensures F.HeldCqe(s, c).reqId in s.qs[F.QueueOf(F.HeldCqe(s, c))].tickets
  {
    hide F.QueueOf;
  }

  /** The reporting step: the record of the entry's index is read, nothing else changes. */
  lemma ReportShows(s: F.System, c: nat) returns (s': F.System)
    requires F.Inv(s) && F.HeldValid(s, c) && !s.cqs[c].reported
    ensures F.IsRun(s, [F.Reports(c)], s') && F.Inv(s') && F.HeldValid(s', c) && s'.cqs[c].reported
    ensures s' == s.(cqs := s'.cqs, reports := s'.reports) && s'.cqs == s.cqs[c := s.cqs[c].(reported := true)]
    ensures F.HeldCqe(s', c) == F.HeldCqe(s, c)
    ensures var e := F.HeldCqe(s, c); var qu := s.qs[F.QueueOf(e)];
            && F.QueueOf(e) < |s.qs| && e.reqId in qu.tickets && e.reqId < |qu.wq.wrid|
            && s'.reports == s.reports + [F.Report(F.QueueOf(e), qu.tickets[e.reqId], qu.wq.wrid[e.reqId])]
  {
    hide F.Inv, F.QueueOf, F.IsRun;
    HeldFields(s, c);
    SysStep(s, F.Reports(c));
    s' := F.Apply(s, F.Reports(c));
  }

  /**
   A successful probe of an extended poll, with the unlocked read of the request's record, is two steps of
   the system: afterwards both hold the same entry of the same queue, and one more request is reported,
   with the wr_id recorded under the entry's index.
   */
  lemma ProbeRefines(s: F.System, c: nat, base: nat, q: Cq, i: nat) returns (s': F.System)
    requires Idle(s, c, base, q) && i < |q.subs| && Wanted(q, i)
    ensures F.IsRun(s, [F.Consumes(c, base + i), F.Reports(c)], s')
    ensures PollSub(q, i, true).res == Got && Holds(s', c, base, PollSub(q, i, true).q) && F.Inv(s')
    ensures s'.qs == s.qs && F.HeldValid(s', c) && F.QueueOf(F.HeldCqe(s', c)) < |s.qs|
    ensures var e := F.HeldCqe(s', c); var qu := s.qs[F.QueueOf(e)];
            && e.reqId in qu.tickets && e.reqId < |qu.wq.wrid| && PollSub(q, i, true).q.curWq == F.QueueOf(e)
            && PollSub(q, i, true).q.taken == q.taken + [Record(Ref(F.QueueOf(e), e.reqId), true)]
            && s'.reports == s.reports + [F.Report(F.QueueOf(e), qu.tickets[e.reqId], qu.wq.wrid[e.reqId])]
  {
    hide F.Inv, F.QueueOf, F.IsRun, PollSub, F.HeldValid, Wanted, SomeReferenced, F.Enabled, TableShows, BitAnd, CqOk;
    var s1 := ConsumeShows(s, c, base, q, i);
    s' := ReportShows(s1, c);
    assert [F.Consumes(c, base + i)] + [F.Reports(c)] == [F.Consumes(c, base + i), F.Reports(c)];
    SysJoin(s, [F.Consumes(c, base + i)], s1, [F.Reports(c)], s');
    HeldFields(s', c);
    var r := PollSub(q, i, true).q;
    SameSubs(s1, s', c, base, r, r);
    SameTable(s, s', q, r);
  }

  lemma SameTable(s: F.System, s': F.System, q: Cq, r: Cq)
    requires TableShows(s, q) && r.table == q.table && |s'.qs| == |s.qs|
    ensures TableShows(s', r)
  {
    hide BitAnd;
  }

  lemma SameSubs(s: F.System, s': F.System, c: nat, base: nat, q: Cq, q': Cq)
    requires ShowsSubs(s, c, base, q) && s'.subs == s.subs && |s'.cqs| == |s.cqs|
    requires q'.subs == q.subs && q'.depth == q.depth && q'.buf == q.buf
    ensures ShowsSubs(s', c, base, q')
  {
    forall m | 0 <= m < |q'.subs| ensures ShowsSub(s', c, base, q', m) { assert ShowsSub(s, c, base, q, m); }
  }

  /**
   Releasing the current entry is the releasing step: it gives back the very index that polling reads from
   the buffer, to the queue the entry names.
   */
  lemma ReleaseRefines(s: F.System, c: nat, base: nat, q: Cq) returns (s': F.System)
    requires Holds(s, c, base, q)
    ensures q.cur.Some? && q.cur.value < |q.buf| && F.IsRun(s, [F.GivesBack(c)], s')
    ensures Idle(s', c, base, GiveBackCurrent(q)) && s'.reports == s.reports
    ensures var e := F.HeldCqe(s, c); var i := F.QueueOf(e);
            && i < |s.qs| && |s'.qs| == |s.qs| && e.reqId in s.qs[i].tickets
            && GiveBackCurrent(q).given == q.given + [Ref(i, e.reqId)]
            && s'.qs[i].tickets == s.qs[i].tickets - {e.reqId}
    ensures SameRequests(s, s')
  {
    hide F.Inv, BitAnd, F.QueueOf, F.IsRun, CqOk, TableShows, F.HeldValid, SomeReferenced, F.Apply, F.DoGiveBack,
      F.Enabled, AllFree;
    HeldSlot(s, c, base, q);
    HeldFields(s, c);
    ReleaseEnabled(s, c);
    SysStep(s, F.GivesBack(c));
    s' := F.Apply(s, F.GivesBack(c));
    SameSubs(s, s', c, base, q, GiveBackCurrent(q));
    SameTable(s, s', q, GiveBackCurrent(q));
    GivenOk(q);
  }

  lemma ReleaseEnabled(s: F.System, c: nat)
    requires F.Inv(s) && AllFree(s) && F.HeldValid(s, c) && s.cqs[c].reported
    ensures F.Enabled(s, F.GivesBack(c))
    ensures var s' := F.Apply(s, F.GivesBack(c)); var e := F.HeldCqe(s, c);
            && s'.subs == s.subs && s'.reports == s.reports && s'.cqs == s.cqs[c := F.NoCqe]
            && |s'.qs| == |s.qs| && AllFree(s') && F.QueueOf(e) < |s.qs|
            && s'.qs[F.QueueOf(e)].tickets == s.qs[F.QueueOf(e)].tickets - {e.reqId}
            && SameRequests(s, s')
  {
    hide F.Inv, F.QueueOf;
    F.GiveBackEventKeeps(s, c);
  }

  lemma GivenOk(q: Cq)
    requires CqOk(q) && q.cur.Some? && q.cur.value < |q.buf|
    ensures CqOk(GiveBackCurrent(q))
  {
  }

  // ---- one scan ----------------------------------------------------------------------------------

  /** Where the next scan starts and what cur_cqe says do not matter while nothing is in hand. */
  lemma NextAnyway(s: F.System, c: nat, base: nat, q: Cq, a: Cq)
    requires Idle(s, c, base, q) && a == q.(next := a.next, cur := a.cur) && CqOk(a)
    ensures Idle(s, c, base, a)
  {
    hide F.Inv, CqOk, AllFree, TableShows;
    SameSubs(s, s, c, base, q, a);
    SameTable(s, s, q, a);
  }

  /** A request reported in a run from s to s', for the entry polling took. */
  ghost predicate Reported(s: F.System, s': F.System, t: Record) {
    && t.live && t.what.queue < |s.qs|
    && var qu := s.qs[t.what.queue];
    && t.what.reqId in qu.tickets && t.what.reqId < |qu.wq.wrid|
    && s'.reports ==
       s.reports + [F.Report(t.what.queue, qu.tickets[t.what.reqId], qu.wq.wrid[t.what.reqId])]
  }

  /** The steps of a scan that found something: one entry consumed, one record read. */
  predicate Takes(es: seq<F.Event>, c: nat) {
    |es| == 2 && es[0].Consumes? && es[0].c == c && es[1] == F.Reports(c)
  }

  /** The steps of a scan, by what it found. */
  predicate ScanSteps(es: seq<F.Event>, c: nat, res: Outcome) {
    match res
    case Got => Takes(es, c)
    case Nothing => es == []
    case Invalid => false
  }

  /** This report is the answer for this index: it names the request that holds it, with its own wr_id. */
  ghost predicate Answers(s: F.System, g: Ref, r: F.Report) {
    && r.queue == g.queue < |s.qs|
    && var q := s.qs[g.queue];
    && r.ticket < |q.log| && q.log[r.ticket].idx == g.reqId && q.log[r.ticket].wrId == r.wrId
    && g.reqId < |q.wq.wrid| && q.wq.wrid[g.reqId] == r.wrId
  }

  /** The steps of a poll change neither the records nor the requests of any queue. */
  ghost predicate SameRequests(s: F.System, s': F.System) {
    |s'.qs| == |s.qs| &&
    forall k {:trigger s'.qs[k]} :: 0 <= k < |s.qs| ==>
      s'.qs[k].log == s.qs[k].log && s'.qs[k].wq.wrid == s.qs[k].wq.wrid
  }

  /** The last report answers for the entry in hand. */
  ghost predicate HandAnswered(s: F.System, q: Cq) {
    && q.cur.Some? && q.cur.value < |q.buf| && s.reports != []
    && Answers(s, Ref(q.curWq, q.buf[q.cur.value].reqId), s.reports[|s.reports| - 1])
  }

  lemma ReportAnswers(s: F.System, s': F.System, t: Record)
    requires F.Inv(s) && Reported(s, s', t) && s'.qs == s.qs
    ensures s'.reports != [] && Answers(s', t.what, s'.reports[|s'.reports| - 1])
  {
    hide QM.QInv, QM.ConfigOk, QM.LogOk, QM.TodoOk, QM.CountOk, QM.RingOk, QM.DeviceOk, QM.SessionOk, F.Inv;
    F.QueueHolds(s, t.what.queue);
    QM.Parts(s.qs[t.what.queue]);
  }

  /**
   One scan of an extended poll: the consuming and reporting steps for the first wanted sub queue, or no
   step. It never meets an unknown queue pair.
   */
  lemma ScanRuns(s: F.System, c: nat, base: nat, q: Cq) returns (es: seq<F.Event>, s': F.System)
    requires Idle(s, c, base, q)
    ensures F.IsRun(s, es, s') && F.Inv(s') && ScanSteps(es, c, PollSubCqs(q, true).res)
    ensures PollSubCqs(q, true).q.given == q.given && s'.qs == s.qs
    ensures PollSubCqs(q, true).res == Nothing ==> s' == s && Idle(s, c, base, PollSubCqs(q, true).q)
    ensures PollSubCqs(q, true).res == Got ==>
              && Holds(s', c, base, PollSubCqs(q, true).q) && HandAnswered(s', PollSubCqs(q, true).q)
              && |s'.reports| == |s.reports| + 1 && s.reports == s'.reports[..|s.reports|]
  {
    hide F.Inv, F.IsRun, Scan, PollSub, FirstWanted, Wanted, Holds, F.QueueOf, ShowsSubs, TableShows, AllFree, SlotOf;
    var n, r := |q.subs|, PollSubCqs(q, true);
    if n == 0 {
      es, s' := [], s;
      NoSteps(s);
      ScanEnds(q, true);
    } else {
      var k := FirstWanted(q, n);
      ScanServesFirst(q, n, true);
      if k == n {
        es, s' := [], s;
        NoSteps(s);
        NextAnyway(s, c, base, q, r.q);
      } else {
        FirstWantedMeans(q, n);
        var a, i := Advance(q, k + 1), Turn(q, k);
        WantedAnyway(q, a);
        NextAnyway(s, c, base, q, a);
        s' := ProbeRefines(s, c, base, a, i);
        es := [F.Consumes(c, base + i), F.Reports(c)];
        GivenKept(a, i);
        var e := F.HeldCqe(s', c);
        var t := Record(Ref(F.QueueOf(e), e.reqId), true);
        assert Reported(s, s', t);
        ReportAnswers(s, s', t);
        HoldsSlot(s', c, base, r.q);
      }
    }
  }

  lemma HoldsSlot(s: F.System, c: nat, base: nat, q: Cq)
    requires Holds(s, c, base, q)
    ensures q.cur.Some? && q.cur.value < |q.buf| && F.HeldValid(s, c) && q.buf[q.cur.value] == F.HeldCqe(s, c)
    ensures q.curWq == F.QueueOf(F.HeldCqe(s, c)) && F.Inv(s)
  {
    hide F.Inv, F.QueueOf, F.HeldValid, AllFree, TableShows, CqOk;
    HeldSlot(s, c, base, q);
  }

  lemma GivenKept(q: Cq, i: nat)
    requires CqOk(q) && i < |q.subs|
    ensures PollSub(q, i, true).q.given == q.given
  {
    hide BitAnd, CurrentIndex;
  }

  // ---- the plain poll ----------------------------------------------------------------------------

  /** A plain scan is an extended one that gives back at once. */
  lemma {:induction false} PlainIsExtended(q: Cq, left: nat)
    requires CqOk(q) && left <= |q.subs|
    ensures var p, r := Scan(q, left, false), Scan(q, left, true);
            && p.res == r.res && (r.res != Got ==> p.q == r.q)
            && (r.res == Got ==> r.q.cur.Some? && r.q.cur.value < |r.q.buf| && p.q == GiveBackCurrent(r.q))
    decreases left
  {
    hide SlotOf, PollSub, Scan, CqOk;
    if left == 0 {
      ScanEnds(q, false);
      ScanEnds(q, true);
    } else {
      ScanUnfolds(q, left, false);
      ScanUnfolds(q, left, true);
      var q1 := q.(next := SlotOf(q.next + 1, |q.subs|));
      PlainProbeIsExtended(q1, q.next);
      if q.subs[q.next].refCnt == 0 {
        PlainIsExtended(q1, left - 1);
      } else if PollSub(q1, q.next, true).res == Nothing {
        PlainIsExtended(PollSub(q1, q.next, true).q, left - 1);
      }
    }
  }

  lemma PlainProbeIsExtended(q: Cq, i: nat)
    requires CqOk(q) && i < |q.subs|
    ensures var p, r := PollSub(q, i, false), PollSub(q, i, true);
            && p.res == r.res && (r.res != Got ==> p.q == r.q)
            && (r.res == Got ==> r.q.cur.Some? && r.q.cur.value < |r.q.buf| && p.q == GiveBackCurrent(r.q))
  {
    hide BitAnd, CurrentIndex, Consume;
  }

  /** One round for each completion: an entry consumed, its record read, its index given back. */
  predicate Rounds(es: seq<F.Event>, c: nat)
    decreases |es|
  {
    es == [] || (|es| >= 3 && Takes(es[..2], c) && es[2] == F.GivesBack(c) && Rounds(es[3..], c))
  }

  /** The releases after the first n are answered, one for one, by the reports after the first m. */
  ghost predicate AllAnswered(s: F.System, q: Cq, n: nat, m: nat) {
    && n <= |q.given| && m <= |s.reports| && |q.given| - n == |s.reports| - m
    && (forall p {:trigger q.given[p]} :: n <= p < |q.given| ==> Answers(s, q.given[p], s.reports[p - n + m]))
  }

  /**
   A plain poll is a run of the system, exactly of the rounds of the completions it returns: each consumes
   an entry, reads the request's wr_id and gives the index back. The k-th report carries the wr_id recorded
   under the k-th index given back, which is the one the request holding that index was posted with.
   */
  lemma {:induction false} PlainPollRefines(s: F.System, c: nat, base: nat, q: Cq, n: nat, count: nat)
    returns (es: seq<F.Event>, s': F.System)
    requires Idle(s, c, base, q)
    ensures F.IsRun(s, es, s') && Idle(s', c, base, PollLoop(q, n, count).q) && PollLoop(q, n, count).res != Invalid
    ensures Rounds(es, c) && |es| == 3 * (PollLoop(q, n, count).count - count)
    ensures var r := PollLoop(q, n, count);
            && |r.q.given| == |q.given| + (r.count - count) && q.given == r.q.given[..|q.given|]
            && |s.reports| <= |s'.reports| && s.reports == s'.reports[..|s.reports|]
            && AllAnswered(s', r.q, |q.given|, |s.reports|) && SameRequests(s, s')
    decreases n
  {
    hide F.Inv, F.IsRun, PollSubCqs, Holds, CqOk, ShowsSubs, TableShows, AllFree, Answers, SameRequests;
    if n == 0 {
      es, s' := [], s;
      NoSteps(s);
      SameSelf(s);
    } else {
      var r := PollSubCqs(q, true);
      PlainPollIsExtended(q);
      var es1, s1 := ScanRuns(s, c, base, q);
      if r.res == Nothing {
        es, s' := es1, s1;
        SameSelf(s);
      } else {
        var s2 := ReleaseHeld(s, s1, c, base, q, r.q);
        var q2 := GiveBackCurrent(r.q);
        assert PollSubCqs(q, false) == Polled(q2, Got);
        SysJoin(s, es1, s1, [F.GivesBack(c)], s2);
        var es3: seq<F.Event>;
        es3, s' := PlainPollRefines(s2, c, base, q2, n - 1, count + 1);
        SysJoin(s, es1 + [F.GivesBack(c)], s2, es3, s');
        es := es1 + [F.GivesBack(c)] + es3;
        assert es[..2] == es1 && es[3..] == es3;
        var rq := PollLoop(q, n, count).q;
        OneMore(q.given, q2.given, rq.given);
        OneMore(s.reports, s2.reports, s'.reports);
        SameTransitive(s, s2, s');
        AnswersStay(s2, s', q2.given[|q.given|], s2.reports[|s.reports|]);
      }
    }
  }

  /** So a poll that reads the system's records returns, completion for completion, what the reports say. */
  lemma ReturnedIds(s: F.System, q: Cq, n: nat, m: nat, wrid: Ref -> nat)
    requires AllAnswered(s, q, n, m)
    requires forall g: Ref :: g.queue < |s.qs| && g.reqId < |s.qs[g.queue].wq.wrid| ==>
               wrid(g) == s.qs[g.queue].wq.wrid[g.reqId]
    ensures forall p {:trigger q.given[p]} :: n <= p < |q.given| ==> wrid(q.given[p]) == s.reports[p - n + m].wrId
  {
    forall p {:trigger q.given[p]} | n <= p < |q.given| ensures wrid(q.given[p]) == s.reports[p - n + m].wrId {
      assert Answers(s, q.given[p], s.reports[p - n + m]);
    }
  }

  lemma SameSelf(s: F.System)
    ensures SameRequests(s, s)
  {
  }

  lemma SameTransitive(a: F.System, b: F.System, c: F.System)
    requires SameRequests(a, b) && SameRequests(b, c)
    ensures SameRequests(a, c)
  {
    forall k {:trigger c.qs[k]} | 0 <= k < |a.qs|
      ensures c.qs[k].log == a.qs[k].log && c.qs[k].wq.wrid == a.qs[k].wq.wrid
    {
      assert b.qs[k].log == a.qs[k].log;
    }
  }

  lemma AnswersStay(s: F.System, s': F.System, g: Ref, r: F.Report)
    requires SameRequests(s, s') && Answers(s, g, r)
    ensures Answers(s', g, r)
  {
    assert s'.qs[g.queue].log == s.qs[g.queue].log;
  }

  lemma OneMore<T>(a: seq<T>, b: seq<T>, c: seq<T>)
    requires |b| == |a| + 1 && |b| <= |c| && a == b[..|a|] && b == c[..|b|]
    ensures a == c[..|a|] && c[|a|] == b[|a|]
  {
  }

  lemma PlainPollIsExtended(q: Cq)
    requires CqOk(q)
    ensures var p, r := PollSubCqs(q, false), PollSubCqs(q, true);
            && p.res == r.res && (r.res != Got ==> p.q == r.q)
            && (r.res == Got ==> r.q.cur.Some? && r.q.cur.value < |r.q.buf| && p.q == GiveBackCurrent(r.q))
  {
    hide Scan;
    PlainIsExtended(q, |q.subs|);
  }

  /** Releasing the entry just reported. */
  lemma ReleaseHeld(s: F.System, s1: F.System, c: nat, base: nat, q: Cq, r: Cq) returns (s2: F.System)
    requires Holds(s1, c, base, r) && HandAnswered(s1, r) && s1.qs == s.qs && r.given == q.given
    requires |s1.reports| == |s.reports| + 1 && s.reports == s1.reports[..|s.reports|]
    ensures r.cur.Some? && r.cur.value < |r.buf| && F.IsRun(s1, [F.GivesBack(c)], s2)
    ensures Idle(s2, c, base, GiveBackCurrent(r)) && s2.reports == s1.reports && SameRequests(s, s2)
    ensures |GiveBackCurrent(r).given| == |q.given| + 1 && q.given == GiveBackCurrent(r).given[..|q.given|]
    ensures Answers(s2, GiveBackCurrent(r).given[|q.given|], s2.reports[|s.reports|])
  {
    hide F.Inv, F.IsRun, F.QueueOf, Idle, CqOk, Holds, Answers, SameRequests;
    s2 := ReleaseRefines(s1, c, base, r);
    HoldsSlot(s1, c, base, r);
    SameQueues(s, s1, s2);
    AnswersStay(s1, s2, Ref(r.curWq, r.buf[r.cur.value].reqId), s1.reports[|s.reports|]);
  }

  lemma SameQueues(s: F.System, s1: F.System, s2: F.System)
    requires s1.qs == s.qs && SameRequests(s1, s2)
    ensures SameRequests(s, s2)
  {
  }

  // ---- what others do in between -----------------------------------------------------------------

  /** A step of this completion queue's poller. */
  predicate Mine(e: F.Event, c: nat) {
    match e
    case Consumes(d, _) => d == c
    case Reports(d) => d == c
    case GivesBack(d) => d == c
    case _ => false
  }

  predicate NoneMine(es: seq<F.Event>, c: nat) { forall k :: 0 <= k < |es| ==> !Mine(es[k], c) }

  /** A single write into a sub queue's stretch of the buffer. */
  lemma WriteShows(s: F.System, c: nat, base: nat, q: Cq, s': F.System, j: nat, slot: nat, e: Cqe)
    returns (buf: seq<Cqe>)
    requires CqOk(q) && ShowsSubs(s, c, base, q) && j < |s.subs| && slot < |s.subs[j].buf|
    requires |s'.cqs| == |s.cqs| && |s'.subs| == |s.subs| && s'.subs == s.subs[j := s'.subs[j]]
    requires s'.subs[j].buf == s.subs[j].buf[slot := e]
    requires s'.subs[j].cq == s.subs[j].cq && s'.subs[j].host == s.subs[j].host
    ensures |buf| == |q.buf| && ShowsSubs(s', c, base, q.(buf := buf))
  {
    hide CqOk;
    if base <= j < base + |q.subs| {
      var m := j - base;
      assert ShowsSub(s, c, base, q, m);
      buf := q.buf[m * q.depth + slot := e];
      forall i | 0 <= i < |q.subs| ensures ShowsSub(s', c, base, q.(buf := buf), i) {
        WriteShowsSub(s, c, base, q, s', i, m, slot, e);
      }
    } else {
      buf := q.buf;
      forall i | 0 <= i < |q.subs| ensures ShowsSub(s', c, base, q.(buf := buf), i) {
        assert ShowsSub(s, c, base, q, i);
      }
    }
  }

  lemma WriteShowsSub(s: F.System, c: nat, base: nat, q: Cq, s': F.System, i: nat, m: nat, slot: nat, e: Cqe)
    requires m < |q.subs| && i < |q.subs| && ShowsSub(s, c, base, q, i) && ShowsSub(s, c, base, q, m) && slot < q.depth
    requires |s'.subs| == |s.subs| && s'.subs == s.subs[base + m := s'.subs[base + m]]
    requires s'.subs[base + m].buf == s.subs[base + m].buf[slot := e]
    requires s'.subs[base + m].cq == s.subs[base + m].cq && s'.subs[base + m].host == s.subs[base + m].host
    requires m * q.depth + slot < |q.buf|
    ensures ShowsSub(s', c, base, q.(buf := q.buf[m * q.depth + slot := e]), i)
  {
    hide Stretch;
    StretchWritten(q.buf, q.depth, i, m, slot, e, s.subs[base + i].buf, s'.subs[base + i].buf);
  }

  lemma StretchWritten(buf: seq<Cqe>, depth: nat, i: nat, m: nat, slot: nat, e: Cqe, a: seq<Cqe>, b: seq<Cqe>)
    requires |a| == |b| == depth && slot < depth && m * depth + slot < |buf| && Stretch(buf, i * depth, a)
    requires b == if i == m then a[slot := e] else a
    ensures Stretch(buf[m * depth + slot := e], i * depth, b)
  {
    forall k {:trigger b[k]} | 0 <= k < depth ensures buf[m * depth + slot := e][i * depth + k] == b[k] {
      StretchesApart(i, k, m, slot, depth);
    }
  }

  lemma StretchesApart(i: nat, k: nat, m: nat, slot: nat, depth: nat)
    requires slot < depth && k < depth
    ensures i * depth + k == m * depth + slot <==> i == m && k == slot
  {
    if i < m { MulMonotone(i + 1, m, depth); assert (i + 1) * depth == i * depth + depth; }
    if m < i { MulMonotone(m + 1, i, depth); assert (m + 1) * depth == m * depth + depth; }
  }

  /** A step of anybody else changes entries of the buffer at most, and not the one in hand. */
  lemma OtherStep(s: F.System, c: nat, base: nat, q: Cq, e: F.Event) returns (buf: seq<Cqe>)
    requires F.Inv(s) && CqOk(q) && ShowsSubs(s, c, base, q) && F.Enabled(s, e) && !Mine(e, c)
    ensures var s' := F.Apply(s, e);
            && |buf| == |q.buf| && ShowsSubs(s', c, base, q.(buf := buf))
            && |s'.qs| == |s.qs| && c < |s'.cqs| && s'.cqs[c] == s.cqs[c]
  {
    hide F.Inv, F.QueueOf, CqOk, BitAnd, F.QApply, F.QEnabled;
    match e
    case OnQueue(i, step) =>
      buf := q.buf;
      SameSubs(s, F.Apply(s, e), c, base, q, q);
    case Completes(i, idx) =>
      F.CompleteKeeps(s, i, idx);
      var j := s.qs[i].sub;
      var u := s.subs[j];
      buf := WriteShows(s, c, base, q, F.Apply(s, e), j, SlotOf(|u.prod|, |u.buf|), CompletedCqe(s, i, idx));
    case Consumes(d, j) =>
      buf := q.buf;
      F.ConsumeEventKeeps(s, d, j);
      NowHolding(s, d, j);
      forall i | 0 <= i < |q.subs| ensures ShowsSub(F.Apply(s, e), c, base, q, i) {
        assert ShowsSub(s, c, base, q, i);
      }
    case Reports(d) =>
      buf := q.buf;
      F.ReportEventKeeps(s, d);
      SameSubs(s, F.Apply(s, e), c, base, q, q);
    case GivesBack(d) =>
      buf := q.buf;
      F.GiveBackEventKeeps(s, d);
      SameSubs(s, F.Apply(s, e), c, base, q, q);
  }

  ghost function CompletedCqe(s: F.System, i: nat, idx: nat): Cqe
    requires i < |s.qs| && s.qs[i].sub < |s.subs| && 0 < |s.subs[s.qs[i].sub].buf|
  {
    var u := s.subs[s.qs[i].sub];
    F.CqeFor(i, idx, PhaseAt(|u.prod|, |u.buf|))
  }

  /** Likewise any run of others' steps. */
  lemma {:induction false} OthersRun(s: F.System, c: nat, base: nat, q: Cq, es: seq<F.Event>, s': F.System)
    returns (buf: seq<Cqe>)
    requires F.Inv(s) && CqOk(q) && ShowsSubs(s, c, base, q) && F.IsRun(s, es, s') && NoneMine(es, c)
    ensures F.Inv(s') && |buf| == |q.buf| && ShowsSubs(s', c, base, q.(buf := buf))
    ensures |s'.qs| == |s.qs| && c < |s'.cqs| && s'.cqs[c] == s.cqs[c]
    ensures s.cqs[c].Holding? ==> F.HeldValid(s, c) && F.HeldValid(s', c) && F.HeldCqe(s', c) == F.HeldCqe(s, c)
    decreases |es|
  {
    hide F.Inv, F.Enabled, F.Apply, F.HeldValid, ShowsSub, Mine;
    if s.cqs[c].Holding? { F.HeldEntry(s, c); }
    if es == [] {
      buf := q.buf;
    } else {
      var e := es[0];
      var s1 := F.Apply(s, e);
      assert !Mine(e, c);
      F.ApplyKeeps(s, e);
      var buf1 := OtherStep(s, c, base, q, e);
      if s.cqs[c].Holding? {
        NotMine(e, c);
        F.HeldUntouched(s, e, c);
      }
      BufOk(q, buf1);
      buf := OthersRun(s1, c, base, q.(buf := buf1), es[1..], s');
    }
  }

  lemma NotMine(e: F.Event, c: nat)
    requires !Mine(e, c)
    ensures e != F.GivesBack(c)
  {
  }

  lemma BufOk(q: Cq, buf: seq<Cqe>)
    requires CqOk(q) && |buf| == |q.buf|
    ensures CqOk(q.(buf := buf))
  {
  }

  /** The world as the system shows it: its buffer, with the table as it was. */
  ghost predicate WorldIs(s: F.System, c: nat, base: nat, q: Cq, w: World) {
    CqOk(q) && WorldOk(q, w) && w.table == q.table && ShowsSubs(s, c, base, q.(buf := w.buf))
  }

  /** With an entry in hand, others' steps are a change of the world as polling understands it. */
  lemma HoldsInWorld(s: F.System, c: nat, base: nat, q: Cq, es: seq<F.Event>, s': F.System) returns (w: World)
    requires Holds(s, c, base, q) && F.IsRun(s, es, s') && NoneMine(es, c) && AllFree(s')
    ensures WorldIs(s', c, base, q, w) && Holds(s', c, base, InWorld(q, w))
  {
    hide F.Inv, F.IsRun, F.HeldValid, CqOk, F.QueueOf, AllFree, ShowsSubs, BitAnd;
    HeldFields(s, c);
    var buf := OthersRun(s, c, base, q, es, s');
    w := World(buf, q.table);
    HeldSlot(s, c, base, q);
    BufOk(q, buf);
    var q' := q.(buf := buf);
    assert SameHand(s', c, base, q');
    HeldSlot(s', c, base, q');
    SameTable(s, s', q, q');
  }

  /** Without one, too. */
  lemma IdleInWorld(s: F.System, c: nat, base: nat, q: Cq, es: seq<F.Event>, s': F.System) returns (w: World)
    requires Idle(s, c, base, q) && q.cur.None? && F.IsRun(s, es, s') && NoneMine(es, c) && AllFree(s')
    ensures WorldIs(s', c, base, q, w) && Idle(s', c, base, InWorld(q, w)) && InWorld(q, w).cur.None?
  {
    hide F.Inv, F.IsRun, CqOk, AllFree, ShowsSubs, BitAnd;
    var buf := OthersRun(s, c, base, q, es, s');
    w := World(buf, q.table);
    BufOk(q, buf);
    SameTable(s, s', q, q.(buf := buf));
  }

  // ---- the extended poll -------------------------------------------------------------------------

  /** What others do at each turn, whatever the state: steps of their own that leave every lock free. */
  type Environment = (nat, F.System) -> seq<F.Event>

  ghost predicate Fair(s: F.System, es: seq<F.Event>, c: nat)
    requires F.Inv(s)
  {
    NoneMine(es, c) && exists s' :: F.IsRun(s, es, s') && AllFree(s')
  }

  ghost predicate Others(env: Environment, c: nat) {
    forall t, s :: F.Inv(s) && AllFree(s) ==> Fair(s, env(t, s), c)
  }

  lemma OthersMove(s: F.System, c: nat, env: Environment, t: nat) returns (s': F.System)
    requires F.Inv(s) && AllFree(s) && Others(env, c)
    ensures F.IsRun(s, env(t, s), s') && AllFree(s') && NoneMine(env(t, s), c) && F.Inv(s')
  {
    hide F.Inv, F.IsRun;
    assert Fair(s, env(t, s), c);
    s' :| F.IsRun(s, env(t, s), s') && AllFree(s');
    F.RunKeeps(s, env(t, s), s');
  }

  /** Between the calls of an open poll: an entry in hand, or the last poll found nothing. */
  ghost predicate Open(s: F.System, c: nat, base: nat, q: Cq) {
    Holds(s, c, base, q) || (Idle(s, c, base, q) && q.cur.None?)
  }

  /** One next_poll: the releasing step, then those of the scan. */
  lemma NextRuns(s: F.System, c: nat, base: nat, q: Cq) returns (scan: seq<F.Event>, s': F.System)
    requires Holds(s, c, base, q)
    ensures CqOk(q) && q.cur.Some? && F.IsRun(s, [F.GivesBack(c)] + scan, s') && F.Inv(s')
    ensures ScanSteps(scan, c, NextPoll(q).res)
    ensures NextPoll(q).res == Got ==>
              Holds(s', c, base, NextPoll(q).q) && NextPoll(q).q.cur.Some? && HandAnswered(s', NextPoll(q).q)
    ensures NextPoll(q).res == Nothing ==> Idle(s', c, base, NextPoll(q).q) && NextPoll(q).q.cur.None?
  {
    hide F.Inv, F.IsRun, PollSubCqs, SameHand, ShowsSubs, TableShows, AllFree, CqOk, HandAnswered, SameRequests;
    var s1 := ReleaseRefines(s, c, base, q);
    scan, s' := ScanRuns(s1, c, base, GiveBackCurrent(q));
    SysJoin(s, [F.GivesBack(c)], s1, scan, s');
    if NextPoll(q).res == Got {
      HandSome(s', c, base, NextPoll(q).q);
    } else {
      EmptyPollClears(GiveBackCurrent(q));
    }
  }

  lemma HandSome(s: F.System, c: nat, base: nat, q: Cq)
    requires SameHand(s, c, base, q)
    ensures q.cur.Some?
  {
  }

  /** One turn of an open poll: others move, which makes a world; then the scan's steps follow the release. */
  datatype NextTurn = NextTurn(others: seq<F.Event>, moved: F.System, world: World, scan: seq<F.Event>, end: F.System)

  function TurnEvents(t: NextTurn, c: nat): seq<F.Event> { t.others + [F.GivesBack(c)] + t.scan }

  function AllEvents(ts: seq<NextTurn>, c: nat): seq<F.Event> {
    if ts == [] then [] else TurnEvents(ts[0], c) + AllEvents(ts[1..], c)
  }

  function Worlds(ts: seq<NextTurn>): (ws: seq<World>)
    ensures |ws| == |ts|
  {
    if ts == [] then [] else [ts[0].world] + Worlds(ts[1..])
  }

  /**
   A turn from state s: others take exactly the steps `others`; the world next_poll then meets is what the
   system shows; it releases the entry in hand and scans, and an entry it finds is reported with the wr_id
   of its request.
   */
  ghost predicate TurnOk(s: F.System, c: nat, base: nat, q: Cq, others: seq<F.Event>, t: NextTurn) {
    && F.Inv(s) && t.others == others && NoneMine(others, c) && F.IsRun(s, others, t.moved) && F.Inv(t.moved)
    && q.cur.Some? && WorldIs(t.moved, c, base, q, t.world)
    && F.IsRun(t.moved, [F.GivesBack(c)] + t.scan, t.end) && F.Inv(t.end)
    && var r := NextPoll(InWorld(q, t.world));
    && ScanSteps(t.scan, c, r.res)
    && (r.res == Got ==> Holds(t.end, c, base, r.q) && HandAnswered(t.end, r.q))
    && (r.res == Nothing ==> Idle(t.end, c, base, r.q) && r.q.cur.None?)
  }

  /**
   The next polls of an open poll, n of them unless one finds nothing before: at each the environment takes
   its steps for that turn in that state, and next_poll follows.
   */
  ghost predicate Turns(s: F.System, c: nat, base: nat, q: Cq, n: nat, env: Environment, ts: seq<NextTurn>,
                        s': F.System)
    decreases n
  {
    if n == 0 then ts == [] && s' == s
    else
      && ts != [] && TurnOk(s, c, base, q, env(n, s), ts[0])
      && var r := NextPoll(InWorld(q, ts[0].world));
      && if r.res == Got then Turns(ts[0].end, c, base, r.q, n - 1, env, ts[1..], s')
         else ts[1..] == [] && s' == ts[0].end
  }

  /** Next polls, others moving before each, are a run of the system. */
  lemma {:induction false} NextsRuns(s: F.System, c: nat, base: nat, q: Cq, n: nat, env: Environment)
    returns (ts: seq<NextTurn>, s': F.System)
    requires Holds(s, c, base, q) && Others(env, c)
    ensures CqOk(q) && q.cur.Some? && Turns(s, c, base, q, n, env, ts, s')
    ensures F.IsRun(s, AllEvents(ts, c), s') && Open(s', c, base, Nexts(q, Worlds(ts)))
    ensures Nexts(q, Worlds(ts)).cur.Some? ==> |ts| == n
    decreases n
  {
    hide F.Inv, F.IsRun, NextPoll, InWorld, SameHand, ShowsSubs, TableShows, AllFree, CqOk, Others, HandAnswered,
      WorldIs;
    HandSome(s, c, base, q);
    if n == 0 {
      ts, s' := [], s;
      NoSteps(s);
    } else {
      var t, d := OneTurn(s, c, base, q, n, env);
      WorldsStep(t, []);
      if NextPoll(d).res == Got {
        var ts3;
        ts3, s' := NextsRuns(t.end, c, base, NextPoll(d).q, n - 1, env);
        ts := [t] + ts3;
        SysJoin(s, TurnEvents(t, c), t.end, AllEvents(ts3, c), s');
        assert ts[1..] == ts3;
        assert Worlds(ts)[1..] == Worlds(ts3);
      } else {
        ts, s' := [t], t.end;
        assert AllEvents(ts, c) == TurnEvents(t, c) by { assert ts[1..] == []; }
        assert Worlds(ts) == [t.world];
        assert Nexts(q, Worlds(ts)) == NextPoll(d).q;
      }
    }
  }

  lemma WorldsStep(t: NextTurn, ts: seq<NextTurn>)
    ensures Worlds([t] + ts) == [t.world] + Worlds(ts)
  {
    assert ([t] + ts)[1..] == ts;
  }

  lemma OneTurn(s: F.System, c: nat, base: nat, q: Cq, n: nat, env: Environment) returns (t: NextTurn, d: Cq)
    requires Holds(s, c, base, q) && Others(env, c)
    ensures CqOk(q) && q.cur.Some? && TurnOk(s, c, base, q, env(n, s), t) && d == InWorld(q, t.world)
    ensures d.cur.Some? && F.Inv(t.end) && F.IsRun(s, TurnEvents(t, c), t.end) && NextPoll(d).res != Invalid
    ensures NextPoll(d).res == Got ==> Holds(t.end, c, base, NextPoll(d).q) && NextPoll(d).q.cur.Some?
    ensures NextPoll(d).res == Nothing ==> Idle(t.end, c, base, NextPoll(d).q) && NextPoll(d).q.cur.None?
  {
    hide F.Inv, F.IsRun, NextPoll, InWorld, SameHand, ShowsSubs, TableShows, AllFree, CqOk, Others, HandAnswered,
      WorldIs;
    HandSome(s, c, base, q);
    var s1 := OthersMove(s, c, env, n);
    var w := HoldsInWorld(s, c, base, q, env(n, s), s1);
    d := InWorld(q, w);
    HandSome(s1, c, base, d);
    var scan, s2 := NextRuns(s1, c, base, d);
    SysJoin(s, env(n, s), s1, [F.GivesBack(c)] + scan, s2);
    t := NextTurn(env(n, s), s1, w, scan, s2);
    assert TurnEvents(t, c) == env(n, s) + ([F.GivesBack(c)] + scan);
  }

  /** A whole extended poll: its start, its turns, others' last steps, and its end. */
  datatype Whole = Whole(start: seq<F.Event>, begun: F.System, turns: seq<NextTurn>, closing: F.System,
                         others: seq<F.Event>, moved: F.System, last: World, release: seq<F.Event>, end: F.System)

  function WholeEvents(x: Whole, c: nat): seq<F.Event> {
    x.start + AllEvents(x.turns, c) + x.others + x.release
  }

  /**
   The run of an extended poll with up to n next polls: start_poll takes and reports an entry; the turns
   follow as long as next_poll finds something; others move once more; end_poll releases an entry that is
   still in hand.
   */
  ghost predicate WholeOk(s: F.System, c: nat, base: nat, q: Cq, n: nat, env: Environment, x: Whole) {
    && F.Inv(s) && CqOk(q) && Takes(x.start, c) && F.IsRun(s, x.start, x.begun)
    && StartPoll(q, 0).q.cur.Some? && HandAnswered(x.begun, StartPoll(q, 0).q)
    && Turns(x.begun, c, base, StartPoll(q, 0).q, n, env, x.turns, x.closing)
    && F.Inv(x.closing) && x.others == env(0, x.closing) && NoneMine(x.others, c)
    && F.IsRun(x.closing, x.others, x.moved) && F.Inv(x.moved)
    && var e := Nexts(StartPoll(q, 0).q, Worlds(x.turns));
    && WorldIs(x.moved, c, base, e, x.last)
    && x.release == (if e.cur.Some? then [F.GivesBack(c)] else [])
    && F.IsRun(x.moved, x.release, x.end)
  }

  /**
   An extended poll, from a start that found an entry over its next polls to its end, is exactly such a run
   of the system, whatever steps others take in between and however many next polls are made; and at its
   end nothing is in hand.
   */
  lemma ExtendedPollRefines(s: F.System, c: nat, base: nat, q: Cq, n: nat, env: Environment) returns (x: Whole)
    requires Idle(s, c, base, q) && Others(env, c) && StartPoll(q, 0).res == Got
    ensures WholeOk(s, c, base, q, n, env, x) && F.IsRun(s, WholeEvents(x, c), x.end)
    ensures Idle(x.end, c, base, ExtendedPoll(q, Worlds(x.turns), x.last))
    ensures Nexts(StartPoll(q, 0).q, Worlds(x.turns)).cur.Some? ==> |x.turns| == n
  {
    hide F.Inv, F.IsRun, PollSubCqs, InWorld, SameHand, ShowsSubs, TableShows, AllFree, CqOk, Others, Nexts, Turns,
      HandAnswered, WorldIs, SameRequests;
    var q0 := q.(locked := true);
    LockAnyway(s, c, base, q, q0);
    var start, s1 := ScanRuns(s, c, base, q0);
    var r := StartPoll(q, 0).q;
    HandSome(s1, c, base, r);
    var ts, s2 := NextsRuns(s1, c, base, r, n, env);
    SysJoin(s, start, s1, AllEvents(ts, c), s2);
    var e := Nexts(r, Worlds(ts));
    var s3 := OthersMove(s2, c, env, 0);
    SysJoin(s, start + AllEvents(ts, c), s2, env(0, s2), s3);
    var es := start + AllEvents(ts, c) + env(0, s2);
    if e.cur.Some? {
      var last := HoldsInWorld(s2, c, base, e, env(0, s2), s3);
      var d := InWorld(e, last);
      var s4 := ReleaseRefines(s3, c, base, d);
      SysJoin(s, es, s3, [F.GivesBack(c)], s4);
      LockAnyway(s4, c, base, GiveBackCurrent(d), EndPoll(d));
      x := Whole(start, s1, ts, s2, env(0, s2), s3, last, [F.GivesBack(c)], s4);
      HandSome(s3, c, base, d);
    } else {
      HandSomeNot(s2, c, base, e);
      var last := IdleInWorld(s2, c, base, e, env(0, s2), s3);
      NoSteps(s3);
      LockAnyway(s3, c, base, InWorld(e, last), EndPoll(InWorld(e, last)));
      x := Whole(start, s1, ts, s2, env(0, s2), s3, last, [], s3);
      assert es + [] == es;
    }
  }

  lemma HandSomeNot(s: F.System, c: nat, base: nat, q: Cq)
    requires q.cur.None?
    ensures !SameHand(s, c, base, q)
  {
  }

  lemma LockAnyway(s: F.System, c: nat, base: nat, q: Cq, q': Cq)
    requires Idle(s, c, base, q) && q' == q.(locked := q'.locked)
    ensures Idle(s, c, base, q')
  {
    hide F.Inv, AllFree, BitAnd;
    SameSubs(s, s, c, base, q, q');
    SameTable(s, s, q, q');
  }
}
