/** The poll calls an application makes: the plain poll, and start/next/end of the extended one. */
module ExtendedPolling {
  import opened Words
  import opened CompletionRing
  import opened Polling

  // ---- plain polling -----------------------------------------------------------------------------

  datatype Many = Many(q: Cq, count: nat, res: Outcome)

  /** The loop of efa_poll_cq, with room for n more completions. */
  function PollLoop(q: Cq, n: nat, count: nat): (r: Many)
    requires CqOk(q)
    ensures CqOk(r.q) && count <= r.count <= count + n
    decreases n
  {
    if n == 0 then Many(q, count, Got)
    else
      var r := PollSubCqs(q, false);
      if r.res != Got then Many(r.q, count, r.res) else PollLoop(r.q, n - 1, count + 1)
  }

  const EINVAL_CODE := 22

  /** What efa_poll_cq returns: the number of completions, or 0, or a negative error if there are none. */
  function PollCqResult(m: Many): int {
    if m.count > 0 then m.count else if m.res == Invalid then -EINVAL_CODE else 0
  }

  /** Fewer completions than there was room for: an unknown queue pair, or every referenced sub queue is empty. */
  lemma {:induction false} ShortPollMeansEmpty(q: Cq, n: nat, count: nat)
    requires CqOk(q)
    ensures var r := PollLoop(q, n, count);
            && r.q.subs != [] && r.count < count + n ==>
              (r.res == Nothing && forall i :: 0 <= i < |r.q.subs| ==> !Wanted(r.q, i)) || r.res == Invalid
    decreases n
  {
    hide PollSubCqs, Wanted;
    if n > 0 {
      var r := PollSubCqs(q, false);
      if r.res == Got {
        ShortPollMeansEmpty(r.q, n - 1, count + 1);
      } else if r.res == Nothing && r.q.subs != [] {
        EmptyAfter(q, false);
      }
    }
  }

  lemma EmptyAfter(q: Cq, extended: bool)
    requires CqOk(q) && PollSubCqs(q, extended).res == Nothing && PollSubCqs(q, extended).q.subs != []
    ensures forall i :: 0 <= i < |PollSubCqs(q, extended).q.subs| ==> !Wanted(PollSubCqs(q, extended).q, i)
  {
    hide Scan, Wanted;
    SubsStay(q, |q.subs|, extended);
    NothingMeansEmpty(q, extended);
    WantedAnyway(q, PollSubCqs(q, extended).q);
  }

  /** A scan changes neither the number of sub queues nor any reference count, table or buffer entry. */
  lemma {:induction false} SubsStay(q: Cq, left: nat, extended: bool)
    requires CqOk(q) && left <= |q.subs|
    ensures var r := Scan(q, left, extended).q;
            && |r.subs| == |q.subs| && r.table == q.table && r.buf == q.buf && r.locked == q.locked
            && (forall i :: 0 <= i < |q.subs| ==> r.subs[i].refCnt == q.subs[i].refCnt)
    decreases left
  {
    hide SlotOf, PollSub;
    if left > 0 {
      var i, q1 := q.next, q.(next := SlotOf(q.next + 1, |q.subs|));
      PollSubStays(q1, i, extended);
      if q.subs[i].refCnt == 0 {
        SubsStay(q1, left - 1, extended);
      } else if PollSub(q1, i, extended).res == Nothing {
        SubsStay(PollSub(q1, i, extended).q, left - 1, extended);
      }
    }
  }

  lemma PollSubStays(q: Cq, i: nat, extended: bool)
    requires CqOk(q) && i < |q.subs|
    ensures var r := PollSub(q, i, extended).q;
            && |r.subs| == |q.subs| && r.table == q.table && r.buf == q.buf && r.locked == q.locked
            && (forall i :: 0 <= i < |q.subs| ==> r.subs[i].refCnt == q.subs[i].refCnt)
  {
    hide BitAnd;
  }

  // ---- extended polling --------------------------------------------------------------------------

  /** efa_start_poll: the lock is kept exactly when an entry was found. */
  function StartPoll(q: Cq, compMask: nat): (r: Polled)
    requires CqOk(q)
    ensures CqOk(r.q)
  {
    if compMask != 0 then Polled(q, Invalid)
    else
      var r := PollSubCqs(q.(locked := true), true);
      if r.res != Got then Polled(r.q.(locked := false), r.res) else r
  }

  /** efa_next_poll, called after a poll that found an entry. */
  function NextPoll(q: Cq): (r: Polled)
    requires CqOk(q) && q.cur.Some?
    ensures CqOk(r.q)
  {
    PollSubCqs(GiveBackCurrent(q), true)
  }

  /** efa_end_poll. */
  function EndPoll(q: Cq): Cq
    requires CqOk(q)
  {
    (if q.cur.Some? then GiveBackCurrent(q) else q).(locked := false)
  }

  /** A queue pair sits in the slot its number selects. */
  ghost predicate TableOk(q: Cq) {
    && 0 < |q.table|
    && forall s :: 0 <= s < |q.table| && q.table[s].Some? ==> BitAnd(q.table[s].value, |q.table| - 1) == s
  }

  /** What the rest of the system can change while the lock is held: the entries and the queue-pair table. */
  datatype World = World(buf: seq<Cqe>, table: seq<Option<nat>>)

  /** The current queue is that of a live queue pair. */
  predicate CurrentLive(q: Cq)
    requires 0 < |q.table|
  {
    Lookup(q, q.curWq / 2) == Some(q.curWq / 2)
  }

  /**
   The device writes anywhere but where the poller points; queue pairs come and go in the table, except
   the current one, since destroying it needs this completion queue's lock.
   */
  ghost predicate WorldOk(q: Cq, w: World) {
    && |w.buf| == |q.buf| && (q.cur.Some? && q.cur.value < |q.buf| ==> w.buf[q.cur.value] == q.buf[q.cur.value])
    && |w.table| == |q.table| && TableOk(q.(table := w.table))
    && (0 < |q.table| && CurrentLive(q) ==> CurrentLive(q.(table := w.table)))
  }

  ghost function InWorld(q: Cq, w: World): (r: Cq)
    requires CqOk(q)
    ensures CqOk(r)
  {
    if WorldOk(q, w) then q.(buf := w.buf, table := w.table) else q
  }

  /** Next polls, each in a changed world, until one finds nothing or the application stops. */
  ghost function Nexts(q: Cq, ws: seq<World>): (r: Cq)
    requires CqOk(q) && q.cur.Some?
    ensures CqOk(r)
    decreases |ws|
  {
    if ws == [] then q
    else
      var r := NextPoll(InWorld(q, ws[0]));
      if r.res == Got && r.q.cur.Some? then Nexts(r.q, ws[1..]) else r.q
  }

  /** start, next* and end. */
  ghost function ExtendedPoll(q: Cq, ws: seq<World>, last: World): Cq
    requires CqOk(q) && StartPoll(q, 0).q.cur.Some?
  {
    EndPoll(InWorld(Nexts(StartPoll(q, 0).q, ws), last))
  }

  ghost predicate SomeReferenced(q: Cq) { exists i :: 0 <= i < |q.subs| && q.subs[i].refCnt > 0 }

  /** A release goes to the queue the entry it is for names exactly if that queue pair is live. */
  predicate Settles(t: Record, g: Ref) { g == t.what <==> t.live }

  /** The releases after the first n match the entries consumed after the first m, one for one. */
  ghost predicate Balanced(q: Cq, n: nat, m: nat) {
    && n <= |q.given| && m <= |q.taken| && |q.given| - n <= |q.taken| - m
    && (forall p {:trigger q.given[p]} :: n <= p < |q.given| ==> Settles(q.taken[p - n + m], q.given[p]))
  }

  /** The entry in hand is the last one consumed, and releasing it settles it. */
  ghost predicate LastInHand(q: Cq) {
    && q.cur.Some? && q.cur.value < |q.buf| && q.taken != []
    && Settles(q.taken[|q.taken| - 1], Ref(q.curWq, q.buf[q.cur.value].reqId))
  }

  /** Between polls: one entry is in hand, everything before it has been released. */
  ghost predicate InHand(q: Cq, n: nat, m: nat) {
    && CqOk(q) && TableOk(q) && SomeReferenced(q) && q.locked
    && Balanced(q, n, m) && |q.taken| - m == |q.given| - n + 1
    && LastInHand(q) && CurrentLive(q)
  }

  /** After a poll that did not find an entry of a known queue pair. */
  ghost predicate AtEnd(q: Cq, n: nat, m: nat) {
    && CqOk(q) && TableOk(q) && q.locked && Balanced(q, n, m) && m < |q.taken|
    && (q.cur.None? ==> |q.taken| - m == |q.given| - n)
    && (q.cur.Some? ==> |q.taken| - m == |q.given| - n + 1 && LastInHand(q))
  }

  /** What one probe of a wanted sub queue does to the books. */
  lemma ProbeBalances(q: Cq, i: nat, n: nat, m: nat)
    requires CqOk(q) && TableOk(q) && i < |q.subs| && Wanted(q, i) && q.locked
    requires Balanced(q, n, m) && |q.taken| - m == |q.given| - n
    ensures PollSub(q, i, true).res == Got ==> InHand(PollSub(q, i, true).q, n, m)
    ensures PollSub(q, i, true).res == Invalid && CurrentLive(q) ==> AtEnd(PollSub(q, i, true).q, n, m)
  {
    hide SlotOf, CurrentIndex, BitAnd;
    HeadInBounds(q, i);
    var r := PollSub(q, i, true).q;
    var c := q.buf[Head(q, i)];
    assert r.taken == q.taken + [Taking(q, c)] && r.buf[r.cur.value] == c;
    assert r.subs[i].refCnt > 0;
  }

  /** A scan that finds nothing leaves no current entry, because it probed some referenced sub queue. */
  lemma {:induction false} ScanClears(q: Cq, left: nat, extended: bool)
    requires CqOk(q) && q.subs != [] && left <= |q.subs| && Scan(q, left, extended).res == Nothing
    ensures q.cur.None? ==> Scan(q, left, extended).q.cur.None?
    ensures forall m :: 0 <= m < left && q.subs[Turn(q, m)].refCnt > 0 ==> Scan(q, left, extended).q.cur.None?
    decreases left
  {
    hide SlotOf, PollSub, Wanted;
    if left > 0 {
      var q1 := Advance(q, 1);
      TurnAfter(q, 0);
      VisitSub(q1, q.next, extended);
      var q2 := if q.subs[q.next].refCnt == 0 then q1 else q1.(cur := None);
      assert Scan(q, left, extended) == Scan(q2, left - 1, extended);
      ScanClears(q2, left - 1, extended);
      forall m | 0 <= m < left && q.subs[Turn(q, m)].refCnt > 0 ensures Scan(q, left, extended).q.cur.None? {
        if m > 0 { TurnAfter(q, m - 1); assert Turn(q2, m - 1) == Turn(q, m); }
      }
    }
  }

  lemma EmptyPollClears(q: Cq)
    requires CqOk(q) && SomeReferenced(q) && PollSubCqs(q, true).res == Nothing
    ensures PollSubCqs(q, true).q == q.(cur := None)
  {
    hide SlotOf, Scan, Wanted;
    var i :| 0 <= i < |q.subs| && q.subs[i].refCnt > 0;
    SomeTurn(q, i);
    ScanClears(q, |q.subs|, true);
    NothingMeansEmpty(q, true);
  }

  /** A poll that holds nothing keeps the books. */
  lemma PollBalances(q: Cq, n: nat, m: nat)
    requires CqOk(q) && TableOk(q) && SomeReferenced(q) && q.locked
    requires Balanced(q, n, m) && |q.taken| - m == |q.given| - n
    ensures PollSubCqs(q, true).res == Got ==> InHand(PollSubCqs(q, true).q, n, m)
    ensures PollSubCqs(q, true).res != Got && m < |q.taken| && CurrentLive(q) ==> AtEnd(PollSubCqs(q, true).q, n, m)
  {
    hide SlotOf, Scan, PollSub, Wanted, BitAnd, FirstWanted, Settles;
    var size := |q.subs|;
    var k := FirstWanted(q, size);
    ScanServesFirst(q, size, true);
    if k == size {
      EmptyPollClears(q);
    } else {
      FirstWantedMeans(q, size);
      var a, i := Advance(q, k + 1), Turn(q, k);
      WantedAnyway(q, a);
      ProbeBalances(a, i, n, m);
    }
  }

  /** Giving back the entry in hand settles the books. */
  lemma GiveBackBalances(q: Cq, n: nat, m: nat)
    requires CqOk(q) && Balanced(q, n, m) && |q.taken| - m == |q.given| - n + 1 && LastInHand(q)
    ensures Balanced(GiveBackCurrent(q), n, m)
  {
  }

  lemma NextBalances(q: Cq, n: nat, m: nat)
    requires InHand(q, n, m)
    ensures NextPoll(q).res == Got ==> InHand(NextPoll(q).q, n, m)
    ensures NextPoll(q).res != Got ==> AtEnd(NextPoll(q).q, n, m)
  {
    hide SlotOf, PollSubCqs, Settles, BitAnd;
    GiveBackBalances(q, n, m);
    PollBalances(GiveBackCurrent(q), n, m);
  }

  lemma WorldKeepsBooks(q: Cq, w: World, n: nat, m: nat)
    requires CqOk(q)
    ensures InHand(q, n, m) ==> InHand(InWorld(q, w), n, m)
    ensures AtEnd(q, n, m) ==> AtEnd(InWorld(q, w), n, m)
  {
    hide BitAnd, Settles;
  }

  lemma HandIsEnd(q: Cq, n: nat, m: nat)
    requires InHand(q, n, m)
    ensures AtEnd(q, n, m)
  {
  }

  lemma {:induction false} NextsBalance(q: Cq, ws: seq<World>, n: nat, m: nat)
    requires InHand(q, n, m)
    ensures CqOk(q) && q.cur.Some? && AtEnd(Nexts(q, ws), n, m)
    decreases |ws|
  {
    hide InHand, AtEnd, NextPoll, InWorld;
    HandIsEnd(q, n, m);
    InHandHolds(q, n, m);
    if ws != [] {
      var d := InWorld(q, ws[0]);
      WorldKeepsBooks(q, ws[0], n, m);
      NextBalances(d, n, m);
      InHandHolds(d, n, m);
      var r := NextPoll(d);
      if r.res == Got {
        InHandHolds(r.q, n, m);
        NextsBalance(r.q, ws[1..], n, m);
      }
    }
  }

  lemma InHandHolds(q: Cq, n: nat, m: nat)
    ensures InHand(q, n, m) ==> CqOk(q) && q.cur.Some?
  {
  }

  /**
   start_poll returns with the lock held exactly when it found an entry, and refuses a compatibility mask
   without touching the queue.
   */
  lemma StartPollLock(q: Cq, compMask: nat)
    requires CqOk(q) && !q.locked
    ensures compMask != 0 ==> StartPoll(q, compMask) == Polled(q, Invalid)
    ensures StartPoll(q, compMask).q.locked <==> StartPoll(q, compMask).res == Got
    ensures StartPoll(q, compMask).res == Got ==> StartPoll(q, compMask).q.cur.Some?
  {
    hide Scan;
    var q0 := q.(locked := true);
    SubsStay(q0, |q.subs|, true);
    if PollSubCqs(q0, true).res == Got { ScanFinds(q0, |q.subs|, true); }
  }

  lemma {:induction false} ScanFinds(q: Cq, left: nat, extended: bool)
    requires CqOk(q) && left <= |q.subs| && Scan(q, left, extended).res == Got
    ensures Scan(q, left, extended).q.cur.Some?
    ensures SomeReferenced(q)
    decreases left
  {
    hide SlotOf, BitAnd;
    if left > 0 {
      var i, q1 := q.next, q.(next := SlotOf(q.next + 1, |q.subs|));
      if q.subs[i].refCnt == 0 {
        ScanFinds(q1, left - 1, extended);
      } else if PollSub(q1, i, extended).res == Nothing {
        ScanFinds(PollSub(q1, i, extended).q, left - 1, extended);
      }
    }
  }

  lemma StartInHand(q: Cq)
    requires CqOk(q) && TableOk(q) && StartPoll(q, 0).res == Got
    ensures InHand(StartPoll(q, 0).q, |q.given|, |q.taken|)
  {
    hide SlotOf, BitAnd, Scan, Settles, InHand;
    var q0 := q.(locked := true);
    ScanFinds(q0, |q.subs|, true);
    PollBalances(q0, |q.given|, |q.taken|);
  }

  lemma EndSettles(q: Cq, n: nat, m: nat)
    requires CqOk(q) && AtEnd(q, n, m)
    ensures var r := EndPoll(q);
            !r.locked && Balanced(r, n, m) && 0 < |r.given| - n == |r.taken| - m
  {
    hide Settles, BitAnd;
    if q.cur.Some? { GiveBackBalances(q, n, m); }
  }

  /**
   Over start, any number of next polls and end, with the world changing in between, as many indices are
   given back as entries were consumed, and each goes to the queue its entry names exactly when the entry
   named a live queue pair. The lock is free again. What happened in earlier polls does not matter.
   */
  lemma ExtendedPollReleasesOnce(q: Cq, ws: seq<World>, last: World)
    requires CqOk(q) && TableOk(q) && StartPoll(q, 0).res == Got
    ensures StartPoll(q, 0).q.cur.Some?
    ensures var r := ExtendedPoll(q, ws, last); var n, m := |q.given|, |q.taken|;
            && !r.locked && n < |r.given| && m < |r.taken| && |r.given| - n == |r.taken| - m
            && forall p {:trigger r.given[p]} :: n <= p < |r.given| ==> Settles(r.taken[p - n + m], r.given[p])
  {
    hide StartPoll, Nexts, InHand, AtEnd, InWorld, Settles, EndPoll;
    var n, m, s := |q.given|, |q.taken|, StartPoll(q, 0).q;
    StartInHand(q);
    InHandHolds(s, n, m);
    NextsBalance(s, ws, n, m);
    var e := Nexts(s, ws);
    WorldKeepsBooks(e, last, n, m);
    EndSettles(InWorld(e, last), n, m);
  }

  /**
   A start that finds no entry of a known queue pair returns unlocked: it consumed nothing, or it
   consumed an entry whose queue pair is not live, which no call will ever give back.
   */
  lemma FailedStartLoses(q: Cq)
    requires CqOk(q) && TableOk(q) && StartPoll(q, 0).res != Got
    ensures var r := StartPoll(q, 0).q;
            && !r.locked && r.given == q.given
            && (StartPoll(q, 0).res == Nothing ==> r.taken == q.taken)
            && (StartPoll(q, 0).res == Invalid ==> exists t :: r.taken == q.taken + [t] && !t.live)
  {
    hide Scan;
    LostScan(q.(locked := true), |q.subs|);
  }

  lemma {:induction false} LostScan(q: Cq, left: nat)
    requires CqOk(q) && left <= |q.subs|
    ensures var r := Scan(q, left, true);
            && (r.res != Got ==> r.q.given == q.given)
            && (r.res == Nothing ==> r.q.taken == q.taken)
            && (r.res == Invalid ==> exists t :: r.q.taken == q.taken + [t] && !t.live)
    decreases left
  {
    hide SlotOf, BitAnd, CurrentIndex;
    if left > 0 {
      var i, q1 := q.next, q.(next := SlotOf(q.next + 1, |q.subs|));
      if q.subs[i].refCnt == 0 {
        LostScan(q1, left - 1);
      } else {
        var r := PollSub(q1, i, true);
        if r.res == Invalid {
          HeadInBounds(q1, i);
          var t := Taking(q1, q1.buf[Head(q1, i)]);
          assert r.q.taken == q.taken + [t] && !t.live;
        } else if r.res == Nothing {
          LostScan(r.q, left - 1);
        }
      }
    }
  }

  // ---- the plain poll keeps the books too --------------------------------------------------------

  /** What one plain poll did to the books: nothing, one settled entry, or one entry lost. */
  ghost predicate PlainStep(q: Cq, r: Polled) {
    match r.res
    case Nothing => r.q.taken == q.taken && r.q.given == q.given
    case Got => exists t, g :: r.q.taken == q.taken + [t] && r.q.given == q.given + [g] && Settles(t, g)
    case Invalid => r.q.given == q.given && exists t :: r.q.taken == q.taken + [t] && !t.live
  }

  lemma PlainProbe(q: Cq, i: nat)
    requires CqOk(q) && i < |q.subs|
    ensures PlainStep(q, PollSub(q, i, false))
  {
    hide SlotOf, CurrentIndex, BitAnd;
    HeadInBounds(q, i);
    var r, c := PollSub(q, i, false), q.buf[Head(q, i)];
    var t := Taking(q, c);
    if r.res == Got {
      var g := Ref(r.q.curWq, c.reqId);
      assert r.q.taken == q.taken + [t] && r.q.given == q.given + [g] && Settles(t, g);
    } else if r.res == Invalid {
      assert r.q.taken == q.taken + [t] && !t.live;
    }
  }

  lemma {:induction false} PlainScan(q: Cq, left: nat)
    requires CqOk(q) && left <= |q.subs|
    ensures PlainStep(q, Scan(q, left, false))
    decreases left
  {
    hide SlotOf, PollSub, PlainStep, Scan, CqOk;
    if left == 0 {
      NoStep(q);
      ScanEnds(q, false);
    } else {
      ScanUnfolds(q, left, false);
      var i, q1 := q.next, q.(next := SlotOf(q.next + 1, |q.subs|));
      if q.subs[i].refCnt == 0 {
        PlainScan(q1, left - 1);
        SameStart(q, q1, Scan(q1, left - 1, false));
      } else {
        var r := PollSub(q1, i, false);
        PlainProbe(q1, i);
        SameStart(q, q1, r);
        if r.res == Nothing {
          PlainScan(r.q, left - 1);
          NothingTaken(q, r);
          SameStart(q, r.q, Scan(r.q, left - 1, false));
        }
      }
    }
  }

  lemma ScanEnds(q: Cq, extended: bool)
    requires CqOk(q)
    ensures Scan(q, 0, extended) == Polled(q, Nothing)
  {
  }

  lemma ScanUnfolds(q: Cq, left: nat, extended: bool)
    requires CqOk(q) && 0 < left <= |q.subs|
    ensures q.next < |q.subs|
    ensures var i, q1 := q.next, q.(next := SlotOf(q.next + 1, |q.subs|));
            && CqOk(q1)
            && var r := PollSub(q1, i, extended);
            && |r.q.subs| == |q.subs| && CqOk(r.q)
            && Scan(q, left, extended) ==
                 if q.subs[i].refCnt == 0 then Scan(q1, left - 1, extended)
                 else if r.res != Nothing then r else Scan(r.q, left - 1, extended)
  {
    hide SlotOf, PollSub;
    PollSubStays(q.(next := SlotOf(q.next + 1, |q.subs|)), q.next, extended);
  }

  lemma NoStep(q: Cq)
    ensures PlainStep(q, Polled(q, Nothing))
  {
  }

  lemma NothingTaken(q: Cq, r: Polled)
    requires PlainStep(q, r) && r.res == Nothing
    ensures r.q.taken == q.taken && r.q.given == q.given
  {
  }

  lemma SameStart(q: Cq, q1: Cq, r: Polled)
    requires q1.taken == q.taken && q1.given == q.given && PlainStep(q1, r)
    ensures PlainStep(q, r)
  {
    hide Settles;
  }

  /**
   efa_poll_cq reports as many completions as it releases indices, each to the queue its entry names
   exactly when that queue pair is live; only an entry of an unknown queue pair is consumed and not released.
   */
  lemma {:induction false} PlainPollReleasesOnce(q: Cq, n: nat, count: nat)
    requires CqOk(q)
    ensures var r := PollLoop(q, n, count); var k := r.count - count; var g, t := |q.given|, |q.taken|;
            && |r.q.given| == g + k && |r.q.taken| == t + k + (if r.res == Invalid then 1 else 0)
            && r.q.given[..g] == q.given && r.q.taken[..t] == q.taken
            && (forall p {:trigger r.q.given[p]} :: g <= p < |r.q.given| ==>
                  Settles(r.q.taken[p - g + t], r.q.given[p]))
            && (r.res == Invalid ==> !r.q.taken[t + k].live)
    decreases n
  {
    hide PollSubCqs, Settles;
    if n > 0 {
      var s := PollSubCqs(q, false);
      PlainPoll(q);
      if s.res == Got {
        var t, g :| s.q.taken == q.taken + [t] && s.q.given == q.given + [g] && Settles(t, g);
        PlainPollReleasesOnce(s.q, n - 1, count + 1);
        var r := PollLoop(q, n, count);
        assert r == PollLoop(s.q, n - 1, count + 1);
        assert r.q.given[|q.given|] == r.q.given[..|s.q.given|][|q.given|] == g;
        assert r.q.taken[|q.taken|] == r.q.taken[..|s.q.taken|][|q.taken|] == t;
        assert r.q.given[..|q.given|] == r.q.given[..|s.q.given|][..|q.given|];
        assert r.q.taken[..|q.taken|] == r.q.taken[..|s.q.taken|][..|q.taken|];
      }
    }
  }

  lemma PlainPoll(q: Cq)
    requires CqOk(q)
    ensures PlainStep(q, PollSubCqs(q, false))
  {
    hide Scan, PlainStep;
    PlainScan(q, |q.subs|);
  }
}
