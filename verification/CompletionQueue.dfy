/** The completion queue as verbs.c keeps it: counters and cursors updated in place. */
module CompletionQueues {
  import opened Words
  import opened CompletionRing
  import opened Polling
  import opened ExtendedPolling

  class CompletionQueue {
    const subs: array<SubCq>
    const depth: nat               // slots in each sub queue's stretch of the buffer
    const buf: array<Cqe>          // shared with the device
    const table: array<Option<nat>> // the context's queue-pair table
    var nextPollIdx: nat
    var curCqe: Option<nat>
    var curWq: nat
    var locked: bool
    ghost var taken: seq<Record>
    ghost var given: seq<Ref>

    ghost function View(): Cq
      reads this, subs, buf, table
    {
      Cq(subs[..], depth, buf[..], nextPollIdx, curCqe, curWq, locked, table[..], taken, given)
    }

    ghost predicate Valid()
      reads this, subs, buf, table
    {
      CqOk(View())
    }

    /** create_cq followed by efa_sub_cq_initialize on each stretch of a zeroed buffer. */
    constructor (numSubCqs: nat, size: nat, qpTable: array<Option<nat>>)
      requires 0 < size && numSubCqs < U16 && 0 < qpTable.Length
      ensures Valid() && table == qpTable && fresh(subs) && fresh(buf)
      ensures View() == Cq(seq(numSubCqs, i => Initialize(size)), size,
                           seq(numSubCqs * size, i => Cqe(0, 0, 0, 0)), 0, None, 0, false, qpTable[..], [], [])
    {
      MulSign(numSubCqs, size);
      var a := new SubCq[numSubCqs](i => Initialize(size));
      var b := new Cqe[numSubCqs * size](i => Cqe(0, 0, 0, 0));
      subs, depth, buf, table := a, size, b, qpTable;
      nextPollIdx, curCqe, curWq, locked := 0, None, 0, false;
      taken, given := [], [];
      new;
      assert subs[..] == seq(numSubCqs, i => Initialize(size));
      assert buf[..] == seq(numSubCqs * size, i => Cqe(0, 0, 0, 0));
    }

    /** cq_next_sub_cqe_get. */
    method NextSubCqe(i: nat) returns (cqe: Option<nat>)
      requires Valid() && i < subs.Length
      modifies subs
      ensures Valid() && subs[..] == old(subs[..])[i := subs[i]]
      ensures cqe.Some? <==> old(HasEntry(View(), i))
      ensures cqe.Some? ==> cqe.value == old(Head(View(), i)) && subs[i] == Consume(old(subs[i]))
      ensures cqe.None? ==> subs[i] == old(subs[i])
    {
      hide BitAnd, CurrentIndex, Wrap16, CqOk, Head, Consume;
      ghost var q := View();
      var s := subs[i];
      assert s == q.subs[i];
      ConsumeOk(q, i);
      Consumed(s);
      var at := i * depth + CurrentIndex(s);
      if buf[at].phase == s.phase {
        s := s.(consumedCnt := Wrap16(s.consumedCnt + 1));
        if CurrentIndex(s) == 0 { s := s.(phase := 1 - s.phase); }
        subs[i] := s;
        cqe := Some(at);
        assert View() == q.(subs := q.subs[i := Consume(q.subs[i])]);
      } else {
        cqe := None;
      }
    }

    /** efa_wq_put_wrid_idx_unlocked on the current queue, with the request id read from the buffer. */
    method PutCurrent()
      requires Valid() && curCqe.Some?
      modifies this`given
      ensures Valid() && View() == GiveBackCurrent(old(View()))
    {
      ghost var entry := buf[curCqe.value];
      given := given + [Ref(curWq, entry.reqId)];
    }

    /** efa_poll_sub_cq; the queue pair found last is remembered for the next entry. */
    method PollSubCq(i: nat, memo: Option<nat>, extended: bool) returns (res: Outcome, found: Option<nat>)
      requires Valid() && i < subs.Length
      requires memo.Some? ==> Lookup(View(), memo.value) == memo
      modifies this`curCqe, this`curWq, this`taken, this`given, subs
      ensures Valid() && PollSub(old(View()), i, extended) == Polled(View(), res)
      ensures res == Nothing ==> found == memo
      ensures res == Got ==> found.Some? && found == Lookup(View(), buf[curCqe.value].qpNum)
    {
      hide BitAnd, CurrentIndex, Consume, CqOk, Head;
      ghost var q0 := View();
      ConsumeOk(q0, i);
      assert q0.subs[i] == subs[i];
      found := memo;
      curCqe := NextSubCqe(i);
      CursorOk(q0.(subs := subs[..]), View());
      if curCqe.None? { return Nothing, found; }
      var cqe := buf[curCqe.value];
      assert cqe == q0.buf[Head(q0, i)];
      taken := taken + [Taking(q0, cqe)];
      CursorOk(q0.(subs := subs[..]), View());
      if memo.None? || cqe.qpNum != memo.value {
        found := table[BitAnd(cqe.qpNum, table.Length - 1)];
        assert found == Lookup(q0, cqe.qpNum);
        if found.None? { return Invalid, found; }
      }
      curWq := QueueIndex(found.value, cqe.qType);
      CursorOk(q0.(subs := subs[..]), View());
      if !extended { PutCurrent(); }
      return Got, found;
    }

    /** efa_poll_sub_cqs. */
    method PollSubQueues(extended: bool) returns (res: Outcome)
      requires Valid()
      modifies this`nextPollIdx, this`curCqe, this`curWq, this`taken, this`given, subs
      ensures Valid() && PollSubCqs(old(View()), extended) == Polled(View(), res)
    {
      hide BitAnd, CurrentIndex, PollSub, SlotOf;
      var num := subs.Length;
      var idx, qp := 0, None;
      res := Nothing;
      ghost var q0 := View();
      while idx < num
        invariant Valid() && idx <= num && res == Nothing && qp.None?
        invariant Scan(q0, num, extended) == Scan(View(), num - idx, extended)
      {
        var i := nextPollIdx;
        nextPollIdx := SlotOf(nextPollIdx + 1, num);
        idx := idx + 1;
        if subs[i].refCnt != 0 {
          assert View().subs[i] == subs[i];
          res, qp := PollSubCq(i, qp, extended);
          if res != Nothing { break; }
        }
      }
    }

    /**
     efa_poll_cq: the completions reported, and the value returned. `wrid` is what the records of the queues
     hold; entries of indices that are out do not change during the call.
     */
    method Poll(nwc: nat, wrid: Ref -> nat) returns (ret: int, wc: seq<Wc>)
      requires Valid() && !locked
      modifies this, subs
      ensures Valid() && !locked
      ensures var m := PollLoop(old(View()).(locked := true), nwc, 0);
              View() == m.q.(locked := false) && ret == PollCqResult(m) && |wc| == m.count
      ensures |given| == |old(given)| + |wc| && given[..|old(given)|] == old(given)
      ensures forall k :: 0 <= k < |wc| ==>
                given[|old(given)| + k] == wc[k].what && wc[k].wrId == wrid(wc[k].what)
      ensures |wc| <= nwc && (|wc| > 0 ==> ret == |wc|) && (ret >= 0 ==> ret == |wc|)
      ensures |taken| == |old(taken)| + |wc| || |taken| == |old(taken)| + |wc| + 1
      ensures ret == -22 <==> |wc| == 0 && |taken| == |old(taken)| + 1
      ensures ret < 0 ==> ret == -22
      ensures |wc| < nwc && |taken| == |old(taken)| + |wc| ==> forall i :: 0 <= i < subs.Length ==> !Wanted(View(), i)
    {
      hide BitAnd, CurrentIndex, PollSub, Scan, PollSubCqs;
      locked := true;
      var i, res := 0, Got;
      wc := [];
      ghost var q0 := View();
      PolledBooks(q0, nwc);
      while i < nwc
        invariant Valid() && i <= nwc && res == Got && locked && |wc| == i
        invariant given == old(given) + Whats(wc)
        invariant forall k :: 0 <= k < |wc| ==> wc[k].wrId == wrid(wc[k].what)
        invariant PollLoop(q0, nwc, 0) == PollLoop(View(), nwc - i, i)
      {
        ghost var before := View();
        res := PollSubQueues(false);
        PollTells(before);
        if res != Got { break; }
        var cqe := buf[curCqe.value];
        var what := Ref(curWq, cqe.reqId);
        wc := wc + [Wc(what, wrid(what))];
        i := i + 1;
      }
      locked := false;
      ret := if i > 0 then i else if res == Invalid then -EINVAL_CODE else 0;
      WantedUnlocked(PollLoop(q0, nwc, 0).q, View());
    }

    /** efa_start_poll. */
    method Start(compMask: nat) returns (res: Outcome)
      requires Valid() && !locked
      modifies this, subs
      ensures Valid() && StartPoll(old(View()), compMask) == Polled(View(), res)
      ensures locked <==> res == Got
      ensures compMask != 0 ==> res == Invalid && View() == old(View())
    {
      hide BitAnd, CurrentIndex, PollSub, Scan;
      StartPollLock(View(), compMask);
      if compMask != 0 { return Invalid; }
      locked := true;
      res := PollSubQueues(true);
      if res != Got { locked := false; }
    }

    /** efa_next_poll. */
    method Next() returns (res: Outcome)
      requires Valid() && locked && curCqe.Some?
      modifies this, subs
      ensures Valid() && NextPoll(old(View())) == Polled(View(), res)
    {
      PutCurrent();
      res := PollSubQueues(true);
    }

    /** efa_end_poll. */
    method End()
      requires Valid() && locked
      modifies this
      ensures Valid() && View() == EndPoll(old(View())) && !locked
    {
      if curCqe.Some? { PutCurrent(); }
      locked := false;
    }
  }

  /** A work completion: where it came from, and the work-request id recorded there. */
  datatype Wc = Wc(what: Ref, wrId: nat)

  function Whats(wc: seq<Wc>): (r: seq<Ref>)
    ensures |r| == |wc|
  {
    seq(|wc|, k requires 0 <= k < |wc| => wc[k].what)
  }

  /** What the poll loop leaves on the books, and what a short one has seen. */
  lemma PolledBooks(q: Cq, n: nat)
    requires CqOk(q)
    ensures var m := PollLoop(q, n, 0);
            && |m.q.taken| == |q.taken| + m.count + (if m.res == Invalid then 1 else 0)
            && (m.count < n && m.res != Invalid ==> forall i :: 0 <= i < |m.q.subs| ==> !Wanted(m.q, i))
  {
    hide PollLoop, Wanted, Settles;
    PlainPollReleasesOnce(q, n, 0);
    ShortPollMeansEmpty(q, n, 0);
  }

  lemma WantedUnlocked(q: Cq, q': Cq)
    requires CqOk(q) && q' == q.(locked := false)
    ensures CqOk(q') && forall i :: 0 <= i < |q.subs| ==> (Wanted(q', i) <==> Wanted(q, i))
  {
  }

  lemma ConsumeOk(q: Cq, i: nat)
    requires CqOk(q) && i < |q.subs|
    ensures q.subs[i].phase <= 1 && CqOk(q.(subs := q.subs[i := Consume(q.subs[i])]))
    ensures Head(q, i) == i * q.depth + CurrentIndex(q.subs[i]) < |q.buf| && 0 < |q.table|
  {
    hide CurrentIndex, Wrap16;
    HeadInBounds(q, i);
  }

  /** Only the position pointed at matters of what a probe changes besides the sub queue. */
  lemma CursorOk(q: Cq, r: Cq)
    requires CqOk(q) && r == q.(cur := r.cur, curWq := r.curWq, taken := r.taken, given := r.given)
    requires r.cur.Some? ==> r.cur.value < |q.buf|
    ensures CqOk(r)
  {
  }

  lemma Consumed(s: SubCq)
    requires s.phase <= 1
    ensures var t := s.(consumedCnt := Wrap16(s.consumedCnt + 1));
            Consume(s) == if CurrentIndex(t) == 0 then t.(phase := 1 - s.phase) else t
  {
  }

  /** A plain poll gives back what it reports, and nothing otherwise. */
  lemma PollTells(q: Cq)
    requires CqOk(q)
    ensures var r := PollSubCqs(q, false);
            && r.q.locked == q.locked
            && (r.res != Got ==> r.q.given == q.given)
            && (r.res == Got ==> r.q.cur.Some? && r.q.given == q.given + [Ref(r.q.curWq, r.q.buf[r.q.cur.value].reqId)])
  {
    hide Scan;
    ScanTells(q, |q.subs|);
  }

  lemma {:induction false} ScanTells(q: Cq, left: nat)
    requires CqOk(q) && left <= |q.subs|
    ensures var r := Scan(q, left, false);
            && r.q.locked == q.locked
            && (r.res != Got ==> r.q.given == q.given)
            && (r.res == Got ==> r.q.cur.Some? && r.q.given == q.given + [Ref(r.q.curWq, r.q.buf[r.q.cur.value].reqId)])
    decreases left
  {
    hide SlotOf, BitAnd, CurrentIndex;
    if left > 0 {
      var i, q1 := q.next, q.(next := SlotOf(q.next + 1, |q.subs|));
      if q.subs[i].refCnt == 0 {
        ScanTells(q1, left - 1);
      } else if PollSub(q1, i, false).res == Nothing {
        ScanTells(PollSub(q1, i, false).q, left - 1);
      }
    }
  }
}
