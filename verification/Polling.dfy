/**
 Polling a completion queue: the round-robin scan over its sub queues, the plain poll, and the extended
 poll whose calls share one lock section. A completion queue's entries lie in one buffer, a stretch of
 `depth` slots for each sub queue.
 */
module Polling {
  import opened Words
  import opened CompletionRing

  datatype Option<T> = None | Some(value: T)

  /** What polling a sub queue returns: 0, ENOENT, or EINVAL for an entry whose queue pair is unknown. */
  datatype Outcome = Got | Nothing | Invalid

  /** A queue and a request id. */
  datatype Ref = Ref(queue: nat, reqId: nat)

  /** What a consumed entry names, and whether that queue pair was live then. */
  datatype Record = Record(what: Ref, live: bool)

  /**
   A completion queue. `table` is the queue-pair table; a queue pair is known by its number. `taken` and
   `given` record the entries consumed and the indices given back.
   */
  datatype Cq = Cq(subs: seq<SubCq>, depth: nat, buf: seq<Cqe>, next: nat, cur: Option<nat>, curWq: nat,
                   locked: bool, table: seq<Option<nat>>, taken: seq<Record>, given: seq<Ref>)

  ghost predicate CqOk(q: Cq) {
    && 0 < q.depth && |q.buf| == |q.subs| * q.depth
    && (q.subs != [] ==> q.next < |q.subs|) && |q.subs| < U16
    && (forall i :: 0 <= i < |q.subs| ==> q.subs[i].qmask == q.depth - 1 && q.subs[i].phase <= 1)
    && (q.cur.Some? ==> q.cur.value < |q.buf|)
    && 0 < |q.table|
  }

  function QueueIndex(qp: nat, qType: nat): nat { 2 * qp + (if qType == SEND_QUEUE then 0 else 1) }

  /** The queue and request an entry names. */
  function Names(c: Cqe): Ref { Ref(QueueIndex(c.qpNum, c.qType), c.reqId) }

  function Lookup(q: Cq, qpn: nat): Option<nat>
    requires 0 < |q.table|
  {
    q.table[BitAnd(qpn, |q.table| - 1)]
  }

  /** The record of consuming an entry. */
  function Taking(q: Cq, c: Cqe): Record
    requires 0 < |q.table|
  {
    Record(Names(c), Lookup(q, c.qpNum) == Some(c.qpNum))
  }

  /** The buffer position a sub queue looks at next. */
  function Head(q: Cq, i: nat): nat
    requires i < |q.subs|
  {
    i * q.depth + CurrentIndex(q.subs[i])
  }

  /** Sub queues tile the buffer: each head is in bounds and inside its own stretch. */
  lemma HeadInBounds(q: Cq, i: nat)
    requires CqOk(q) && i < |q.subs|
    ensures i * q.depth <= Head(q, i) < (i + 1) * q.depth <= |q.buf|
  {
    MulMonotone(i + 1, |q.subs|, q.depth);
    assert (i + 1) * q.depth == i * q.depth + q.depth;
  }

  /** The phase bit of the next entry is the one expected. */
  ghost predicate HasEntry(q: Cq, i: nat)
    requires CqOk(q) && i < |q.subs|
  {
    HeadInBounds(q, i);
    q.buf[Head(q, i)].phase == q.subs[i].phase
  }

  /** The sub queue is in use and its next entry is pending. */
  ghost predicate Wanted(q: Cq, i: nat)
    requires CqOk(q) && i < |q.subs|
  {
    q.subs[i].refCnt > 0 && HasEntry(q, i)
  }

  datatype Polled = Polled(q: Cq, res: Outcome)

  /** Gives the current entry's index back, reading the request id from the buffer. */
  function GiveBackCurrent(q: Cq): Cq
    requires q.cur.Some? && q.cur.value < |q.buf|
  {
    q.(given := q.given + [Ref(q.curWq, q.buf[q.cur.value].reqId)])
  }

  /** efa_poll_sub_cq. */
  function PollSub(q: Cq, i: nat, extended: bool): (r: Polled)
    requires CqOk(q) && i < |q.subs|
    ensures CqOk(r.q)
  {
    HeadInBounds(q, i);
    var c := q.buf[Head(q, i)];
    if c.phase != q.subs[i].phase then Polled(q.(cur := None), Nothing)
    else
      var q1 := q.(subs := q.subs[i := Consume(q.subs[i])], cur := Some(Head(q, i)),
                   taken := q.taken + [Taking(q, c)]);
      var qp := Lookup(q, c.qpNum);
      if qp.None? then Polled(q1, Invalid)
      else
        var q2 := q1.(curWq := QueueIndex(qp.value, c.qType));
        Polled(if extended then q2 else GiveBackCurrent(q2), Got)
  }

  /** The rest of efa_poll_sub_cqs, with `left` sub queues still to visit. */
  function Scan(q: Cq, left: nat, extended: bool): (r: Polled)
    requires CqOk(q) && left <= |q.subs|
    ensures CqOk(r.q)
    decreases left
  {
    if left == 0 then Polled(q, Nothing)
    else
      var i := q.next;
      var q1 := q.(next := SlotOf(i + 1, |q.subs|));
      if q.subs[i].refCnt == 0 then Scan(q1, left - 1, extended)
      else
        var r := PollSub(q1, i, extended);
        if r.res != Nothing then r else Scan(r.q, left - 1, extended)
  }

  function PollSubCqs(q: Cq, extended: bool): (r: Polled)
    requires CqOk(q)
    ensures CqOk(r.q)
  {
    Scan(q, |q.subs|, extended)
  }

  // ---- the round-robin scan ----------------------------------------------------------------------

  /** The sub queue m places on from the next one to be polled. */
  function Turn(q: Cq, m: nat): (i: nat)
    requires q.subs != []
    ensures i < |q.subs|
  {
    SlotOf(q.next + m, |q.subs|)
  }

  function Advance(q: Cq, m: nat): Cq
    requires q.subs != []
  {
    q.(next := Turn(q, m))
  }

  /** How many of the next `left` sub queues, in turn, come before the first wanted one; left if none is. */
  ghost function FirstWanted(q: Cq, left: nat): nat
    requires CqOk(q) && left <= |q.subs|
    decreases left
  {
    if left == 0 || Wanted(q, q.next) then 0 else 1 + FirstWanted(Advance(q, 1), left - 1)
  }

  lemma TurnAfter(q: Cq, m: nat)
    requires q.subs != [] && q.next < |q.subs|
    ensures Turn(q, 0) == q.next && Turn(Advance(q, 1), m) == Turn(q, m + 1)
  {
    hide SlotOf;
    FirstLap(q.next, |q.subs|);
    SlotShift(q.next + 1, m, |q.subs|);
  }

  /** The first wanted sub queue is wanted, and none before it is. */
  lemma {:induction false} FirstWantedMeans(q: Cq, left: nat)
    requires CqOk(q) && left <= |q.subs| && 0 < left
    ensures var k := FirstWanted(q, left);
            && k <= left && (k < left ==> Wanted(q, Turn(q, k)))
            && (forall m {:trigger Turn(q, m)} :: 0 <= m < k ==> !Wanted(q, Turn(q, m)))
    decreases left
  {
    hide SlotOf, Wanted;
    TurnAfter(q, 0);
    if !Wanted(q, q.next) {
      var q1 := Advance(q, 1);
      WantedAnyway(q, q1);
      var k1 := FirstWanted(q1, left - 1);
      if left > 1 { FirstWantedMeans(q1, left - 1); }
      TurnAfter(q, k1);
      forall m | 0 <= m < k1 + 1 ensures !Wanted(q, Turn(q, m)) {
        if m > 0 { TurnAfter(q, m - 1); assert !Wanted(q1, Turn(q1, m - 1)); }
      }
    }
  }

  /** Where polling goes on does not decide what is wanted. */
  lemma WantedAnyway(q: Cq, q1: Cq)
    requires CqOk(q) && CqOk(q1) && q1.subs == q.subs && q1.buf == q.buf && q1.depth == q.depth
    ensures forall i :: 0 <= i < |q.subs| ==> (Wanted(q1, i) <==> Wanted(q, i))
  {
  }

  lemma {:induction false} FirstWantedAnyway(q: Cq, q1: Cq, left: nat)
    requires CqOk(q) && q1 == q.(cur := q1.cur) && CqOk(q1) && left <= |q.subs|
    ensures FirstWanted(q1, left) == FirstWanted(q, left)
    decreases left
  {
    hide Wanted, SlotOf;
    WantedAnyway(q, q1);
    if left > 0 && !Wanted(q, q.next) { FirstWantedAnyway(Advance(q, 1), Advance(q1, 1), left - 1); }
  }

  /** The two ways a visit to one sub queue can go. */
  lemma VisitSub(q: Cq, i: nat, extended: bool)
    requires CqOk(q) && i < |q.subs|
    ensures !Wanted(q, i) && q.subs[i].refCnt > 0 ==> PollSub(q, i, extended) == Polled(q.(cur := None), Nothing)
    ensures Wanted(q, i) ==>
              && q.subs[i].refCnt > 0 && PollSub(q, i, extended).res != Nothing
              && PollSub(q.(cur := None), i, extended) == PollSub(q, i, extended)
  {
    hide CurrentIndex, Consume, Names, QueueIndex, BitAnd;
    HeadInBounds(q, i);
  }

  /**
   One scan serves the first wanted sub queue in turn, and goes on after it the next time; it finds
   nothing exactly when no referenced sub queue it visits has a pending entry, and consumes nothing then.
   */
  lemma {:induction false} ScanServesFirst(q: Cq, left: nat, extended: bool)
    requires CqOk(q) && left <= |q.subs| && q.subs != []
    ensures var r := Scan(q, left, extended); var k := FirstWanted(q, left);
            && k <= left && (r.res == Nothing <==> k == left)
            && (k == left ==> r.q == q.(next := Turn(q, left), cur := r.q.cur))
            && (k < left ==> r == PollSub(Advance(q, k + 1), Turn(q, k), extended))
    decreases left
  {
    hide SlotOf, PollSub, Wanted, Scan;
    TurnAfter(q, 0);
    ScanStep(q, left, extended);
    if left > 0 {
      var i, q1 := q.next, Advance(q, 1);
      WantedAnyway(q, q1);
      if !Wanted(q, i) {
        var q2 := if q.subs[i].refCnt == 0 then q1 else q1.(cur := None);
        ScanServesFirst(q2, left - 1, extended);
        FirstWantedAnyway(q1, q2, left - 1);
        var k1 := FirstWanted(q1, left - 1);
        TurnAfter(q, left - 1);
        TurnAfter(q, k1);
        TurnAfter(q, k1 + 1);
        if k1 < left - 1 { ServedAnyway(q, q2, left, k1, extended); }
      }
    }
  }

  /** One round of the scan's loop. */
  lemma ScanStep(q: Cq, left: nat, extended: bool)
    requires CqOk(q) && left <= |q.subs| && q.subs != []
    ensures left == 0 ==> Scan(q, left, extended) == Polled(q, Nothing)
    ensures left > 0 && Wanted(q, q.next) ==>
              && Scan(q, left, extended) == PollSub(Advance(q, 1), q.next, extended)
              && Scan(q, left, extended).res != Nothing
    ensures left > 0 && !Wanted(q, q.next) ==>
              Scan(q, left, extended) ==
                Scan(if q.subs[q.next].refCnt == 0 then Advance(q, 1) else Advance(q, 1).(cur := None),
                      left - 1, extended)
  {
    hide SlotOf, PollSub, HasEntry;
    if left > 0 {
      WantedAnyway(q, Advance(q, 1));
      VisitSub(Advance(q, 1), q.next, extended);
    }
  }

  lemma ServedAnyway(q: Cq, q2: Cq, left: nat, k: nat, extended: bool)
    requires CqOk(q) && q.subs != [] && (q2 == Advance(q, 1) || q2 == Advance(q, 1).(cur := None)) && CqOk(q2)
    requires k < left - 1 < |q.subs| && k == FirstWanted(q2, left - 1)
    ensures PollSub(Advance(q2, k + 1), Turn(q2, k), extended) == PollSub(Advance(q, k + 2), Turn(q, k + 1), extended)
  {
    hide SlotOf, PollSub, Wanted;
    TurnAfter(q, k);
    TurnAfter(q, k + 1);
    FirstWantedMeans(q2, left - 1);
    var a, i := Advance(q, k + 2), Turn(q, k + 1);
    WantedAnyway(q2, a);
    VisitSub(a, i, extended);
  }

  /** The sub queue one call of efa_poll_sub_cqs serves, if any is wanted. */
  ghost function Served(q: Cq): nat
    requires CqOk(q) && q.subs != []
  {
    Turn(q, FirstWanted(q, |q.subs|))
  }

  /** Every sub queue is visited by a scan. */
  lemma SomeTurn(q: Cq, j: nat)
    requires q.subs != [] && q.next < |q.subs| && j < |q.subs|
    ensures Turn(q, Distance(q, j)) == j
  {
    hide SlotOf;
    var n := |q.subs|;
    FirstLap(j, n);
    if j < q.next { NextLap(j, n); }
  }

  /** How many sub queues come before j in turn. */
  function Distance(q: Cq, j: nat): (d: nat)
    requires q.next < |q.subs| && j < |q.subs|
    ensures d < |q.subs|
  {
    if q.next <= j then j - q.next else j + |q.subs| - q.next
  }

  /** ENOENT means that no referenced sub queue had a pending entry; the scan returns to where it began. */
  lemma NothingMeansEmpty(q: Cq, extended: bool)
    requires CqOk(q) && q.subs != []
    ensures PollSubCqs(q, extended).res == Nothing <==> forall i :: 0 <= i < |q.subs| ==> !Wanted(q, i)
    ensures PollSubCqs(q, extended).res == Nothing ==>
              PollSubCqs(q, extended).q == q.(cur := PollSubCqs(q, extended).q.cur)
  {
    hide SlotOf, Scan, Wanted, FirstWanted;
    var n := |q.subs|;
    ScanServesFirst(q, n, extended);
    FirstWantedMeans(q, n);
    FirstLap(q.next, n);
    NextLap(q.next, n);
    var k := FirstWanted(q, n);
    if k == n {
      forall i | 0 <= i < n ensures !Wanted(q, i) { SomeTurn(q, i); assert !Wanted(q, Turn(q, Distance(q, i))); }
    } else {
      assert Wanted(q, Turn(q, k));
    }
  }

  /** A wanted sub queue is served by this scan, or moves strictly closer to its turn. */
  lemma CloserOrServed(q: Cq, j: nat, extended: bool)
    requires CqOk(q) && j < |q.subs| && Wanted(q, j)
    ensures var r := PollSubCqs(q, extended);
            && r.res != Nothing && r.q.next < |r.q.subs| == |q.subs|
            && (Served(q) == j || Distance(r.q, j) < Distance(q, j))
  {
    hide SlotOf, Scan, Wanted, FirstWanted, PollSub;
    var n, d := |q.subs|, Distance(q, j);
    var k := FirstWanted(q, n);
    ScanServesFirst(q, n, extended);
    NothingMeansEmpty(q, extended);
    FirstWantedMeans(q, n);
    SomeTurn(q, j);
    assert k <= d;
    PollSubNext(Advance(q, k + 1), Turn(q, k), extended);
    if k < d { TurnClosed(q.next, k + 1, n); }
  }

  lemma PollSubNext(q: Cq, i: nat, extended: bool)
    requires CqOk(q) && i < |q.subs|
    ensures var r := PollSub(q, i, extended); r.q.next == q.next && |r.q.subs| == |q.subs|
  {
  }

  lemma TurnClosed(next: nat, m: nat, n: nat)
    requires next < n && m <= n
    ensures SlotOf(next + m, n) == if next + m < n then next + m else next + m - n
  {
    hide SlotOf;
    if next + m < n { FirstLap(next + m, n); } else { NextLap(next + m - n, n); FirstLap(next + m - n, n); }
  }

  /** States in which consecutive polls start; only the lock keeps the poll position between them. */
  ghost predicate PollsInTurn(qs: seq<Cq>, j: nat, n: nat, extended: bool) {
    && j < n
    && (forall k :: 0 <= k < |qs| ==> CqOk(qs[k]) && |qs[k].subs| == n && Wanted(qs[k], j))
    && (forall k :: 0 <= k < |qs| - 1 ==> qs[k + 1].next == PollSubCqs(qs[k], extended).q.next)
  }

  lemma {:induction false} ServedFrom(qs: seq<Cq>, at: nat, j: nat, n: nat, extended: bool)
    requires PollsInTurn(qs, j, n, extended) && at < |qs| && Distance(qs[at], j) < |qs| - at
    ensures exists k :: at <= k < |qs| && Served(qs[k]) == j
    decreases |qs| - at
  {
    hide Wanted, PollSubCqs, Served;
    CloserOrServed(qs[at], j, extended);
    if Served(qs[at]) != j {
      assert qs[at + 1].next == PollSubCqs(qs[at], extended).q.next;
      ServedFrom(qs, at + 1, j, n, extended);
    }
  }

  /**
   Fairness: of any n consecutive polls of n sub queues, whatever happens in between, one serves a sub
   queue that stays pending.
   */
  lemma ServedWithinOneRound(qs: seq<Cq>, j: nat, n: nat, extended: bool)
    requires PollsInTurn(qs, j, n, extended) && |qs| == n
    ensures exists k :: 0 <= k < n && Served(qs[k]) == j
  {
    hide Wanted, PollSubCqs, Served;
    ServedFrom(qs, 0, j, n, extended);
  }
}
