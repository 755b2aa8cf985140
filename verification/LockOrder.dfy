/**
 The spin locks of the data path and who takes them in which order. Destroying a queue pair is the only
 operation that holds the locks of two completion queues; it takes the receive side's first, so two
 queue pairs that share their completion queues in opposite roles take them in opposite orders. The
 lock of the queue-pair table, taken around, keeps that from blocking.
 */
module LockOrder {
  datatype Lock = Table | Cq(cq: nat) | Wq(wq: nat)

  datatype Act = Acquire(lock: Lock) | Release(lock: Lock)

  datatype Thread = Thread(held: set<Lock>, todo: seq<Act>)

  type State = seq<Thread>

  /**
   The calls of an application, with the calls made while a send session or an extended poll is open. A
   create that fails before publishing the queue pair takes no lock.
   */
  datatype Operation =
    | Post(wq: nat, inside: seq<Operation>)    // a posting call, giving an index back, or a whole send session
    | Poll(cq: nat, inside: seq<Operation>)    // a poll, from start_poll to end_poll if it is an extended one
    | FailedCreate
    | Create(sendCq: nat, recvCq: nat)
    | Destroy(sendCq: nat, recvCq: nat)

  /** efa_lock_cqs and efa_unlock_cqs around an update of both completion queues. */
  function BothCqs(sendCq: nat, recvCq: nat): seq<Act> {
    if recvCq == sendCq then [Acquire(Cq(recvCq)), Release(Cq(recvCq))]
    else [Acquire(Cq(recvCq)), Acquire(Cq(sendCq)), Release(Cq(recvCq)), Release(Cq(sendCq))]
  }

  function Program(op: Operation): seq<Act>
    decreases op
  {
    match op
    case Post(w, inside) => [Acquire(Wq(w))] + Programs(inside) + [Release(Wq(w))]
    case Poll(c, inside) => [Acquire(Cq(c))] + Programs(inside) + [Release(Cq(c))]
    case FailedCreate => []
    case Create(s, r) =>
      [Acquire(Table), Release(Table), Acquire(Cq(s)), Release(Cq(s)), Acquire(Cq(r)), Release(Cq(r))]
    case Destroy(s, r) => [Acquire(Table)] + BothCqs(s, r) + [Release(Table)]
  }

  function Programs(ops: seq<Operation>): seq<Act>
    decreases ops
  {
    if ops == [] then [] else Program(ops[0]) + Programs(ops[1..])
  }

  predicate LockFree(ops: seq<Operation>) { forall k :: 0 <= k < |ops| ==> ops[k].FailedCreate? }

  /** While an extended poll is open: posting and giving back, nothing else. */
  predicate OnlyPosts(ops: seq<Operation>) {
    forall k :: 0 <= k < |ops| ==> ops[k].FailedCreate? || (ops[k].Post? && LockFree(ops[k].inside))
  }

  /** What an application must keep to: no other calls inside a session, only posts inside an open poll. */
  predicate Disciplined(op: Operation) {
    match op
    case Post(_, inside) => LockFree(inside)
    case Poll(_, inside) => OnlyPosts(inside)
    case _ => true
  }

  // ---- running -----------------------------------------------------------------------------------

  predicate HeldBySome(s: State, l: Lock) { exists i :: 0 <= i < |s| && l in s[i].held }

  /** A spin lock can be taken only while nobody has it, not even the taker. */
  predicate CanStep(s: State, i: nat) {
    && i < |s| && s[i].todo != []
    && (s[i].todo[0].Acquire? ==> !HeldBySome(s, s[i].todo[0].lock))
  }

  function Step(s: State, i: nat): State
    requires CanStep(s, i)
  {
    var t := s[i];
    var l := t.todo[0].lock;
    s[i := Thread(if t.todo[0].Acquire? then t.held + {l} else t.held - {l}, t.todo[1..])]
  }

  /** Threads that are about to run these programs. */
  function Ready(programs: seq<seq<Act>>): State {
    seq(|programs|, i requires 0 <= i < |programs| => Thread({}, programs[i]))
  }

  function Begin(ops: seq<seq<Operation>>): State {
    Ready(seq(|ops|, i requires 0 <= i < |ops| => Programs(ops[i])))
  }

  ghost predicate Schedule(s: State, run: seq<nat>)
    decreases |run|
  {
    run == [] || (CanStep(s, run[0]) && Schedule(Step(s, run[0]), run[1..]))
  }

  function After(s: State, run: seq<nat>): State
    decreases |run|
  {
    if run == [] || !CanStep(s, run[0]) then s else After(Step(s, run[0]), run[1..])
  }

  predicate Finished(s: State) { forall i :: 0 <= i < |s| ==> s[i] == Thread({}, []) }

  // ---- the discipline ----------------------------------------------------------------------------

  predicate NoWq(held: set<Lock>) { forall l :: l in held ==> !l.Wq? }

  predicate NoCq(held: set<Lock>) { forall l :: l in held ==> !l.Cq? }

  /** The order in which locks may nest: the table, one completion queue or two under the table, one queue. */
  predicate MayAcquire(held: set<Lock>, l: Lock) {
    && l !in held && NoWq(held)
    && (l.Table? ==> held == {})
    && (l.Cq? ==> NoCq(held) || Table in held)
  }

  /** What is left to do follows the order, releases what it holds and ends with nothing. */
  predicate Orderly(held: set<Lock>, todo: seq<Act>)
    decreases |todo|
  {
    if todo == [] then held == {}
    else if todo[0].Acquire? then MayAcquire(held, todo[0].lock) && Orderly(held + {todo[0].lock}, todo[1..])
    else todo[0].lock in held && Orderly(held - {todo[0].lock}, todo[1..])
  }

  ghost predicate Inv(s: State) {
    && (forall i :: 0 <= i < |s| ==> Orderly(s[i].held, s[i].todo))
    && (forall i, j :: 0 <= i < j < |s| ==> s[i].held !! s[j].held)
  }

  lemma AcquireFirst(held: set<Lock>, l: Lock, held': set<Lock>, rest: seq<Act>)
    requires MayAcquire(held, l) && held' == held + {l} && Orderly(held', rest)
    ensures Orderly(held, [Acquire(l)] + rest)
  {
    assert ([Acquire(l)] + rest)[1..] == rest;
  }

  lemma ReleaseFirst(held: set<Lock>, l: Lock, held': set<Lock>, rest: seq<Act>)
    requires l in held && held' == held - {l} && Orderly(held', rest)
    ensures Orderly(held, [Release(l)] + rest)
  {
    assert ([Release(l)] + rest)[1..] == rest;
  }

  /** One lock taken and released again. */
  lemma Briefly(held: set<Lock>, l: Lock, rest: seq<Act>)
    requires MayAcquire(held, l) && Orderly(held, rest)
    ensures Orderly(held, [Acquire(l), Release(l)] + rest)
  {
    hide Orderly;
    ReleaseFirst(held + {l}, l, held, rest);
    AcquireFirst(held, l, held + {l}, [Release(l)] + rest);
    assert [Acquire(l)] + ([Release(l)] + rest) == [Acquire(l), Release(l)] + rest;
  }

  lemma {:induction false} LockFreePrograms(ops: seq<Operation>)
    requires LockFree(ops)
    ensures Programs(ops) == []
  {
    if ops != [] { LockFreePrograms(ops[1..]); }
  }

  /** Nothing that takes a lock may be called inside a session. */
  lemma {:induction false} InsideSession(held: set<Lock>, ops: seq<Operation>, rest: seq<Act>)
    requires !NoWq(held)
    ensures Orderly(held, Programs(ops) + rest) <==> LockFree(ops) && Orderly(held, rest)
  {
    if ops == [] {
      assert Programs(ops) + rest == rest;
    } else if ops[0].FailedCreate? {
      InsideSession(held, ops[1..], rest);
      assert Programs(ops) == Programs(ops[1..]);
    } else {
      StartsByAcquiring(ops[0]);
      assert (Programs(ops) + rest)[0] == Program(ops[0])[0];
    }
  }

  lemma StartsByAcquiring(op: Operation)
    requires !op.FailedCreate?
    ensures Program(op) != [] && Program(op)[0].Acquire?
    ensures op.Poll? || op.Create? || op.Destroy? ==> !Program(op)[0].lock.Wq?
    ensures op.Poll? ==> Program(op)[0].lock == Cq(op.cq)
    ensures op.Create? || op.Destroy? ==> Program(op)[0].lock == Table
  {
  }

  /** A session or a posting call, while at most completion-queue and table locks are held. */
  lemma PostOrderly(held: set<Lock>, w: nat, inside: seq<Operation>, rest: seq<Act>)
    requires NoWq(held)
    ensures Orderly(held, Program(Post(w, inside)) + rest) <==> LockFree(inside) && Orderly(held, rest)
  {
    var tail := [Release(Wq(w))] + rest;
    var acts := Program(Post(w, inside)) + rest;
    assert acts[1..] == Programs(inside) + tail && acts[0] == Acquire(Wq(w));
    assert Wq(w) in held + {Wq(w)};
    InsideSession(held + {Wq(w)}, inside, tail);
    assert tail[1..] == rest && held + {Wq(w)} - {Wq(w)} == held;
  }

  /** Inside an open poll exactly the posts are in order. */
  lemma {:induction false} InsidePoll(c: nat, ops: seq<Operation>, rest: seq<Act>)
    ensures Orderly({Cq(c)}, Programs(ops) + rest) <==> OnlyPosts(ops) && Orderly({Cq(c)}, rest)
  {
    var held := {Cq(c)};
    if ops == [] {
      assert Programs(ops) + rest == rest;
    } else {
      var after := Programs(ops[1..]) + rest;
      assert Programs(ops) + rest == Program(ops[0]) + after;
      InsidePoll(c, ops[1..], rest);
      assert OnlyPosts(ops) <==>
        OnlyPosts(ops[1..]) && (ops[0].FailedCreate? || (ops[0].Post? && LockFree(ops[0].inside))) by {
        OnlyPostsSplit(ops);
      }
      match ops[0]
      case Post(w, inside) => PostOrderly(held, w, inside, after);
      case FailedCreate => assert Program(ops[0]) + after == after;
      case _ =>
        StartsByAcquiring(ops[0]);
        assert Cq(c) in held;
        assert !MayAcquire(held, Program(ops[0])[0].lock);
        assert (Program(ops[0]) + after)[0] == Program(ops[0])[0];
    }
  }

  lemma OnlyPostsSplit(ops: seq<Operation>)
    requires ops != []
    ensures OnlyPosts(ops) <==>
              OnlyPosts(ops[1..]) && (ops[0].FailedCreate? || (ops[0].Post? && LockFree(ops[0].inside)))
  {
    assert ops == [ops[0]] + ops[1..];
  }

  lemma BothCqsOrderly(s: nat, r: nat, rest: seq<Act>)
    requires Orderly({Table}, rest)
    ensures Orderly({Table}, BothCqs(s, r) + rest)
  {
    hide Orderly;
    if s == r {
      Briefly({Table}, Cq(r), rest);
    } else {
      var one, both, other := {Table, Cq(r)}, {Table, Cq(r), Cq(s)}, {Table, Cq(s)};
      var a3 := [Release(Cq(s))] + rest;
      var a2 := [Release(Cq(r))] + a3;
      var a1 := [Acquire(Cq(s))] + a2;
      ReleaseFirst(other, Cq(s), {Table}, rest);
      ReleaseFirst(both, Cq(r), other, a3);
      AcquireFirst(one, Cq(s), both, a2);
      AcquireFirst({Table}, Cq(r), one, a1);
      assert [Acquire(Cq(r))] + a1 == BothCqs(s, r) + rest;
    }
  }

  lemma PollOrderly(c: nat, inside: seq<Operation>, rest: seq<Act>)
    requires Orderly({}, rest)
    ensures Orderly({}, Program(Poll(c, inside)) + rest) <==> OnlyPosts(inside)
  {
    var tail := [Release(Cq(c))] + rest;
    var acts := Program(Poll(c, inside)) + rest;
    assert acts[1..] == Programs(inside) + tail && acts[0] == Acquire(Cq(c));
    assert {} + {Cq(c)} == {Cq(c)};
    InsidePoll(c, inside, tail);
    assert tail[1..] == rest && {Cq(c)} - {Cq(c)} == {};
  }

  lemma CreateOrderly(s: nat, r: nat, rest: seq<Act>)
    requires Orderly({}, rest)
    ensures Orderly({}, Program(Create(s, r)) + rest)
  {
    hide Orderly;
    var a2 := [Acquire(Cq(r)), Release(Cq(r))] + rest;
    var a1 := [Acquire(Cq(s)), Release(Cq(s))] + a2;
    Briefly({}, Cq(r), rest);
    Briefly({}, Cq(s), a2);
    Briefly({}, Table, a1);
    assert Program(Create(s, r)) + rest == [Acquire(Table), Release(Table)] + a1;
  }

  lemma DestroyOrderly(s: nat, r: nat, rest: seq<Act>)
    requires Orderly({}, rest)
    ensures Orderly({}, Program(Destroy(s, r)) + rest)
  {
    hide Orderly, BothCqs;
    var tail := [Release(Table)] + rest;
    ReleaseFirst({Table}, Table, {}, rest);
    BothCqsOrderly(s, r, tail);
    AcquireFirst({}, Table, {Table}, BothCqs(s, r) + tail);
    assert Program(Destroy(s, r)) + rest == [Acquire(Table)] + (BothCqs(s, r) + tail);
  }

  /** A call takes its locks in order exactly if the application keeps to the discipline. */
  lemma ProgramOrderly(op: Operation, rest: seq<Act>)
    requires Orderly({}, rest)
    ensures Orderly({}, Program(op) + rest) <==> Disciplined(op)
  {
    hide Orderly, BothCqs;
    match op
    case Post(w, inside) => PostOrderly({}, w, inside, rest);
    case Poll(c, inside) => PollOrderly(c, inside, rest);
    case FailedCreate => assert Program(op) + rest == rest;
    case Create(s, r) => CreateOrderly(s, r, rest);
    case Destroy(s, r) => DestroyOrderly(s, r, rest);
  }

  /** So does every sequence of calls that keep to it. */
  lemma {:induction false} ProgramsOrderly(ops: seq<Operation>)
    requires forall k :: 0 <= k < |ops| ==> Disciplined(ops[k])
    ensures Orderly({}, Programs(ops))
  {
    hide Program;
    if ops != [] {
      ProgramsOrderly(ops[1..]);
      ProgramOrderly(ops[0], Programs(ops[1..]));
    }
  }

  lemma ReadyInv(programs: seq<seq<Act>>)
    requires forall i :: 0 <= i < |programs| ==> Orderly({}, programs[i])
    ensures Inv(Ready(programs))
  {
  }

  lemma StepKeeps(s: State, i: nat)
    requires Inv(s) && CanStep(s, i)
    ensures Inv(Step(s, i))
  {
  }

  // ---- deadlock freedom --------------------------------------------------------------------------

  /** The only way a thread with work left can be stuck. */
  lemma Waits(s: State, i: nat)
    requires Inv(s) && i < |s| && s[i].todo != [] && !CanStep(s, i)
    ensures s[i].todo[0].Acquire? && MayAcquire(s[i].held, s[i].todo[0].lock)
    ensures exists j :: 0 <= j < |s| && j != i && s[j].todo != [] && s[i].todo[0].lock in s[j].held
  {
    var j :| 0 <= j < |s| && s[i].todo[0].lock in s[j].held;
    assert s[j].todo != [];
  }

  /** The holder of a queue lock, which is innermost, can go on. */
  lemma WqHolderSteps(s: State, i: nat, w: nat)
    requires Inv(s) && i < |s| && Wq(w) in s[i].held
    ensures CanStep(s, i)
  {
    if !CanStep(s, i) { Waits(s, i); }
  }

  /** If no queue lock is held, a holder of the table lock can go on: nobody else has two locks. */
  lemma TableHolder(s: State, i: nat)
    requires Inv(s) && i < |s| && Table in s[i].held
    ensures exists j :: CanStep(s, j)
  {
    if !CanStep(s, i) {
      Waits(s, i);
      var j :| 0 <= j < |s| && j != i && s[j].todo != [] && s[i].todo[0].lock in s[j].held;
      if !CanStep(s, j) {
        Waits(s, j);
        assert Table !in s[j].held;
        var k :| 0 <= k < |s| && k != j && s[j].todo[0].lock in s[k].held;
        WqHolderSteps(s, k, s[j].todo[0].lock.wq);
      }
    }
  }

  lemma CqHolder(s: State, i: nat, c: nat)
    requires Inv(s) && i < |s| && Cq(c) in s[i].held
    ensures exists j :: CanStep(s, j)
  {
    if Table in s[i].held {
      TableHolder(s, i);
    } else if !CanStep(s, i) {
      Waits(s, i);
      var k :| 0 <= k < |s| && k != i && s[i].todo[0].lock in s[k].held;
      WqHolderSteps(s, k, s[i].todo[0].lock.wq);
    }
  }

  lemma SomeoneSteps(s: State, i: nat)
    requires Inv(s) && i < |s| && s[i].todo != []
    ensures exists j :: CanStep(s, j)
  {
    if !CanStep(s, i) {
      Waits(s, i);
      var l := s[i].todo[0].lock;
      var j :| 0 <= j < |s| && j != i && s[j].todo != [] && l in s[j].held;
      match l
      case Table => TableHolder(s, j);
      case Cq(c) => CqHolder(s, j, c);
      case Wq(w) => WqHolderSteps(s, j, w);
    }
  }

  lemma {:induction false} AfterInv(s: State, run: seq<nat>)
    requires Inv(s)
    ensures Inv(After(s, run)) && |After(s, run)| == |s|
    decreases |run|
  {
    if run != [] && CanStep(s, run[0]) {
      StepKeeps(s, run[0]);
      AfterInv(Step(s, run[0]), run[1..]);
    }
  }

  /**
   Any number of threads, running any programs that take locks in order, however they share them: in every
   state they can reach, while some thread has work left some thread can take a step.
   */
  lemma OrderlyIsDeadlockFree(programs: seq<seq<Act>>, run: seq<nat>)
    requires forall i :: 0 <= i < |programs| ==> Orderly({}, programs[i])
    ensures var s := After(Ready(programs), run); Finished(s) || exists j :: CanStep(s, j)
  {
    ReadyInv(programs);
    AfterInv(Ready(programs), run);
    var s := After(Ready(programs), run);
    if !Finished(s) {
      var i :| 0 <= i < |s| && s[i] != Thread({}, []);
      SomeoneSteps(s, i);
    }
  }

  ghost predicate AllDisciplined(ops: seq<seq<Operation>>) {
    forall i, k :: 0 <= i < |ops| && 0 <= k < |ops[i]| ==> Disciplined(ops[i][k])
  }

  lemma BeginOrderly(ops: seq<seq<Operation>>) returns (programs: seq<seq<Act>>)
    requires AllDisciplined(ops)
    ensures Begin(ops) == Ready(programs) && forall i :: 0 <= i < |programs| ==> Orderly({}, programs[i])
  {
    programs := seq(|ops|, i requires 0 <= i < |ops| => Programs(ops[i]));
    forall i | 0 <= i < |programs| ensures Orderly({}, programs[i]) { ProgramsOrderly(ops[i]); }
  }

  /**
   So the calls of any number of threads on any queue pairs and completion queues never block for good,
   provided each makes no calls but the session's own inside a send session and, while an extended poll
   is open, only posts besides polling on.
   */
  lemma DeadlockFree(ops: seq<seq<Operation>>, run: seq<nat>)
    requires AllDisciplined(ops)
    ensures var s := After(Begin(ops), run); Finished(s) || exists j :: CanStep(s, j)
  {
    var programs := BeginOrderly(ops);
    OrderlyIsDeadlockFree(programs, run);
  }

  function Work(s: State): nat {
    if s == [] then 0 else |s[|s| - 1].todo| + Work(s[..|s| - 1])
  }

  lemma {:induction false} StepWorks(s: State, i: nat, t: Thread)
    requires i < |s| && |t.todo| == |s[i].todo| - 1
    ensures Work(s[i := t]) == Work(s) - 1
  {
    var n := |s| - 1;
    if i < n {
      StepWorks(s[..n], i, t);
      assert s[i := t][..n] == s[..n][i := t];
    } else {
      assert s[i := t][..n] == s[..n];
    }
  }

  lemma {:induction false} ScheduleLength(s: State, run: seq<nat>)
    requires Schedule(s, run)
    ensures Work(After(s, run)) == Work(s) - |run|
    decreases |run|
  {
    if run != [] {
      var i := run[0];
      var s' := Step(s, i);
      StepWorks(s, i, s'[i]);
      ScheduleLength(s', run[1..]);
    }
  }

  /** And a run that cannot be continued is one in which every call has returned and every lock is free. */
  lemma RunsEndFinished(programs: seq<seq<Act>>, run: seq<nat>)
    requires forall i :: 0 <= i < |programs| ==> Orderly({}, programs[i])
    requires Schedule(Ready(programs), run)
    ensures var s0 := Ready(programs);
            && |run| <= Work(s0)
            && (|run| == Work(s0) ==> Finished(After(s0, run)))
            && (|run| < Work(s0) ==> exists j :: CanStep(After(s0, run), j))
  {
    var s0, s := Ready(programs), After(Ready(programs), run);
    ScheduleLength(s0, run);
    ReadyInv(programs);
    AfterInv(s0, run);
    if Work(s) == 0 {
      NoWork(s);
      assert forall i :: 0 <= i < |s| ==> Orderly(s[i].held, s[i].todo);
    } else {
      SomeWork(s);
      var i :| 0 <= i < |s| && s[i].todo != [];
      SomeoneSteps(s, i);
    }
  }

  lemma {:induction false} NoWork(s: State)
    requires Work(s) == 0
    ensures forall i :: 0 <= i < |s| ==> s[i].todo == []
  {
    if s != [] { NoWork(s[..|s| - 1]); }
  }

  lemma {:induction false} SomeWork(s: State)
    requires Work(s) > 0
    ensures exists i :: 0 <= i < |s| && s[i].todo != []
  {
    if s[|s| - 1].todo == [] {
      SomeWork(s[..|s| - 1]);
      var i :| 0 <= i < |s| - 1 && s[..|s| - 1][i].todo != [];
      assert s[i].todo != [];
    }
  }

  // ---- why the gate and the discipline matter ----------------------------------------------------

  /** This schedule leads to a state with work left in which nobody can take a step. */
  ghost predicate Blocks(s: State, run: seq<nat>) {
    Schedule(s, run) && !Finished(After(s, run)) && forall j :: !CanStep(After(s, run), j)
  }

  lemma Takes(s: State, i: nat, l: Lock, rest: seq<Act>, s': State, run: seq<nat>)
    requires i < |s| && s[i].todo == [Acquire(l)] + rest && !HeldBySome(s, l)
    requires |s'| == |s| && s' == s[i := s'[i]] && s'[i].held == s[i].held + {l} && s'[i].todo == rest
    requires Blocks(s', run)
    ensures Blocks(s, [i] + run)
  {
    assert s[i].todo[1..] == rest && ([i] + run)[1..] == run;
    assert Step(s, i) == s';
  }

  lemma Drops(s: State, i: nat, l: Lock, rest: seq<Act>, s': State, run: seq<nat>)
    requires i < |s| && s[i].todo == [Release(l)] + rest
    requires |s'| == |s| && s' == s[i := s'[i]] && s'[i].held == s[i].held - {l} && s'[i].todo == rest
    requires Blocks(s', run)
    ensures Blocks(s, [i] + run)
  {
    assert s[i].todo[1..] == rest && ([i] + run)[1..] == run;
    assert Step(s, i) == s';
  }

  /** Two threads that each want what the other holds. */
  lemma Embrace(s: State, a: Lock, b: Lock)
    requires |s| == 2 && s[0].todo != [] && s[1].todo != []
    requires s[0].todo[0] == Acquire(a) && a in s[1].held && s[1].todo[0] == Acquire(b) && b in s[0].held
    ensures Blocks(s, [])
  {
  }

  /** A thread that wants what it holds itself. */
  lemma Alone(t: Thread, a: Lock)
    requires t.todo != [] && t.todo[0] == Acquire(a) && a in t.held
    ensures Blocks([t], [])
  {
    assert [t][0] != Thread({}, []);
    assert a in [t][0].held;
  }

  /** Two destroys without the table lock, on completion queues shared in opposite roles, can block. */
  lemma GateNeeded()
    ensures Blocks([Thread({}, BothCqs(0, 1)), Thread({}, BothCqs(1, 0))], [0, 1])
  {
    var a, b := BothCqs(0, 1), BothCqs(1, 0);
    var s := [Thread({}, a), Thread({}, b)];
    var s1 := [Thread({Cq(1)}, a[1..]), s[1]];
    var s2 := [s1[0], Thread({Cq(0)}, b[1..])];
    Embrace(s2, Cq(0), Cq(1));
    Takes(s1, 1, Cq(0), b[1..], s2, []);
    Takes(s, 0, Cq(1), a[1..], s1, [1] + []);
    assert [0] + ([1] + []) == [0, 1];
  }

  /** Polling inside a send session can block the thread on itself, giving back to the queue in session. */
  lemma PollInsideSessionBlocks(w: nat, c: nat)
    ensures Blocks([Thread({}, Program(Post(w, [Poll(c, [Post(w, [])])])))], [0, 0])
  {
    var acts := Program(Post(w, [Poll(c, [Post(w, [])])]));
    NestedProgram(Poll(c, [Post(w, [])]));
    NestedProgram(Post(w, []));
    assert acts[0] == Acquire(Wq(w)) && acts[1] == Acquire(Cq(c)) && acts[2] == Acquire(Wq(w));
    TwoLocksThen(acts, Wq(w), Cq(c));
    Alone(Thread({Wq(w), Cq(c)}, acts[2..]), Wq(w));
    BlocksAlone(acts, Wq(w), Cq(c), [Thread({Wq(w), Cq(c)}, acts[2..])]);
  }

  lemma NestedProgram(op: Operation)
    ensures Programs([op]) == Program(op)
  {
    assert Programs([op]) == Program(op) + Programs([op][1..]);
  }

  lemma TwoLocksThen(acts: seq<Act>, a: Lock, b: Lock)
    requires |acts| > 2 && acts[0] == Acquire(a) && acts[1] == Acquire(b)
    ensures acts == [Acquire(a)] + ([Acquire(b)] + acts[2..])
  {
  }

  lemma BlocksAlone(acts: seq<Act>, a: Lock, b: Lock, s2: State)
    requires |acts| > 2 && a != b && acts == [Acquire(a)] + ([Acquire(b)] + acts[2..])
    requires s2 == [Thread({a, b}, acts[2..])] && Blocks(s2, [])
    ensures Blocks([Thread({}, acts)], [0, 0])
  {
    var s1 := [Thread({a}, [Acquire(b)] + acts[2..])];
    Takes(s1, 0, b, acts[2..], s2, []);
    Takes([Thread({}, acts)], 0, a, [Acquire(b)] + acts[2..], s1, [0] + []);
    assert [0] + ([0] + []) == [0, 0];
  }

  /** Two threads that each start a second extended poll inside their first, in opposite orders, can block. */
  lemma NestedPollsBlock(c: nat, d: nat)
    requires c != d
    ensures Blocks([Thread({}, Program(Poll(c, [Poll(d, [])]))), Thread({}, Program(Poll(d, [Poll(c, [])])))], [0, 1])
  {
    var a, b := Program(Poll(c, [Poll(d, [])])), Program(Poll(d, [Poll(c, [])]));
    NestedProgram(Poll(d, []));
    NestedProgram(Poll(c, []));
    var s := [Thread({}, a), Thread({}, b)];
    var s1 := [Thread({Cq(c)}, a[1..]), s[1]];
    var s2 := [s1[0], Thread({Cq(d)}, b[1..])];
    assert a == [Acquire(Cq(c))] + a[1..] && b == [Acquire(Cq(d))] + b[1..];
    assert a[1] == Acquire(Cq(d)) && b[1] == Acquire(Cq(c));
    Embrace(s2, Cq(d), Cq(c));
    Takes(s1, 1, Cq(d), b[1..], s2, []);
    Takes(s, 0, Cq(c), a[1..], s1, [1] + []);
    assert [0] + ([1] + []) == [0, 1];
  }

  /** So can two that destroy queue pairs inside an open poll, each of the other's completion queue. */
  lemma DestroyInsidePollBlocks(c: nat, d: nat)
    requires c != d
    ensures Blocks([Thread({}, Program(Poll(c, [Destroy(d, d)]))), Thread({}, Program(Poll(d, [Destroy(c, c)])))],
                   [0, 1, 0])
  {
    var a, b := Program(Poll(c, [Destroy(d, d)])), Program(Poll(d, [Destroy(c, c)]));
    NestedProgram(Destroy(d, d));
    NestedProgram(Destroy(c, c));
    var s := [Thread({}, a), Thread({}, b)];
    var s1 := [Thread({Cq(c)}, a[1..]), s[1]];
    var s2 := [s1[0], Thread({Cq(d)}, b[1..])];
    var s3 := [Thread({Cq(c), Table}, a[2..]), s2[1]];
    assert a[0] == Acquire(Cq(c)) && a[1] == Acquire(Table) && a[2] == Acquire(Cq(d));
    assert b[0] == Acquire(Cq(d)) && b[1] == Acquire(Table);
    Embrace(s3, Cq(d), Table);
    assert a[1..] == [Acquire(Table)] + a[2..] && a == [Acquire(Cq(c))] + a[1..] && b == [Acquire(Cq(d))] + b[1..];
    Takes(s2, 0, Table, a[2..], s3, []);
    Takes(s1, 1, Cq(d), b[1..], s2, [0] + []);
    Takes(s, 0, Cq(c), a[1..], s1, [1] + ([0] + []));
    assert [0] + ([1] + ([0] + [])) == [0, 1, 0];
  }

  /** And a thread that creates a queue pair inside an open poll of its completion queue blocks on itself. */
  lemma CreateInsidePollBlocks(c: nat, r: nat)
    ensures Blocks([Thread({}, Program(Poll(c, [Create(c, r)])))], [0, 0, 0])
  {
    var a := Program(Poll(c, [Create(c, r)]));
    NestedProgram(Create(c, r));
    assert a[0] == Acquire(Cq(c)) && a[1] == Acquire(Table) && a[2] == Release(Table) && a[3] == Acquire(Cq(c));
    assert a == [Acquire(Cq(c))] + a[1..] && a[1..] == [Acquire(Table)] + a[2..] && a[2..] == [Release(Table)] + a[3..];
    var s1, s2, s3 := [Thread({Cq(c)}, a[1..])], [Thread({Cq(c), Table}, a[2..])], [Thread({Cq(c)}, a[3..])];
    Alone(s3[0], Cq(c));
    Drops(s2, 0, Table, a[3..], s3, []);
    Takes(s1, 0, Table, a[2..], s2, [0] + []);
    Takes([Thread({}, a)], 0, Cq(c), a[1..], s1, [0] + ([0] + []));
    assert [0] + ([0] + ([0] + [])) == [0, 0, 0];
  }
}
