/**
 The queue pairs of a context: the table a completion's queue-pair number is looked up in, with the
 number masked by the table size, and the reference counts by which polling skips unused sub queues.
 */
module QpRegistry {
  import opened Words
  import opened CompletionRing
  import opened Polling
  import opened ExtendedPolling

  /** A queue pair and the sub queues its completions go to. */
  datatype Qp = Qp(num: nat, sendCq: nat, sendSub: nat, recvCq: nat, recvSub: nat)

  /** `refs` holds the reference count of each sub queue of each completion queue. */
  datatype Reg = Reg(table: seq<Option<Qp>>, refs: seq<seq<nat>>)

  /** Sub queue indices pass through an 8-bit parameter. */
  function Index8(i: nat): nat { i % 256 }

  function SlotFor(num: nat, size: nat): (r: nat)
    requires size > 0
    ensures r < size
  {
    BitAnd(num, size - 1)
  }

  predicate InRange(refs: seq<seq<nat>>, c: nat, sub: nat) { c < |refs| && Index8(sub) < |refs[c]| }

  predicate Fits(r: Reg, qp: Qp) {
    0 < |r.table| && InRange(r.refs, qp.sendCq, qp.sendSub) && InRange(r.refs, qp.recvCq, qp.recvSub)
  }

  /** efa_cq_inc_ref_cnt and efa_cq_dec_ref_cnt; the count has 32 bits. */
  function AddRef(refs: seq<seq<nat>>, c: nat, sub: nat, d: int): (r: seq<seq<nat>>)
    requires InRange(refs, c, sub)
    ensures |r| == |refs| && forall c' :: 0 <= c' < |refs| ==> |r[c']| == |refs[c']|
  {
    var counts: seq<nat> := refs[c][Index8(sub) := Wrap32(refs[c][Index8(sub)] + d)];
    refs[c := counts]
  }

  /** Of up to 256 sub queues exactly the one meant is counted. */
  lemma CountsTheSubQueue(refs: seq<seq<nat>>, c: nat, sub: nat, d: int)
    requires c < |refs| && sub < |refs[c]| <= 256
    ensures InRange(refs, c, sub)
    ensures AddRef(refs, c, sub, d)[c][sub] == Wrap32(refs[c][sub] + d)
    ensures forall k :: 0 <= k < |refs[c]| && k != sub ==> AddRef(refs, c, sub, d)[c][k] == refs[c][k]
    ensures forall c' :: 0 <= c' < |refs| && c' != c ==> AddRef(refs, c, sub, d)[c'] == refs[c']
  {
    hide Wrap32;
    DivModUnique(sub, 256, 0, sub);
  }

  function AddRefs(r: Reg, qp: Qp, d: int): Reg
    requires Fits(r, qp)
  {
    r.(refs := AddRef(AddRef(r.refs, qp.sendCq, qp.sendSub, d), qp.recvCq, qp.recvSub, d))
  }

  /** The effect of create_qp once the device has made the queue pair. */
  function Publish(r: Reg, qp: Qp): Reg
    requires Fits(r, qp)
  {
    AddRefs(r.(table := r.table[SlotFor(qp.num, |r.table|) := Some(qp)]), qp, 1)
  }

  function Withdraw(r: Reg, qp: Qp): Reg
    requires Fits(r, qp)
  {
    var r1 := AddRefs(r, qp, -1);
    r1.(table := r1.table[SlotFor(qp.num, |r.table|) := None])
  }

  function Find(r: Reg, num: nat): Option<Qp>
    requires 0 < |r.table|
  {
    r.table[SlotFor(num, |r.table|)]
  }

  // ---- what the registry means -------------------------------------------------------------------

  function Uses(qp: Qp, c: nat, k: nat): nat {
    (if qp.sendCq == c && Index8(qp.sendSub) == k then 1 else 0) +
    (if qp.recvCq == c && Index8(qp.recvSub) == k then 1 else 0)
  }

  /** How many send and receive queues of the live queue pairs are attached to a sub queue. */
  function Attached(live: seq<Qp>, c: nat, k: nat): nat {
    if live == [] then 0 else Uses(live[|live| - 1], c, k) + Attached(live[..|live| - 1], c, k)
  }

  function Without(live: seq<Qp>, i: nat): seq<Qp>
    requires i < |live|
  {
    live[..i] + live[i + 1..]
  }

  ghost predicate Counted(r: Reg, live: seq<Qp>) {
    forall c, k :: 0 <= c < |r.refs| && 0 <= k < |r.refs[c]| ==> r.refs[c][k] == Wrap32(Attached(live, c, k))
  }

  /** A slot holds the live queue pair whose number selects it, and nothing if there is none. */
  ghost predicate Agrees(r: Reg, live: seq<Qp>) {
    && 0 < |r.table|
    && (forall i :: 0 <= i < |live| ==> Find(r, live[i].num) == Some(live[i]))
    && (forall i, j :: 0 <= i < j < |live| ==> live[i].num != live[j].num)
    && (forall s :: 0 <= s < |r.table| && r.table[s].Some? ==>
          r.table[s].value in live && SlotFor(r.table[s].value.num, |r.table|) == s)
  }

  ghost predicate Inv(r: Reg, live: seq<Qp>) {
    && (forall i :: 0 <= i < |live| ==> Fits(r, live[i]))
    && Counted(r, live) && Agrees(r, live)
  }

  /** No live queue pair's number selects the same slot. */
  ghost predicate SlotFree(live: seq<Qp>, num: nat, size: nat)
    requires size > 0
  {
    forall i :: 0 <= i < |live| ==> SlotFor(live[i].num, size) != SlotFor(num, size)
  }

  lemma {:induction false} AttachedWithout(live: seq<Qp>, i: nat, c: nat, k: nat)
    requires i < |live|
    ensures Attached(Without(live, i), c, k) == Attached(live, c, k) - Uses(live[i], c, k)
  {
    hide Uses;
    var n := |live| - 1;
    if i < n {
      AttachedWithout(live[..n], i, c, k);
      var w := Without(live, i);
      assert w[..|w| - 1] == Without(live[..n], i);
    } else {
      assert Without(live, i) == live[..n];
    }
  }

  lemma AttachedMore(live: seq<Qp>, qp: Qp, c: nat, k: nat)
    ensures Attached(live + [qp], c, k) == Attached(live, c, k) + Uses(qp, c, k)
  {
    hide Uses;
    assert (live + [qp])[..|live|] == live;
  }

  /** Updating both counts of a queue pair, which may be one and the same, adds its uses everywhere. */
  lemma AddRefsCounts(r: Reg, qp: Qp, d: int, c: nat, k: nat, n: int)
    requires Fits(r, qp) && c < |r.refs| && k < |r.refs[c]| && r.refs[c][k] == Wrap32(n)
    ensures AddRefs(r, qp, d).refs[c][k] == Wrap32(n + d * Uses(qp, c, k))
  {
    hide Wrap32;
    Wrap32Add(n, d);
    Wrap32Add(n + d, d);
  }

  lemma {:induction false} PublishCounts(r: Reg, live: seq<Qp>, qp: Qp)
    requires Fits(r, qp) && Counted(r, live)
    ensures Counted(Publish(r, qp), live + [qp])
  {
    hide Wrap32, AddRefs, Uses;
    var r0 := r.(table := r.table[SlotFor(qp.num, |r.table|) := Some(qp)]);
    AddRefsShape(r0, qp, 1);
    var r' := Publish(r, qp);
    forall c, k | 0 <= c < |r'.refs| && 0 <= k < |r'.refs[c]|
      ensures r'.refs[c][k] == Wrap32(Attached(live + [qp], c, k))
    {
      AddRefsCounts(r0, qp, 1, c, k, Attached(live, c, k));
      AttachedMore(live, qp, c, k);
    }
  }

  lemma {:induction false} WithdrawCounts(r: Reg, live: seq<Qp>, i: nat)
    requires i < |live| && Fits(r, live[i]) && Counted(r, live)
    ensures Counted(Withdraw(r, live[i]), Without(live, i))
  {
    hide Wrap32, AddRefs, Uses, Without;
    var qp := live[i];
    AddRefsShape(r, qp, -1);
    var r' := Withdraw(r, qp);
    forall c, k | 0 <= c < |r'.refs| && 0 <= k < |r'.refs[c]|
      ensures r'.refs[c][k] == Wrap32(Attached(Without(live, i), c, k))
    {
      AddRefsCounts(r, qp, -1, c, k, Attached(live, c, k));
      AttachedWithout(live, i, c, k);
    }
  }

  lemma AddRefsShape(r: Reg, qp: Qp, d: int)
    requires Fits(r, qp)
    ensures var a := AddRefs(r, qp, d);
            && a.table == r.table && |a.refs| == |r.refs|
            && forall c :: 0 <= c < |r.refs| ==> |a.refs[c]| == |r.refs[c]|
  {
  }

  /** The table goes on agreeing with the live queue pairs exactly when the new one's slot was free. */
  lemma PublishAgrees(r: Reg, live: seq<Qp>, qp: Qp)
    requires Fits(r, qp) && Agrees(r, live)
    ensures Agrees(Publish(r, qp), live + [qp]) <==> SlotFree(live, qp.num, |r.table|)
  {
    hide AddRefs, BitAnd;
    var r', live', size := Publish(r, qp), live + [qp], |r.table|;
    AddRefsShape(r.(table := r.table[SlotFor(qp.num, size) := Some(qp)]), qp, 1);
    if Agrees(r', live') {
      forall i | 0 <= i < |live| ensures SlotFor(live[i].num, size) != SlotFor(qp.num, size) {
        assert live'[i] == live[i] && live'[|live|] == qp;
      }
    }
    if SlotFree(live, qp.num, size) {
      forall s | 0 <= s < size && r'.table[s].Some? ensures r'.table[s].value in live' {
        if s != SlotFor(qp.num, size) { assert r.table[s].value in live; }
      }
    }
  }

  lemma WithdrawTable(r: Reg, qp: Qp)
    requires Fits(r, qp)
    ensures Withdraw(r, qp).table == r.table[SlotFor(qp.num, |r.table|) := None]
  {
    hide AddRefs, BitAnd;
    AddRefsShape(r, qp, -1);
  }

  /** Where the j-th of the others was, and where the k-th goes. */
  function Before(i: nat, j: nat): nat { if j < i then j else j + 1 }

  lemma WithoutAt(live: seq<Qp>, i: nat, j: nat)
    requires i < |live| && j < |live| - 1
    ensures |Without(live, i)| == |live| - 1 && Without(live, i)[j] == live[Before(i, j)]
  {
  }

  lemma WithoutKeeps(live: seq<Qp>, i: nat, k: nat)
    requires i < |live| && k < |live| && k != i
    ensures live[k] in Without(live, i)
  {
    WithoutAt(live, i, if k < i then k else k - 1);
  }

  lemma DifferentNumbers(r: Reg, live: seq<Qp>, j: nat, k: nat)
    requires Agrees(r, live) && j < |live| && k < |live| && j != k
    ensures live[j].num != live[k].num
    ensures SlotFor(live[j].num, |r.table|) != SlotFor(live[k].num, |r.table|)
  {
    hide SlotFor;
    assert Find(r, live[j].num) == Some(live[j]) && Find(r, live[k].num) == Some(live[k]);
  }

  /** Destroying always keeps agreement: numbers in agreement select different slots. */
  lemma WithdrawAgrees(r: Reg, live: seq<Qp>, i: nat)
    requires i < |live| && Fits(r, live[i]) && Agrees(r, live)
    ensures Agrees(Withdraw(r, live[i]), Without(live, i))
  {
    hide SlotFor, Withdraw, Without, AddRefs, InRange;
    var r', live', size := Withdraw(r, live[i]), Without(live, i), |r.table|;
    WithdrawTable(r, live[i]);
    if |live| > 1 { WithoutAt(live, i, 0); } else { WithoutAll(live); }
    forall j | 0 <= j < |live'| ensures Find(r', live'[j].num) == Some(live'[j]) {
      WithoutAt(live, i, j);
      assert Find(r, live[Before(i, j)].num) == Some(live[Before(i, j)]);
      DifferentNumbers(r, live, Before(i, j), i);
    }
    forall a, b | 0 <= a < b < |live'| ensures live'[a].num != live'[b].num {
      WithoutAt(live, i, a);
      WithoutAt(live, i, b);
      DifferentNumbers(r, live, Before(i, a), Before(i, b));
    }
    forall s | 0 <= s < size && r'.table[s].Some?
      ensures r'.table[s].value in live' && SlotFor(r'.table[s].value.num, size) == s
    {
      var j :| 0 <= j < |live| && live[j] == r.table[s].value;
      WithoutKeeps(live, i, j);
    }
  }

  lemma WithoutAll(live: seq<Qp>)
    requires |live| == 1
    ensures Without(live, 0) == []
  {
  }

  // ---- runs --------------------------------------------------------------------------------------

  datatype Call = Created(qp: Qp) | CreateFailed | Destroyed(i: nat)

  datatype State = State(reg: Reg, live: seq<Qp>)

  ghost predicate Allowed(s: State, e: Call) {
    match e
    case Created(qp) => Fits(s.reg, qp) && SlotFree(s.live, qp.num, |s.reg.table|)
    case CreateFailed => true
    case Destroyed(i) => i < |s.live| && Fits(s.reg, s.live[i])
  }

  ghost function Do(s: State, e: Call): State
    requires Allowed(s, e)
  {
    match e
    case Created(qp) => State(Publish(s.reg, qp), s.live + [qp])
    case CreateFailed => s
    case Destroyed(i) => State(Withdraw(s.reg, s.live[i]), Without(s.live, i))
  }

  ghost predicate Runs(s: State, es: seq<Call>, s': State)
    decreases |es|
  {
    if es == [] then s == s' else Allowed(s, es[0]) && Runs(Do(s, es[0]), es[1..], s')
  }

  function EmptyReg(size: nat, cqs: nat, subs: nat): Reg {
    Reg(seq(size, i => None), seq(cqs, i => seq(subs, j => 0)))
  }

  lemma DoKeeps(s: State, e: Call)
    requires Inv(s.reg, s.live) && Allowed(s, e)
    ensures Inv(Do(s, e).reg, Do(s, e).live)
  {
    hide AddRefs, BitAnd, Counted, Agrees;
    match e
    case Created(qp) =>
      AddRefsShape(s.reg.(table := s.reg.table[SlotFor(qp.num, |s.reg.table|) := Some(qp)]), qp, 1);
      PublishCounts(s.reg, s.live, qp);
      PublishAgrees(s.reg, s.live, qp);
    case CreateFailed =>
    case Destroyed(i) =>
      AddRefsShape(s.reg, s.live[i], -1);
      WithdrawCounts(s.reg, s.live, i);
      WithdrawAgrees(s.reg, s.live, i);
  }

  /**
   After any run of creates, failed creates and destroys: the masked table is the map of live queue
   pairs, and each sub queue's count is the number of live queues attached to it.
   */
  lemma {:induction false} RegistryRuns(s: State, es: seq<Call>, s': State)
    requires Inv(s.reg, s.live) && Runs(s, es, s')
    ensures Inv(s'.reg, s'.live)
    decreases |es|
  {
    hide Inv, Do, Allowed;
    if es != [] {
      DoKeeps(s, es[0]);
      RegistryRuns(Do(s, es[0]), es[1..], s');
    }
  }

  lemma EmptyInv(size: nat, cqs: nat, subs: nat)
    requires 0 < size
    ensures Inv(EmptyReg(size, cqs, subs), [])
  {
  }

  /** So in particular after any run from an empty registry, with any number of completion and sub queues. */
  lemma RegistryFromEmpty(size: nat, cqs: nat, subs: nat, es: seq<Call>, s: State)
    requires 0 < size && Runs(State(EmptyReg(size, cqs, subs), []), es, s)
    ensures Inv(s.reg, s.live)
  {
    EmptyInv(size, cqs, subs);
    RegistryRuns(State(EmptyReg(size, cqs, subs), []), es, s);
  }

  /** Numbers below a power-of-two table size are their own slots, so distinct numbers never collide. */
  lemma NumbersBelowSizeDiffer(num: nat, size: nat)
    requires IsPow2(size) && num < size
    ensures SlotFor(num, size) == num
  {
    var k: nat :| Pow2(k) == size;
    MaskPow2(num, k);
    DivModUnique(num, size, 0, num);
  }

  /** A collision: the newer queue pair hides the older one, and its destroy leaves the older one unreachable. */
  lemma CollisionLosesQp(size: nat, a: Qp, b: Qp)
    requires 0 < size && a.num != b.num && SlotFor(a.num, size) == SlotFor(b.num, size)
    requires a == Qp(a.num, 0, 0, 0, 0) && b == Qp(b.num, 0, 0, 0, 0)
    ensures var r := EmptyReg(size, 1, 1);
            var r1 := Publish(Publish(r, a), b);
            Find(r1, a.num) == Some(b) && Find(Withdraw(r1, b), a.num) == None
  {
    hide BitAnd;
  }

  // ---- what polling sees -------------------------------------------------------------------------

  /** The table as polling uses it: each queue pair by its number. */
  function Numbers(table: seq<Option<Qp>>): seq<Option<nat>> {
    seq(|table|, s requires 0 <= s < |table| => if table[s].Some? then Some(table[s].value.num) else None)
  }

  /** An entry's queue pair is found exactly when it is live. */
  lemma PollingFindsLive(r: Reg, live: seq<Qp>, q: Cq, c: Cqe)
    requires Agrees(r, live) && q.table == Numbers(r.table)
    ensures TableOk(q)
    ensures Taking(q, c).live <==> exists i :: 0 <= i < |live| && live[i].num == c.qpNum
  {
    hide BitAnd;
    if Taking(q, c).live {
      var qp := r.table[SlotFor(c.qpNum, |r.table|)].value;
      var i :| 0 <= i < |live| && live[i] == qp;
      assert live[i].num == c.qpNum;
    }
    if i :| 0 <= i < |live| && live[i].num == c.qpNum {
      assert Find(r, live[i].num) == Some(live[i]);
    }
  }

  /** While fewer than 2^32 queues exist, a count is zero exactly when nothing is attached. */
  lemma ReferencedWhenAttached(r: Reg, live: seq<Qp>, c: nat, k: nat)
    requires Counted(r, live) && c < |r.refs| && k < |r.refs[c]| && 2 * |live| < U32
    ensures r.refs[c][k] > 0 <==>
              exists i :: 0 <= i < |live| && Uses(live[i], c, k) > 0
  {
    hide Wrap32;
    AttachedBound(live, c, k);
    AttachedSome(live, c, k);
  }

  lemma {:induction false} AttachedBound(live: seq<Qp>, c: nat, k: nat)
    ensures Attached(live, c, k) <= 2 * |live|
  {
    if live != [] { AttachedBound(live[..|live| - 1], c, k); }
  }

  lemma {:induction false} AttachedSome(live: seq<Qp>, c: nat, k: nat)
    ensures Attached(live, c, k) > 0 <==> exists i :: 0 <= i < |live| && Uses(live[i], c, k) > 0
  {
    hide Uses;
    if live != [] {
      var n := |live| - 1;
      AttachedSome(live[..n], c, k);
      if i :| 0 <= i < |live| && Uses(live[i], c, k) > 0 {
        if i < n { assert live[..n][i] == live[i]; }
      }
    }
  }

  // ---- in place ----------------------------------------------------------------------------------

  class Context {
    const table: array<Option<Qp>>
    const refCnt: array2<nat>      // one row for each completion queue

    ghost function View(): Reg
      reads table, refCnt
    {
      Reg(table[..], seq(refCnt.Length0, c requires 0 <= c < refCnt.Length0 reads refCnt =>
                       seq(refCnt.Length1, k requires 0 <= k < refCnt.Length1 reads refCnt => refCnt[c, k])))
    }

    constructor (size: nat, cqs: nat, subs: nat)
      ensures View() == EmptyReg(size, cqs, subs) && fresh(table) && fresh(refCnt)
    {
      table := new Option<Qp>[size](i => None);
      refCnt := new nat[cqs, subs]((i, j) => 0);
      new;
      assert table[..] == seq(size, i => None);
      ghost var row := seq(subs, j => 0);
      assert forall c :: 0 <= c < cqs ==> View().refs[c] == row;
      assert View().refs == seq(cqs, i => row);
    }

    method AddRefCnt(c: nat, sub: nat, d: int)
      requires InRange(View().refs, c, sub)
      modifies refCnt
      ensures View() == old(View()).(refs := AddRef(old(View()).refs, c, sub, d))
    {
      var k := Index8(sub);
      ghost var before := View();
      refCnt[c, k] := Wrap32(refCnt[c, k] + d);
      ghost var want := AddRef(before.refs, c, sub, d);
      assert forall c' :: 0 <= c' < |want| ==> View().refs[c'] == want[c'];
      assert View().refs == want;
    }

    /** create_qp: whether the checks, the device and the initialisation succeeded comes from outside. */
    method CreateQp(qp: Qp, succeeds: bool) returns (ok: bool)
      requires Fits(View(), qp)
      modifies table, refCnt
      ensures ok == succeeds
      ensures View() == if ok then Publish(old(View()), qp) else old(View())
    {
      if !succeeds { return false; }
      table[SlotFor(qp.num, table.Length)] := Some(qp);
      AddRefCnt(qp.sendCq, qp.sendSub, 1);
      AddRefCnt(qp.recvCq, qp.recvSub, 1);
      return true;
    }

    /** efa_destroy_qp. */
    method DestroyQp(qp: Qp)
      requires Fits(View(), qp)
      modifies table, refCnt
      ensures View() == Withdraw(old(View()), qp)
    {
      AddRefCnt(qp.sendCq, qp.sendSub, -1);
      AddRefCnt(qp.recvCq, qp.recvSub, -1);
      table[SlotFor(qp.num, table.Length)] := None;
    }
  }
}
