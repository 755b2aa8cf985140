/**
 The send queue: posting a list of requests straight into the device ring, and the session calls that
 build descriptors in a local queue and publish them all at once or not at all.
 */
module SendRing {
  import opened Words
  import opened WridPool
  import opened DeviceRing

  datatype Errno = OK | EINVAL | ENOMEM

  datatype QpState = RESET | INIT | RTR | RTS | SQD | SQE | ERR | UNKNOWN

  const SEND_SIGNALED: bv32 := 2
  const SEND_INLINE: bv32 := 8

  const OP_SEND: bv8 := 0
  const OP_RDMA_READ: bv8 := 1

  /** A scatter/gather entry: `mem` is the memory at `addr`, so its length is the entry's length. */
  datatype Sge = Sge(addr: bv64, lkey: bv32, mem: seq<bv8>)

  datatype TxBuf = TxBuf(length: nat, lkey: bv32, lo: bv32, hi: bv32)

  // What the 32-byte data part of a descriptor holds.
  const INLINE_MAX := 32
  const NUM_BUFS := 2
  const NUM_RDMA_BUFS := 1

  /** The part of a payload that lands in the descriptor; anything more is written beyond it. */
  function Held<T>(s: seq<T>, room: nat): (r: seq<T>)
    ensures |r| <= room && r <= s && (r == s <==> |s| <= room)
  {
    if |s| <= room then s else s[..room]
  }

  datatype TxData = Blank | Sgl(bufs: seq<TxBuf>) | InlineBytes(bytes: seq<bv8>)
    | Rdma(rkey: bv32, lo: bv32, hi: bv32, length: nat, local: seq<TxBuf>)

  /** A 64-byte send descriptor. */
  datatype TxWqe = TxWqe(reqId: nat, ctrl1: bv8, ctrl2: bv8, destQpNum: nat, length: nat, imm: bv32, ah: nat,
                         qkey: bv32, data: TxData)

  const ZERO := TxWqe(0, 0, 0, 0, 0, 0, 0, 0, Blank)

  datatype Opcode = Send | SendWithImm | OtherOpcode

  datatype SendWr = SendWr(wrId: nat, opcode: Opcode, flags: bv32, imm: bv32, sgl: seq<Sge>, ah: nat,
                           remoteQpn: nat, remoteQkey: bv32)

  /** What does not change while a queue posts. */
  datatype Config = Config(state: QpState, sigAll: bool, maxSge: nat, maxInline: nat, maxRdmaSge: nat, maxBatch: nat)

  /** The send queue's value: counters, device ring, local queue, session fields, doorbell writes so far. */
  datatype Sq = Sq(wq: Wq, ring: seq<TxWqe>, local: seq<TxWqe>, pending: nat, phaseRb: nat, err: Errno, bells: seq<nat>)

  // ---- descriptor fields -------------------------------------------------------------------------

  /** EFA_SET on an 8-bit field. */
  function SetField(x: bv8, mask: bv8, shift: bv8, value: bv8): bv8
    requires shift < 8
  {
    (x & !mask) | ((value << shift) & mask)
  }

  function PhaseBit(phase: nat): bv8 { if phase % 2 == 1 then 1 else 0 }

  function SetMetaAndOp(ctrl1: bv8, op: bv8): bv8 { SetField(SetField(ctrl1, 0x80, 7, 1), 0x0F, 0, op) }

  function SetHasImm(ctrl1: bv8): bv8 { SetField(ctrl1, 0x10, 4, 1) }

  function SetInlineMsg(ctrl1: bv8): bv8 { SetField(ctrl1, 0x20, 5, 1) }

  function SetCtrl2(ctrl2: bv8, phase: bv8): bv8 {
    SetField(SetField(SetField(SetField(ctrl2, 0x01, 0, phase), 0x04, 2, 1), 0x08, 3, 1), 0x10, 4, 1)
  }

  function CommonFlags(d: TxWqe, phase: nat, op: bv8): TxWqe {
    d.(ctrl1 := SetMetaAndOp(d.ctrl1, op), ctrl2 := SetCtrl2(d.ctrl2, PhaseBit(phase)))
  }

  /** The control bits do not interfere: the two posting paths set them in opposite orders. */
  lemma FlagsCommute(x: bv8, op: bv8)
    ensures SetMetaAndOp(SetHasImm(x), op) == SetHasImm(SetMetaAndOp(x, op))
    ensures SetMetaAndOp(SetInlineMsg(x), op) == SetInlineMsg(SetMetaAndOp(x, op))
    ensures SetInlineMsg(SetHasImm(x)) == SetHasImm(SetInlineMsg(x))
  {
  }

  /** What the device decodes from the control bytes. */
  lemma FlagsDecode(x: bv8, y: bv8, phase: bv8, op: bv8)
    requires phase <= 1 && op < 16
    ensures SetMetaAndOp(x, op) & 0x0F == op && SetMetaAndOp(x, op) & 0x80 == 0x80
    ensures SetMetaAndOp(x, op) & 0x30 == x & 0x30
    ensures SetCtrl2(y, phase) & 0x01 == phase && SetCtrl2(y, phase) & 0x1C == 0x1C
  {
  }

  function ToTxBuf(s: Sge): TxBuf {
    TxBuf(|s.mem|, s.lkey & 0xFF_FFFF, (s.addr & 0xFFFF_FFFF) as bv32, (s.addr >> 32) as bv32)
  }

  /** The address a device rejoins from a buffer descriptor. */
  function Rejoin(b: TxBuf): bv64 { ((b.hi as bv64) << 32) | (b.lo as bv64) }

  lemma AddressSurvives(s: Sge)
    ensures Rejoin(ToTxBuf(s)) == s.addr
  {
  }

  function TotalBytes(sgl: seq<Sge>): nat { if sgl == [] then 0 else |sgl[0].mem| + TotalBytes(sgl[1..]) }

  function Gather(sgl: seq<Sge>): (r: seq<bv8>)
    ensures |r| == TotalBytes(sgl)
  {
    if sgl == [] then [] else sgl[0].mem + Gather(sgl[1..])
  }

  function ToTxBufs(sgl: seq<Sge>): (r: seq<TxBuf>)
    ensures |r| == |sgl|
  {
    seq(|sgl|, i requires 0 <= i < |sgl| => ToTxBuf(sgl[i]))
  }

  // ---- validation --------------------------------------------------------------------------------

  function ValidateFlags(cfg: Config, flags: bv32): Errno {
    if cfg.state != RTS && cfg.state != SQD then EINVAL
    else if flags & SEND_SIGNALED == 0 && !cfg.sigAll then EINVAL
    else if flags & !(SEND_SIGNALED | SEND_INLINE) != 0 then EINVAL
    else OK
  }

  /** efa_post_send_validate: the flags, then flow control. */
  function Validate(w: Wq, cfg: Config, flags: bv32): Errno {
    if ValidateFlags(cfg, flags) != OK then ValidateFlags(cfg, flags) else if Full(w) then ENOMEM else OK
  }

  function ValidateBody(cfg: Config, wr: SendWr): Errno {
    if wr.opcode == OtherOpcode then EINVAL
    else if wr.flags & SEND_INLINE != 0 then if TotalBytes(wr.sgl) > cfg.maxInline then EINVAL else OK
    else if |wr.sgl| > cfg.maxSge then EINVAL else OK
  }

  function ValidateWr(w: Wq, cfg: Config, wr: SendWr): Errno {
    if Validate(w, cfg, wr.flags) != OK then Validate(w, cfg, wr.flags) else ValidateBody(cfg, wr)
  }

  // ---- list posting ------------------------------------------------------------------------------

  function SetPayload(d: TxWqe, wr: SendWr): TxWqe {
    if wr.flags & SEND_INLINE != 0
    then d.(ctrl1 := SetInlineMsg(d.ctrl1), length := Wrap16(TotalBytes(wr.sgl)),
            data := InlineBytes(Held(Gather(wr.sgl), INLINE_MAX)))
    else d.(length := Wrap16(|wr.sgl|), data := Sgl(Held(ToTxBufs(wr.sgl), NUM_BUFS)))
  }

  function SetImm(d: TxWqe, imm: bv32): TxWqe { d.(imm := imm, ctrl1 := SetHasImm(d.ctrl1)) }

  function SetAddress(d: TxWqe, ah: nat, qpn: nat, qkey: bv32): TxWqe {
    d.(destQpNum := Wrap16(qpn), ah := ah, qkey := qkey)
  }

  /** The descriptor efa_post_send builds, in its order: payload, immediate, common bits, addressing. */
  function Build(wr: SendWr, phase: nat, idx: nat): TxWqe {
    var d := SetPayload(ZERO, wr);
    var d := if wr.opcode == SendWithImm then SetImm(d, wr.imm) else d;
    SetAddress(CommonFlags(d, phase, OP_SEND).(reqId := Wrap16(idx)), wr.ah, wr.remoteQpn, wr.remoteQkey)
  }

  /** Reserving an index, counting the request and moving over its descriptor. */
  function Take(w: Wq, wrId: nat): (w': Wq)
    requires Shape(w) && !Full(w)
    ensures Shape(w') && w'.next == w.next + 1 && w'.cnt == w.cnt && w'.pool == w.pool
  {
    CountersMove(w);
    StepPc(CountPosted(Reserve(w, wrId)))
  }

  /** Send queues have one descriptor per request, so the ring and the index pool have one size. */
  ghost predicate SqOk(sq: Sq) {
    Shape(sq.wq) && RingSize(sq.wq.cnt) && 0 < sq.wq.cnt == sq.wq.mask + 1 && |sq.ring| == |sq.local| == sq.wq.cnt
  }

  function PutInRing(sq: Sq, d: TxWqe): (r: seq<TxWqe>)
    requires SqOk(sq)
    ensures |r| == |sq.ring|
  {
    Slot(sq.wq.pc, |sq.ring|);
    sq.ring[BitAnd(sq.wq.pc, sq.wq.mask) := d]
  }

  function PostOne(sq: Sq, wr: SendWr): (r: Sq)
    requires SqOk(sq) && !Full(sq.wq)
    ensures SqOk(r)
  {
    CountersMove(sq.wq);
    sq.(ring := PutInRing(sq, Build(wr, sq.wq.phase, HeadIndex(sq.wq))), wq := Take(sq.wq, wr.wrId))
  }

  function RingBell(sq: Sq): (r: Sq)
    ensures r.wq == sq.wq && (SqOk(sq) ==> SqOk(r))
  {
    sq.(bells := sq.bells + [sq.wq.pc])
  }

  /** The outcome of a list post: the new queue, the error, and the position of the rejected request. */
  datatype Posted = Posted(sq: Sq, err: Errno, bad: nat)

  /** efa_post_send on the requests from position i on, with curbatch unannounced descriptors. */
  function PostList(sq: Sq, cfg: Config, wrs: seq<SendWr>, i: nat, curbatch: nat): (r: Posted)
    requires SqOk(sq) && i <= |wrs|
    ensures SqOk(r.sq) && i <= r.bad <= |wrs|
    decreases |wrs| - i
  {
    if i == |wrs| then Posted(if curbatch > 0 then RingBell(sq) else sq, OK, i)
    else
      var err := ValidateWr(sq.wq, cfg, wrs[i]);
      if err != OK then Posted(if curbatch > 0 then RingBell(sq) else sq, err, i)
      else
        var sq' := PostOne(sq, wrs[i]);
        if curbatch + 1 == cfg.maxBatch then PostList(RingBell(sq'), cfg, wrs, i + 1, 0)
        else PostList(sq', cfg, wrs, i + 1, curbatch + 1)
  }

  // ---- sessions ----------------------------------------------------------------------------------

  datatype Op =
    | WrSend(flags: bv32, wrId: nat)
    | WrSendImm(flags: bv32, wrId: nat, imm: bv32)
    | WrRdmaRead(flags: bv32, wrId: nat, rkey: bv32, addr: bv64)
    | SetSge(sge: Sge)
    | SetSgeList(sgl: seq<Sge>)
    | SetInline(bytes: seq<bv8>)
    | SetInlineList(bufs: seq<Sge>)
    | SetAddr(ah: nat, qpn: nat, qkey: bv32)

  predicate IsBuilder(op: Op) { op.WrSend? || op.WrSendImm? || op.WrRdmaRead? }

  /** Requests staged in this session hold their indices. */
  ghost predicate SessionSq(sq: Sq) { SqOk(sq) && sq.pending <= sq.wq.next }

  /** There is a current descriptor, or an error that makes every call return at once. */
  predicate Ready(sq: Sq) { sq.pending > 0 || sq.err != OK }

  function Start(sq: Sq): Sq { sq.(err := OK, pending := 0, phaseRb := sq.wq.phase) }

  /** efa_send_wr_common. */
  function Common(sq: Sq, cfg: Config, flags: bv32, wrId: nat, op: bv8): (r: Sq)
    requires SessionSq(sq)
    ensures SessionSq(r) && Ready(r)
  {
    if sq.err != OK then sq
    else
      var err := Validate(sq.wq, cfg, flags);
      if err != OK then sq.(err := err)
      else
        CountersMove(sq.wq);
        sq.(local := sq.local[sq.pending := CommonFlags(ZERO, sq.wq.phase, op).(reqId := Wrap16(HeadIndex(sq.wq)))],
            wq := Take(sq.wq, wrId), pending := sq.pending + 1)
  }

  function Current(sq: Sq): TxWqe
    requires SessionSq(sq) && sq.pending > 0
  {
    sq.local[sq.pending - 1]
  }

  function Edit(sq: Sq, d: TxWqe): (r: Sq)
    requires SessionSq(sq) && sq.pending > 0
    ensures SessionSq(r) && Ready(r)
  {
    sq.(local := sq.local[sq.pending - 1 := d])
  }

  function OpType(d: TxWqe): bv8 { d.ctrl1 & 0x0F }

  function AsRdma(data: TxData): (r: TxData)
    ensures r.Rdma?
  {
    if data.Rdma? then data else Rdma(0, 0, 0, 0, [])
  }

  function WithRemote(d: TxWqe, rkey: bv32, addr: bv64): TxWqe {
    d.(data := AsRdma(d.data).(rkey := rkey, lo := (addr & 0xFFFF_FFFF) as bv32, hi := (addr >> 32) as bv32))
  }

  function WithSge(d: TxWqe, sge: Sge): TxWqe {
    var d := d.(length := 1);
    if OpType(d) == OP_SEND then d.(data := Sgl([ToTxBuf(sge)]))
    else if OpType(d) == OP_RDMA_READ then d.(data := AsRdma(d.data).(length := |sge.mem|, local := [ToTxBuf(sge)]))
    else d
  }

  function WithReadList(d: TxWqe, sgl: seq<Sge>): TxWqe {
    d.(data := AsRdma(d.data).(length := Wrap32(TotalBytes(sgl)), local := Held(ToTxBufs(sgl), NUM_RDMA_BUFS)))
  }

  function WithInline(d: TxWqe, bytes: seq<bv8>): TxWqe {
    d.(ctrl1 := SetInlineMsg(d.ctrl1), data := InlineBytes(Held(bytes, INLINE_MAX)), length := Wrap16(|bytes|))
  }

  /** One session call. */
  function Do(sq: Sq, cfg: Config, op: Op): (r: Sq)
    requires SessionSq(sq) && (IsBuilder(op) || Ready(sq))
    ensures SessionSq(r) && Ready(r)
  {
    match op
    case WrSend(flags, wrId) => Common(sq, cfg, flags, wrId, OP_SEND)
    case WrSendImm(flags, wrId, imm) =>
      var r := Common(sq, cfg, flags, wrId, OP_SEND);
      if r.err != OK then r else Edit(r, SetImm(Current(r), imm))
    case WrRdmaRead(flags, wrId, rkey, addr) =>
      var r := Common(sq, cfg, flags, wrId, OP_RDMA_READ);
      if r.err != OK then r else Edit(r, WithRemote(Current(r), rkey, addr))
    case SetSge(sge) => if sq.err != OK then sq else Edit(sq, WithSge(Current(sq), sge))
    case SetSgeList(sgl) =>
      if sq.err != OK then sq
      else
        var d := Current(sq);
        if OpType(d) == OP_SEND then
          if |sgl| > cfg.maxSge then sq.(err := EINVAL)
          else Edit(sq, d.(data := Sgl(Held(ToTxBufs(sgl), NUM_BUFS)), length := Wrap16(|sgl|)))
        else if OpType(d) == OP_RDMA_READ then
          if |sgl| > cfg.maxRdmaSge then sq.(err := EINVAL)
          else Edit(sq, WithReadList(d, sgl).(length := Wrap16(|sgl|)))
        else sq
    case SetInline(bytes) =>
      if sq.err != OK then sq
      else if |bytes| > cfg.maxInline then sq.(err := EINVAL)
      else Edit(sq, WithInline(Current(sq), bytes))
    case SetInlineList(bufs) =>
      if sq.err != OK then sq
      else if TotalBytes(bufs) > cfg.maxInline then sq.(err := EINVAL)
      else Edit(sq, WithInline(Current(sq), Gather(bufs)))
    case SetAddr(ah, qpn, qkey) =>
      if sq.err != OK then sq else Edit(sq, SetAddress(Current(sq), ah, qpn, qkey))
  }

  /** The error a call records if the session has none yet. */
  function CallError(sq: Sq, cfg: Config, op: Op): Errno
    requires SessionSq(sq) && (IsBuilder(op) || sq.pending > 0)
  {
    if IsBuilder(op) then Validate(sq.wq, cfg, op.flags) else SetterError(Current(sq), cfg, op)
  }

  /** The limits the setters check. */
  function SetterError(d: TxWqe, cfg: Config, op: Op): Errno
    requires !IsBuilder(op)
  {
    match op
    case SetSgeList(sgl) =>
      if OpType(d) == OP_SEND && |sgl| > cfg.maxSge then EINVAL
      else if OpType(d) == OP_RDMA_READ && |sgl| > cfg.maxRdmaSge then EINVAL else OK
    case SetInline(bytes) => if |bytes| > cfg.maxInline then EINVAL else OK
    case SetInlineList(bufs) => if TotalBytes(bufs) > cfg.maxInline then EINVAL else OK
    case _ => OK
  }

  predicate Scripted(sq: Sq, ops: seq<Op>) { Ready(sq) || ops == [] || IsBuilder(ops[0]) }

  /** A sequence of session calls, whose setters follow a builder. */
  function RunOps(sq: Sq, cfg: Config, ops: seq<Op>): (r: Sq)
    requires SessionSq(sq) && Scripted(sq, ops)
    ensures SessionSq(r)
    decreases |ops|
  {
    if ops == [] then sq else RunOps(Do(sq, cfg, ops[0]), cfg, ops[1..])
  }

  /** efa_send_wr_abort. */
  function Abort(sq: Sq): Sq { sq.(wq := RollBack(sq.wq, sq.pending, sq.phaseRb)) }

  /** efa_send_wr_complete: all staged descriptors in order with their doorbells, or a roll-back. */
  function Complete(sq: Sq, cfg: Config): Sq
    requires SessionSq(sq)
  {
    if sq.err != OK then Abort(sq)
    else
      var pc := Wrap16(sq.wq.pc - sq.pending);
      sq.(ring := WriteAll(sq.ring, pc, sq.local[..sq.pending]),
          bells := sq.bells + Doorbells(pc, sq.pending, 0, cfg.maxBatch), pending := 0)
  }
}
