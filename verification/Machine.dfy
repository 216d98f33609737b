/**
 The I/O engine of one block device as a labelled state machine: queue threads, worker
 goroutines, the request dispatcher, handler goroutines and the kernel driver. One label is
 one step of one thread; `Enabled` says when the step may be taken (a blocked thread has no
 enabled step) and `Next` gives the state after it.
 */
module Machine {
  import opened Words

  datatype Option<+T> = None | Some(value: T)

  // ---------------------------------------------------------------- configuration

  datatype Config = Config(
    queues: nat, depth: nat, entries: nat,
    pool: nat, reqCap: nat, freeCap: nat,
    bufBytes: nat, readCap: nat, sectors: nat, disk0: seq<bv8>)

  /** What start-up guarantees: a ring of at least `depth` entries, channels at least as large as
      the pool, read buffers as large as a slot buffer, and a backing array covering every
      advertised sector. */
  predicate ValidConfig(c: Config) {
    && 1 <= c.queues && 1 <= c.depth <= c.entries
    && 1 <= c.pool <= c.reqCap && c.pool <= c.freeCap
    && c.bufBytes <= c.readCap && c.bufBytes < 0x8000_0000
    && c.sectors * 512 <= |c.disk0| < 0x8000_0000_0000_0000
  }

  // ---------------------------------------------------------------- requests

  datatype Desc = Desc(opFlags: nat, nsec: nat, start: nat)

  datatype Kind = Read | Write | Unmap | Unknown

  // The switch of req_to_longhorn_cmd_type on the low byte of op_flags.
  function KindOf(d: Desc): Kind {
    match d.opFlags % 256
    case 0 => Read
    case 1 => Write
    case 3 => Unmap
    case _ => Unknown
  }

  const TYPE_READ := 0
  const TYPE_WRITE := 1
  const TYPE_PING := 6
  const TYPE_UNMAP := 7

  // The message type as the 32-bit word that reaches Request.Type.
  function TypeWord(k: Kind): nat {
    match k
    case Read => TYPE_READ
    case Write => TYPE_WRITE
    case Unmap => TYPE_UNMAP
    case Unknown => U32 - 1
  }

  // nr_sectors << 9 and start_sector << 9 as the C code computes them.
  function Len(d: Desc): nat { Shl9U32(d.nsec) }
  function Off(d: Desc): int { ToI64(Shl9U64(d.start)) }

  // The result a successful request is committed with.
  function Reply(d: Desc): int {
    if KindOf(d) == Unmap then 0 else ToI32(Len(d))
  }

  /** The driver's promise about a descriptor: words of the right width, data requests within the
      advertised size and the per-operation limits. */
  predicate DescOk(c: Config, d: Desc) {
    && d.opFlags < U32 && d.nsec < U32 && d.start < U64
    && (KindOf(d) != Unknown ==> d.start + d.nsec <= c.sectors)
    && (KindOf(d) == Read || KindOf(d) == Write ==> d.nsec * 512 <= c.bufBytes)
    && (KindOf(d) == Unmap ==> d.nsec <= (U32 - 1) / 512)
  }

  // ---------------------------------------------------------------- per-queue state

  datatype Flags = Flags(fetch: bool, commit: bool, free: bool, getData: bool)

  const NO_FLAGS := Flags(false, false, false, false)
  const FREE_ONLY := Flags(false, false, true, false)
  const COMMIT_FREE := Flags(false, true, true, false)

  datatype Cmd = Fetch(tag: nat) | Commit(tag: nat, result: int) | GetData(tag: nat)

  datatype Cqe = Cqe(tag: nat, res: int)

  const RES_OK := 0
  const RES_GET_DATA := 1
  const RES_ABORT := -19

  datatype Slot = Slot(flags: Flags, result: int, iod: Desc, buf: seq<bv8>)

  // Program points of a queue thread in ublksrv_process_io and the functions it calls.
  datatype QPc =
    | QCheck                          // the is_done test
    | QLock                           // about to lock cond_mutex
    | QTest                           // loads the counter, holding cond_mutex
    | QPreWait                        // saw a positive counter, about to wait
    | QWaiting                        // asleep on the condition variable
    | QWoken                          // woken, about to re-lock cond_mutex
    | QRelease                        // saw a counter <= 0, about to unlock
    | QSubmit                         // inside submit_and_wait_timeout
    | QReap                           // at the head of the reap loop
    | QDispatch(tag: nat)             // about to receive from the free channel
    | QBind(tag: nat, m: nat)         // holds message m for this tag
    | QInc                            // worker spawned, counter not yet incremented
    | QPost                           // after the reap
    | QDiscard(page: nat)             // idle: discarding io pages
    | QExit

  datatype Holder = ByQueueThread | ByWorker(w: nat)

  datatype Queue = Queue(
    pc: QPc, stopping: bool, idle: bool, etime: bool, reaped: nat,
    slots: seq<Slot>, sq: seq<Cmd>, kern: set<nat>, cq: seq<Cqe>, head: nat,
    inflight: int, lock: Option<nat>, mutex: Option<Holder>, closed: bool)

  // ---------------------------------------------------------------- Go side

  datatype Alias = Alias(q: nat, tag: nat, len: nat)

  datatype Msg = Msg(
    ty: nat, seqNo: nat, off: int, size: nat, rbuf: seq<bv8>, rlen: nat,
    wdata: Option<Alias>, result: int, complete: nat)

  // Program points of a worker goroutine and of the C calls it makes.
  datatype WPc =
    | WSend | WWait | WCopy | WMark | WLock | WPrep | WDec
    | WSigLock | WSig | WSigUnlock | WUnlock | WReturn | WDone

  datatype Worker = Worker(q: nat, tag: nat, m: nat, kind: Kind, len: nat, pc: WPc, eio: bool, res: int)

  datatype HPc = HCall | HSignal | HDone

  datatype Handler = Handler(m: nat, pc: HPc)

  datatype State = State(
    queues: seq<Queue>, workers: seq<Worker>, msgs: seq<Msg>,
    free: seq<nat>, req: seq<nat>, disp: Option<nat>, handlers: seq<Handler>, disk: seq<bv8>)

  // ---------------------------------------------------------------- initial state

  function Zeros(n: nat): seq<bv8> { seq(n, _ => 0) }

  /** A queue as ublksrv_queue_init leaves it: one FETCH prepared for every tag, counter reset. */
  function InitQueue(c: Config): Queue {
    Queue(QCheck, false, false, false, 0,
          seq(c.depth, _ => Slot(NO_FLAGS, 0, Desc(0, 0, 0), Zeros(c.bufBytes))),
          seq(c.depth, t requires 0 <= t => Fetch(t)), {}, [], 0, 0, None, None, false)
  }

  function InitMsg(c: Config, i: nat): Msg {
    Msg(100, i, 0, 0, Zeros(c.readCap), c.readCap, None, 0, 0)
  }

  function Init(c: Config): State {
    State(seq(c.queues, _ => InitQueue(c)), [], seq(c.pool, i requires 0 <= i => InitMsg(c, i)),
          seq(c.pool, i => i), [], None, [], c.disk0)
  }

  // ---------------------------------------------------------------- labels

  datatype Label =
    | QStep(q: nat)                                    // next instruction of queue thread q
    | WStep(w: nat)                                    // next instruction of worker w
    | DStep                                            // next instruction of the dispatcher
    | HStep(h: nat, err: bool, fill: seq<bv8>)         // next instruction of handler goroutine h
    | KTake(q: nat)                                    // the driver accepts the oldest command
    | KPost(q: nat, t: nat, d: Desc, payload: seq<bv8>) // the driver posts a request
    | KFail(q: nat, t: nat, res: int)                  // the driver fails a command
    | KReturn(q: nat, timeout: bool)                   // submit_and_wait_timeout returns
    | KSpurious(q: nat)                                // a spurious wake-up

  // ---------------------------------------------------------------- slot commands

  datatype CmdOp = OpFetch | OpCommit | OpGetData

  /** The two guards and the opcode choice of ublksrv_queue_io_cmd. */
  function IssueOp(f: Flags): Option<CmdOp> {
    if !f.free then None
    else if !(f.fetch || f.getData || f.commit) then None
    else if f.getData then Some(OpGetData)
    else if f.commit then Some(OpCommit)
    else Some(OpFetch)
  }

  function MakeCmd(op: CmdOp, tag: nat, result: int): Cmd {
    match op
    case OpFetch => Fetch(tag)
    case OpCommit => Commit(tag, result)
    case OpGetData => GetData(tag)
  }

  function MarkDone(s: Slot, res: int): Slot {
    s.(flags := s.flags.(commit := true, free := true), result := res)
  }

  // The copy-back of a read: min(len(dst), len(RData)) bytes.
  function Blit(dst: seq<bv8>, src: seq<bv8>, n: nat): seq<bv8> {
    var k := if n <= |src| then n else |src|;
    if k <= |dst| then src[..k] + dst[k..] else dst
  }

  function WriteAt(disk: seq<bv8>, off: nat, data: seq<bv8>): seq<bv8>
    requires off + |data| <= |disk|
  {
    disk[..off] + data + disk[off + |data|..]
  }

  // ---------------------------------------------------------------- queue thread

  predicate QEnabled(c: Config, s: State, q: nat)
  {
    && q < |s.queues|
    && var u := s.queues[q];
       match u.pc
       case QLock => u.mutex.None?
       case QWoken => u.mutex.None?
       case QWaiting => false
       case QSubmit => false
       case QExit => false
       case QReap => u.head < |u.cq| ==> u.cq[u.head].tag < |u.slots|
       case QDispatch(t) => t < |u.slots| && s.free != []
       case QBind(t, m) => t < |u.slots| && m < |s.msgs|
       case QDiscard(i) => i <= |u.slots|
       case _ => true
  }

  /** ublksrv_handle_cqe on the next completion, up to the hand-over to Go. */
  function HandleCqe(u: Queue): Queue
    requires u.head < |u.cq| && u.cq[u.head].tag < |u.slots|
  {
    var e := u.cq[u.head];
    var fetch := e.res != RES_ABORT && !u.stopping;
    var sl := u.slots[e.tag];
    var sl1 := if fetch then sl else sl.(flags := sl.flags.(fetch := false));
    var u1 := u.(stopping := u.stopping || !fetch, head := u.head + 1);
    if e.res == RES_OK then
      u1.(slots := u.slots[e.tag := sl1], pc := QDispatch(e.tag))
    else
      u1.(slots := u.slots[e.tag := sl1.(flags := FREE_ONLY)], pc := QReap)
  }

  /** onRequestAsync fills the pooled request from the descriptor. */
  function Bind(m: Msg, q: nat, t: nat, d: Desc): Msg {
    m.(ty := TypeWord(KindOf(d)), seqNo := t, off := Off(d), size := Len(d),
       wdata := if KindOf(d) == Write then Some(Alias(q, t, Len(d))) else m.wdata)
  }

  function AfterReap(u: Queue): Queue {
    if u.stopping then u.(pc := QCheck)
    else if u.etime && u.reaped == 0 && u.sq == [] then
      if u.idle then u.(pc := QCheck) else u.(pc := QDiscard(0))
    else u.(pc := QCheck, idle := false)
  }

  function DiscardPage(u: Queue, i: nat): Queue
    requires i < |u.slots|
  {
    u.(slots := u.slots[i := u.slots[i].(buf := Zeros(|u.slots[i].buf|))], pc := QDiscard(i + 1))
  }

  // The steps that read and write this queue's record only.
  function Local(u: Queue): Queue
    requires u.pc.QReap? && u.head < |u.cq| ==> u.cq[u.head].tag < |u.slots|
  {
    match u.pc
    case QCheck => u.(pc := if u.stopping && u.sq == [] then QExit else QLock)
    case QLock => u.(pc := QTest, mutex := Some(ByQueueThread))
    case QWoken => u.(pc := QTest, mutex := Some(ByQueueThread))
    case QTest => u.(pc := if u.inflight > 0 then QPreWait else QRelease)
    case QPreWait => u.(pc := QWaiting, mutex := None)
    case QRelease => u.(pc := QSubmit, mutex := None)
    case QReap =>
      if u.head < |u.cq| then HandleCqe(u) else u.(pc := QPost, reaped := u.head, cq := [], head := 0)
    case QInc => u.(pc := QReap, inflight := u.inflight + 1)
    case QPost => AfterReap(u)
    case QDiscard(i) => if i < |u.slots| then DiscardPage(u, i) else u.(pc := QCheck, idle := true)
    case _ => u
  }

  function QNext(c: Config, s: State, q: nat): State
    requires QEnabled(c, s, q)
  {
    var u := s.queues[q];
    match u.pc
    case QDispatch(t) =>
      s.(queues := s.queues[q := u.(pc := QBind(t, s.free[0]))], free := s.free[1..])
    case QBind(t, m) =>
      var d := u.slots[t].iod;
      s.(queues := s.queues[q := u.(pc := QInc)],
         msgs := s.msgs[m := Bind(s.msgs[m], q, t, d)],
         workers := s.workers + [Worker(q, t, m, KindOf(d), Len(d), WSend, false, 0)])
    case _ => s.(queues := s.queues[q := Local(u)])
  }

  // ---------------------------------------------------------------- worker goroutine

  predicate WEnabled(c: Config, s: State, w: nat) {
    && w < |s.workers|
    && var k := s.workers[w];
       && k.q < |s.queues| && k.m < |s.msgs| && k.tag < |s.queues[k.q].slots|
       && var u := s.queues[k.q];
          match k.pc
          case WSend => |s.req| < c.reqCap
          case WWait => s.msgs[k.m].complete > 0
          case WLock => u.lock.None?
          case WSigLock => u.mutex.None?
          case WReturn => |s.free| < c.freeCap
          case WDone => false
          case _ => true
  }

  // Where the worker goes when ublksrv_complete_io returns.
  function Returned(k: Worker): Worker {
    if k.eio then k.(pc := WCopy, eio := false) else k.(pc := WReturn)
  }

  function SetWorker(s: State, w: nat, k: Worker): State
    requires w < |s.workers|
  {
    s.(workers := s.workers[w := k])
  }

  function SetBoth(s: State, w: nat, k: Worker, q: nat, u: Queue): State
    requires w < |s.workers| && q < |s.queues|
  {
    s.(workers := s.workers[w := k], queues := s.queues[q := u])
  }

  function WNext(c: Config, s: State, w: nat): State
    requires WEnabled(c, s, w)
  {
    var k := s.workers[w];
    var u := s.queues[k.q];
    var m := s.msgs[k.m];
    match k.pc
    case WSend => SetWorker(s, w, k.(pc := WWait)).(req := s.req + [k.m])
    case WWait =>
      var s1 := s.(msgs := s.msgs[k.m := m.(complete := m.complete - 1)]);
      if m.result == -1 then SetWorker(s1, w, k.(pc := WMark, eio := true, res := -5))
      else SetWorker(s1, w, k.(pc := WCopy))
    case WCopy =>
      var sl := u.slots[k.tag];
      var sl1 := if k.kind == Read then sl.(buf := Blit(sl.buf, m.rbuf[..if m.rlen <= |m.rbuf| then m.rlen else |m.rbuf|], k.len)) else sl;
      SetBoth(s, w, k.(pc := WMark, res := if k.kind == Unmap then 0 else ToI32(Len(sl.iod))),
              k.q, u.(slots := u.slots[k.tag := sl1]))
    case WMark =>
      SetBoth(s, w, k.(pc := WLock), k.q, u.(slots := u.slots[k.tag := MarkDone(u.slots[k.tag], k.res)]))
    case WLock => SetBoth(s, w, k.(pc := WPrep), k.q, u.(lock := Some(w)))
    case WPrep =>
      var sl := u.slots[k.tag];
      var op := IssueOp(sl.flags);
      if op.None? || |u.sq| >= c.entries then SetWorker(s, w, Returned(k))
      else SetBoth(s, w, k.(pc := WDec), k.q,
                   u.(sq := u.sq + [MakeCmd(op.value, k.tag, sl.result)],
                      slots := u.slots[k.tag := sl.(flags := NO_FLAGS)]))
    case WDec =>
      SetBoth(s, w, k.(pc := if u.inflight == 1 then WSigLock else WUnlock), k.q,
              u.(inflight := u.inflight - 1))
    case WSigLock => SetBoth(s, w, k.(pc := WSig), k.q, u.(mutex := Some(ByWorker(w))))
    case WSig => SetBoth(s, w, k.(pc := WSigUnlock), k.q,
                         if u.pc == QWaiting then u.(pc := QWoken) else u)
    case WSigUnlock => SetBoth(s, w, k.(pc := WUnlock), k.q, u.(mutex := None))
    case WUnlock => SetBoth(s, w, Returned(k), k.q, u.(lock := None))
    case WReturn => SetWorker(s, w, k.(pc := WDone)).(free := s.free + [k.m])
    case WDone => s
  }

  // ---------------------------------------------------------------- dispatcher and handlers

  predicate KnownType(ty: nat) {
    ty == TYPE_READ || ty == TYPE_WRITE || ty == TYPE_UNMAP || ty == TYPE_PING
  }

  predicate DEnabled(c: Config, s: State) {
    match s.disp
    case None => s.req != []
    case Some(m) => m < |s.msgs| && (KnownType(s.msgs[m].ty) || s.msgs[m].complete < 1)
  }

  function DNext(c: Config, s: State): State
    requires DEnabled(c, s)
  {
    match s.disp
    case None => s.(disp := Some(s.req[0]), req := s.req[1..])
    case Some(m) =>
      if KnownType(s.msgs[m].ty) then s.(disp := None, handlers := s.handlers + [Handler(m, HCall)])
      else s.(disp := None, msgs := s.msgs[m := s.msgs[m].(complete := s.msgs[m].complete + 1)])
  }

  // The bytes a write handler reads through the slice that aliases the slot buffer.
  function Aliased(s: State, a: Alias): seq<bv8> {
    if a.q < |s.queues| && a.tag < |s.queues[a.q].slots| && a.len <= |s.queues[a.q].slots[a.tag].buf|
    then s.queues[a.q].slots[a.tag].buf[..a.len] else []
  }

  /** A handler that succeeds on a range inside the backing array; a read whose size exceeds the
      buffer's capacity would panic at the reslice and has no step. */
  predicate CallOk(s: State, m: Msg, fill: seq<bv8>) {
    && (m.ty == TYPE_READ ==> m.size <= |m.rbuf| && 0 <= m.off && m.off + m.size <= |s.disk|)
    && (m.ty == TYPE_WRITE ==> m.wdata.Some? && 0 <= m.off && m.off + |Aliased(s, m.wdata.value)| <= |s.disk|)
    && (m.ty == TYPE_UNMAP ==> |fill| == m.size && 0 <= m.off && m.off + m.size <= |s.disk|)
  }

  predicate HEnabled(c: Config, s: State, h: nat, err: bool, fill: seq<bv8>) {
    && h < |s.handlers| && s.handlers[h].m < |s.msgs|
    && var m := s.msgs[s.handlers[h].m];
       match s.handlers[h].pc
       case HCall => if err then (m.ty == TYPE_READ ==> m.size <= |m.rbuf|) else CallOk(s, m, fill)
       case HSignal => m.complete < 1
       case HDone => false
  }

  // A successful handler call: its effect on the message and on the backing array.
  function CallMsg(s: State, m: Msg): Msg
    requires m.ty == TYPE_READ && CallOk(s, m, [])
  {
    m.(rlen := m.size, rbuf := s.disk[m.off..m.off + m.size] + m.rbuf[m.size..])
  }

  // A failing call may leave any bytes in what it was given: a read's buffer, or the array.
  function Left(bytes: seq<bv8>, fill: seq<bv8>): seq<bv8> { if |fill| == |bytes| then fill else bytes }

  function FailedMsg(m: Msg, fill: seq<bv8>): Msg
    requires m.ty == TYPE_READ ==> m.size <= |m.rbuf|
  {
    if m.ty == TYPE_READ then m.(rlen := m.size, result := -1, rbuf := Left(m.rbuf[..m.size], fill) + m.rbuf[m.size..])
    else m.(result := -1)
  }

  function FailedDisk(disk: seq<bv8>, m: Msg, fill: seq<bv8>): seq<bv8> {
    if m.ty == TYPE_WRITE || m.ty == TYPE_UNMAP then Left(disk, fill) else disk
  }

  function HNext(c: Config, s: State, h: nat, err: bool, fill: seq<bv8>): State
    requires HEnabled(c, s, h, err, fill)
  {
    var i := s.handlers[h].m;
    var m := s.msgs[i];
    match s.handlers[h].pc
    case HCall =>
      var s1 := s.(handlers := s.handlers[h := Handler(i, HSignal)]);
      if err then
        s1.(msgs := s.msgs[i := FailedMsg(m, fill)], disk := FailedDisk(s.disk, m, fill))
      else if m.ty == TYPE_READ then s1.(msgs := s.msgs[i := CallMsg(s, m)])
      else if m.ty == TYPE_WRITE then s1.(disk := WriteAt(s.disk, m.off, Aliased(s, m.wdata.value)))
      else if m.ty == TYPE_UNMAP then s1.(disk := WriteAt(s.disk, m.off, fill))
      else s1
    case HSignal =>
      s.(handlers := s.handlers[h := Handler(i, HDone)], msgs := s.msgs[i := m.(complete := m.complete + 1)])
    case HDone => s
  }

  // ---------------------------------------------------------------- the whole machine

  predicate Enabled(c: Config, s: State, l: Label) {
    match l
    case QStep(q) => QEnabled(c, s, q)
    case WStep(w) => WEnabled(c, s, w)
    case DStep => DEnabled(c, s)
    case HStep(h, err, fill) => HEnabled(c, s, h, err, fill)
    case KTake(q) => q < |s.queues| && s.queues[q].pc == QSubmit && s.queues[q].sq != []
    case KPost(q, t, d, payload) =>
      && q < |s.queues| && t in s.queues[q].kern && t < |s.queues[q].slots|
      && DescOk(c, d) && |payload| == (if KindOf(d) == Write then Len(d) else 0)
    case KFail(q, t, res) =>
      && q < |s.queues| && t in s.queues[q].kern && t < |s.queues[q].slots|
      && res != RES_OK && res != RES_GET_DATA
    case KReturn(q, timeout) => q < |s.queues| && s.queues[q].pc == QSubmit
    case KSpurious(q) => q < |s.queues| && s.queues[q].pc == QWaiting
  }

  function KernelNext(c: Config, s: State, l: Label): State
    requires Enabled(c, s, l)
    requires l.KTake? || l.KPost? || l.KFail? || l.KReturn? || l.KSpurious?
  {
    var u := s.queues[l.q];
    var v := match l
      case KTake(q) => u.(sq := u.sq[1..], kern := u.kern + {u.sq[0].tag})
      case KPost(q, t, d, payload) =>
        var sl := u.slots[t];
        u.(kern := u.kern - {t}, cq := u.cq + [Cqe(t, RES_OK)],
           slots := u.slots[t := sl.(iod := d, buf := Blit(sl.buf, payload, |payload|))])
      case KFail(q, t, res) =>
        u.(kern := u.kern - {t}, cq := u.cq + [Cqe(t, res)], closed := u.closed || res == RES_ABORT)
      case KReturn(q, timeout) => u.(pc := QReap, etime := timeout)
      case KSpurious(q) => u.(pc := QWoken);
    s.(queues := s.queues[l.q := v])
  }

  function Next(c: Config, s: State, l: Label): State
    requires Enabled(c, s, l)
  {
    match l
    case QStep(q) => QNext(c, s, q)
    case WStep(w) => WNext(c, s, w)
    case DStep => DNext(c, s)
    case HStep(h, err, fill) => HNext(c, s, h, err, fill)
    case _ => KernelNext(c, s, l)
  }
}
