/**
 Who owns what. A ledger assigns every slot, every pooled request and every completion token to
 one owner; the invariants say that the machine's state agrees with it. The ledger is not part of
 the state: `Advance` tells how each step moves it, and no step's guard looks at it.
 */
module Ledger {
  import opened Machine

  datatype SlotOwner = Queued | Driver | Completed | Thread | Work(w: nat) | Retired

  datatype MsgOwner = InFree | WithThread(q: nat) | WithWorker(w: nat)

  datatype Token = NoToken | InReq | AtDispatcher | AtHandler(h: nat) | Signalled

  datatype Book = Book(slot: seq<seq<SlotOwner>>, msg: seq<MsgOwner>, token: seq<Token>)

  // ---------------------------------------------------------------- program points

  // Before its command is prepared, a worker owns its slot.
  predicate HoldsSlot(p: WPc) {
    p.WSend? || p.WWait? || p.WCopy? || p.WMark? || p.WLock? || p.WPrep?
  }

  // Dispatched and not yet past its decrement.
  predicate Counts(p: WPc) { HoldsSlot(p) || p.WDec? }

  predicate HoldsMutex(p: WPc) { p.WSig? || p.WSigUnlock? }

  predicate HoldsLock(p: WPc) {
    p.WPrep? || p.WDec? || p.WSigLock? || p.WSig? || p.WSigUnlock? || p.WUnlock?
  }

  predicate ThreadHoldsMutex(p: QPc) { p.QTest? || p.QPreWait? || p.QRelease? }

  // The queue thread is handling completions of the current batch.
  predicate InReap(p: QPc) { p.QReap? || p.QDispatch? || p.QBind? || p.QInc? }

  // Program points reached only through the barrier, with nothing dispatched since.
  predicate PastBarrier(u: Queue) {
    || u.pc.QRelease? || u.pc.QSubmit? || u.pc.QDiscard?
    || (u.pc.QReap? && u.head == 0)
    || (u.pc.QPost? && u.reaped == 0)
  }

  /** The number of workers of queue q dispatched and not yet past their decrement. */
  function Outstanding(ws: seq<Worker>, q: nat): nat {
    if ws == [] then 0
    else
      var last := ws[|ws| - 1];
      Outstanding(ws[..|ws| - 1], q) + (if last.q == q && Counts(last.pc) then 1 else 0)
  }

  // A worker that saw old value 1 and has not signalled yet.
  predicate Owes(k: Worker, q: nat) { k.q == q && (k.pc.WSigLock? || k.pc.WSig?) }

  // ---------------------------------------------------------------- invariants of one queue

  // The slot the queue thread is handing over, if any.
  function Busy(p: QPc): Option<nat> {
    match p
    case QDispatch(t) => Some(t)
    case QBind(t, m) => Some(t)
    case _ => None
  }

  // What the owner of a slot says about its flag word and about where the slot is found.
  ghost predicate SlotInv(t: nat, flags: Flags, o: SlotOwner, kern: set<nat>, busy: Option<nat>) {
    && (match o
        case Work(w) => flags == NO_FLAGS || flags == COMMIT_FREE
        case Retired => flags == FREE_ONLY
        case _ => flags == NO_FLAGS)
    && (t in kern <==> o == Driver)
    && (o == Thread <==> busy == Some(t))
  }

  ghost predicate SlotsInv(depth: nat, slots: seq<Slot>, kern: set<nat>, busy: Option<nat>, own: seq<SlotOwner>) {
    && |slots| == |own| == depth
    && (forall t | 0 <= t < depth :: SlotInv(t, slots[t].flags, own[t], kern, busy))
    && (forall t <- kern :: t < depth)
    && (busy.Some? ==> busy.value < depth)
  }

  // A slot owned by a worker is that worker's.
  ghost predicate OwnersInv(own: seq<SlotOwner>, q: nat, ws: seq<Worker>) {
    forall t | 0 <= t < |own| ::
      own[t].Work? ==> own[t].w < |ws| && ws[own[t].w].q == q && ws[own[t].w].tag == t && HoldsSlot(ws[own[t].w].pc)
  }

  // Prepared commands: one per queued slot.
  ghost predicate SqInv(sq: seq<Cmd>, own: seq<SlotOwner>) {
    && (forall i | 0 <= i < |sq| :: sq[i].tag < |own| && own[sq[i].tag] == Queued && !sq[i].GetData?)
    && (forall i, j | 0 <= i < j < |sq| :: sq[i].tag != sq[j].tag)
    && (forall t | 0 <= t < |own| && own[t] == Queued :: exists i :: 0 <= i < |sq| && sq[i].tag == t)
  }

  // Completions: one per completed slot from the reap position on.
  ghost predicate CqInv(cq: seq<Cqe>, head: nat, reaping: bool, own: seq<SlotOwner>) {
    && head <= |cq| && (!reaping ==> head == 0)
    && (forall i | 0 <= i < |cq| :: cq[i].tag < |own| && cq[i].res != RES_GET_DATA)
    && (forall i | head <= i < |cq| :: own[cq[i].tag] == Completed)
    && (forall i | 0 <= i < head :: !own[cq[i].tag].Completed? && !own[cq[i].tag].Driver?)
    && (forall i, j | 0 <= i < j < |cq| :: cq[i].tag != cq[j].tag)
    && (forall t | 0 <= t < |own| && own[t] == Completed :: exists i :: head <= i < |cq| && cq[i].tag == t)
  }

  ghost predicate CountInv(inflight: int, inc: bool, past: bool, q: nat, ws: seq<Worker>) {
    && inflight + (if inc then 1 else 0) == Outstanding(ws, q)
    && (past ==> Outstanding(ws, q) == 0)
  }

  ghost predicate HoldersInv(mutex: Option<Holder>, lock: Option<nat>, thread: bool, q: nat, ws: seq<Worker>) {
    && (mutex == Some(ByQueueThread) <==> thread)
    && (mutex.Some? && mutex.value.ByWorker? ==>
          mutex.value.w < |ws| && ws[mutex.value.w].q == q && HoldsMutex(ws[mutex.value.w].pc))
    && (lock.Some? ==> lock.value < |ws| && ws[lock.value].q == q && HoldsLock(ws[lock.value].pc))
  }

  // No lost wake-up: asleep, or about to sleep, on a counter that is not positive means a signal is owed.
  ghost predicate WakeInv(waits: bool, q: nat, ws: seq<Worker>) {
    waits ==> exists w :: 0 <= w < |ws| && Owes(ws[w], q)
  }

  predicate Waits(u: Queue) { (u.pc.QPreWait? || u.pc.QWaiting?) && u.inflight <= 0 }

  ghost predicate QueueInv(c: Config, u: Queue, own: seq<SlotOwner>, q: nat, ws: seq<Worker>) {
    && SlotsInv(c.depth, u.slots, u.kern, Busy(u.pc), own) && OwnersInv(own, q, ws)
    && SqInv(u.sq, own) && CqInv(u.cq, u.head, InReap(u.pc), own)
    && CountInv(u.inflight, u.pc.QInc?, PastBarrier(u), q, ws)
    && HoldersInv(u.mutex, u.lock, ThreadHoldsMutex(u.pc), q, ws)
    && WakeInv(Waits(u), q, ws)
    && (u.pc.QDiscard? ==> u.sq == [] && u.pc.page <= c.depth)
    && (u.pc.QDispatch? || u.pc.QBind? || u.pc.QInc? ==> u.head > 0)
  }

  // ---------------------------------------------------------------- invariants of one worker

  ghost predicate WorkerHas(w: nat, k: Worker, o: SlotOwner, flags: Flags, lock: Option<nat>, mutex: Option<Holder>, mo: MsgOwner) {
    && !k.eio
    && (HoldsSlot(k.pc) ==> o == Work(w) && flags == (if k.pc.WLock? || k.pc.WPrep? then COMMIT_FREE else NO_FLAGS))
    && (HoldsLock(k.pc) <==> lock == Some(w))
    && (HoldsMutex(k.pc) <==> mutex == Some(ByWorker(w)))
    && (k.pc != WDone ==> mo == WithWorker(w))
  }

  ghost predicate WorkerInv(queues: seq<Queue>, slot: seq<seq<SlotOwner>>, msg: seq<MsgOwner>, w: nat, k: Worker) {
    && k.q < |queues| == |slot| && k.tag < |slot[k.q]| == |queues[k.q].slots| && k.m < |msg|
    && WorkerHas(w, k, slot[k.q][k.tag], queues[k.q].slots[k.tag].flags, queues[k.q].lock, queues[k.q].mutex, msg[k.m])
  }

  // ---------------------------------------------------------------- invariants of the pool

  // No error recorded, the read buffer keeps its capacity, and the completion channel is full
  // exactly while the completion is signalled.
  ghost predicate MsgData(readCap: nat, msg: Msg, token: Token) {
    && msg.result != -1 && |msg.rbuf| == readCap
    && msg.complete == (if token == Signalled then 1 else 0)
  }

  ghost predicate MsgOwned(m: nat, o: MsgOwner, token: Token, free: seq<nat>, queues: seq<Queue>, workers: seq<Worker>) {
    match o
    case InFree => m in free && token == NoToken
    case WithThread(q) => q < |queues| && queues[q].pc.QBind? && queues[q].pc.m == m && token == NoToken
    case WithWorker(w) =>
      && w < |workers| && workers[w].m == m && workers[w].pc != WDone
      && (workers[w].pc == WWait <==> token != NoToken)
  }

  ghost predicate TokenInv(m: nat, token: Token, req: seq<nat>, disp: Option<nat>, handlers: seq<Handler>) {
    match token
    case NoToken => true
    case InReq => m in req
    case AtDispatcher => disp == Some(m)
    case AtHandler(h) => h < |handlers| && handlers[h].m == m && handlers[h].pc != HDone
    case Signalled => true
  }

  ghost predicate ChanInv(xs: seq<nat>, n: nat) {
    && (forall i | 0 <= i < |xs| :: xs[i] < n)
    && (forall i, j | 0 <= i < j < |xs| :: xs[i] != xs[j])
  }

  ghost predicate FreeInv(free: seq<nat>, msg: seq<MsgOwner>) {
    ChanInv(free, |msg|) && forall i | 0 <= i < |free| :: msg[free[i]] == InFree
  }

  ghost predicate ReqInv(req: seq<nat>, token: seq<Token>) {
    ChanInv(req, |token|) && forall i | 0 <= i < |req| :: token[req[i]] == InReq
  }

  ghost predicate DispInv(disp: Option<nat>, token: seq<Token>) {
    disp.Some? ==> disp.value < |token| && token[disp.value] == AtDispatcher
  }

  ghost predicate HandlersInv(handlers: seq<Handler>, token: seq<Token>) {
    forall h | 0 <= h < |handlers| ::
      handlers[h].m < |token| && (handlers[h].pc != HDone ==> token[handlers[h].m] == AtHandler(h))
  }

  ghost predicate ThreadsInv(queues: seq<Queue>, msg: seq<MsgOwner>) {
    forall q | 0 <= q < |queues| ::
      queues[q].pc.QBind? ==> queues[q].pc.m < |msg| && msg[queues[q].pc.m] == WithThread(q)
  }

  ghost predicate PoolInv(c: Config, s: State, g: Book) {
    && |s.msgs| == |g.msg| == |g.token| == c.pool
    && (forall m | 0 <= m < c.pool :: MsgData(c.readCap, s.msgs[m], g.token[m]))
    && (forall m | 0 <= m < c.pool :: MsgOwned(m, g.msg[m], g.token[m], s.free, s.queues, s.workers))
    && (forall m | 0 <= m < c.pool :: TokenInv(m, g.token[m], s.req, s.disp, s.handlers))
    && FreeInv(s.free, g.msg) && ReqInv(s.req, g.token) && DispInv(s.disp, g.token)
    && HandlersInv(s.handlers, g.token) && ThreadsInv(s.queues, g.msg)
  }

  // ---------------------------------------------------------------- the whole invariant

  ghost predicate QueuesInv(c: Config, s: State, g: Book) {
    && |s.queues| == |g.slot| == c.queues
    && (forall q | 0 <= q < c.queues :: QueueInv(c, s.queues[q], g.slot[q], q, s.workers))
  }

  ghost predicate WorkersInv(c: Config, s: State, g: Book) {
    forall w | 0 <= w < |s.workers| :: WorkerInv(s.queues, g.slot, g.msg, w, s.workers[w])
  }

  ghost predicate Inv(c: Config, s: State, g: Book) {
    QueuesInv(c, s, g) && WorkersInv(c, s, g) && PoolInv(c, s, g)
  }

  // ---------------------------------------------------------------- how a step moves the ledger

  function SetSlot(g: Book, q: nat, t: nat, o: SlotOwner): Book {
    if q < |g.slot| && t < |g.slot[q]| then g.(slot := g.slot[q := g.slot[q][t := o]]) else g
  }

  function SetMsg(g: Book, m: nat, o: MsgOwner): Book {
    if m < |g.msg| then g.(msg := g.msg[m := o]) else g
  }

  function SetToken(g: Book, m: nat, o: Token): Book {
    if m < |g.token| then g.(token := g.token[m := o]) else g
  }

  function Advance(c: Config, s: State, g: Book, l: Label): Book
    requires Enabled(c, s, l)
  {
    match l
    case QStep(q) =>
      (var u := s.queues[q];
       match u.pc
       case QReap =>
         if u.head < |u.cq| then
           SetSlot(g, q, u.cq[u.head].tag, if u.cq[u.head].res == RES_OK then Thread else Retired)
         else g
       case QDispatch(t) => SetMsg(g, s.free[0], WithThread(q))
       case QBind(t, m) => SetMsg(SetSlot(g, q, t, Work(|s.workers|)), m, WithWorker(|s.workers|))
       case _ => g)
    case WStep(w) =>
      (var k := s.workers[w];
       match k.pc
       case WSend => SetToken(g, k.m, InReq)
       case WWait => SetToken(g, k.m, NoToken)
       case WPrep => SetSlot(g, k.q, k.tag, Queued)
       case WReturn => SetMsg(g, k.m, InFree)
       case _ => g)
    case DStep =>
      (match s.disp
       case None => SetToken(g, s.req[0], AtDispatcher)
       case Some(m) => SetToken(g, m, if KnownType(s.msgs[m].ty) then AtHandler(|s.handlers|) else Signalled))
    case HStep(h, err, fill) =>
      if s.handlers[h].pc == HSignal then SetToken(g, s.handlers[h].m, Signalled) else g
    case KTake(q) => SetSlot(g, q, s.queues[q].sq[0].tag, Driver)
    case KPost(q, t, d, payload) => SetSlot(g, q, t, Completed)
    case KFail(q, t, res) => SetSlot(g, q, t, Completed)
    case KReturn(q, timeout) => g
    case KSpurious(q) => g
  }

  function InitBook(c: Config): Book {
    Book(seq(c.queues, _ => seq(c.depth, _ => Queued)), seq(c.pool, _ => InFree), seq(c.pool, _ => NoToken))
  }
}
