/** Safety of every run: what holds in each reachable state, said without the ledger. */
module Theorems {
  import opened Machine
  import opened Ledger
  import opened Preserve
  import opened Binding
  import opened Device
  import opened Refine
  import opened Runs

  // A state of a run in which no handler call returned an error.
  ghost predicate Reachable(c: Config, s: State) {
    ValidConfig(c) && exists r: Run, i: nat :: IsRun(c, r) && Errorless(r) && i < |r.states| && r.states[i] == s
  }

  lemma Known(c: Config, s: State) returns (g: Book)
    requires Reachable(c, s)
    ensures Inv(c, s, g) && BindInv(c, s)
  {
    var r: Run, i: nat :| IsRun(c, r) && Errorless(r) && i < |r.states| && r.states[i] == s;
    g := ReachableInv(c, r, i);
  }

  lemma KnownQueue(c: Config, s: State, q: nat) returns (g: Book)
    requires Reachable(c, s) && q < |s.queues|
    ensures Inv(c, s, g) && BindInv(c, s) && q < c.queues && QueueInv(c, s.queues[q], g.slot[q], q, s.workers)
  {
    g := Known(c, s);
  }

  // ---------------------------------------------------------------- the barrier

  /** While the queue thread is in submit-and-wait, no worker of its queue is between its dispatch and
      its decrement, so no ring entry is being filled. */
  lemma RingExclusion(c: Config, s: State, q: nat, w: nat)
    requires Reachable(c, s) && q < |s.queues| && s.queues[q].pc == QSubmit
    requires w < |s.workers| && s.workers[w].q == q
    ensures !Counts(s.workers[w].pc)
  {
    var g := KnownQueue(c, s, q);
    if Counts(s.workers[w].pc) { OutstandingPositive(s.workers, w, q); }
  }

  // Workers of queue q dispatched and not yet past their decrement.
  function DispatchedWorkers(ws: seq<Worker>, q: nat): set<nat> {
    set w | 0 <= w < |ws| && ws[w].q == q && Counts(ws[w].pc)
  }

  lemma {:induction false} OutstandingIsCount(ws: seq<Worker>, q: nat)
    ensures Outstanding(ws, q) == |DispatchedWorkers(ws, q)|
  {
    if ws == [] {
      assert DispatchedWorkers(ws, q) == {};
    } else {
      var n := |ws| - 1;
      OutstandingIsCount(ws[..n], q);
      if ws[n].q == q && Counts(ws[n].pc) {
        assert DispatchedWorkers(ws, q) == DispatchedWorkers(ws[..n], q) + {n};
      } else {
        assert DispatchedWorkers(ws, q) == DispatchedWorkers(ws[..n], q);
      }
    }
  }

  /** The counter, plus one between dispatch and increment, is the number of such workers; at the
      barrier's exit it is exactly zero, although it may have been negative during the reap. */
  lemma CounterAccounting(c: Config, s: State, q: nat)
    requires Reachable(c, s) && q < |s.queues|
    ensures s.queues[q].inflight + (if s.queues[q].pc.QInc? then 1 else 0) == |DispatchedWorkers(s.workers, q)|
    ensures s.queues[q].pc.QRelease? || s.queues[q].pc.QSubmit? ==> s.queues[q].inflight == 0
  {
    var g := KnownQueue(c, s, q);
    OutstandingIsCount(s.workers, q);
  }

  /** Asleep on a counter that is not positive: the counter is zero and some worker of this queue
      still owes its signal. */
  lemma NoLostWakeup(c: Config, s: State, q: nat) returns (w: nat)
    requires Reachable(c, s) && q < |s.queues| && s.queues[q].pc == QWaiting && s.queues[q].inflight <= 0
    ensures s.queues[q].inflight == 0 && w < |s.workers| && Owes(s.workers[w], q)
  {
    var g := KnownQueue(c, s, q);
    w :| 0 <= w < |s.workers| && Owes(s.workers[w], q);
  }

  /** Pages are discarded only while no dispatched worker of the queue is outstanding and no command
      is unsubmitted. */
  lemma IdleSafety(c: Config, s: State, q: nat, w: nat)
    requires Reachable(c, s) && q < |s.queues| && s.queues[q].pc.QDiscard?
    ensures s.queues[q].sq == []
    ensures w < |s.workers| && s.workers[w].q == q ==> !Counts(s.workers[w].pc)
  {
    var g := KnownQueue(c, s, q);
    if w < |s.workers| && s.workers[w].q == q && Counts(s.workers[w].pc) { OutstandingPositive(s.workers, w, q); }
  }

  // ---------------------------------------------------------------- ring capacity and the lock

  predicate DistinctTags(sq: seq<Cmd>, depth: nat) {
    && (forall i | 0 <= i < |sq| :: sq[i].tag < depth)
    && (forall i, j | 0 <= i < j < |sq| :: sq[i].tag != sq[j].tag)
  }

  function CqTags(cq: seq<Cqe>): (r: seq<nat>)
    ensures |r| == |cq| && forall i | 0 <= i < |cq| :: r[i] == cq[i].tag
  {
    seq(|cq|, i requires 0 <= i < |cq| => cq[i].tag)
  }

  /** Unsubmitted commands carry distinct tags, so they fit the ring; completions fit a completion
      queue of `depth` entries. */
  lemma RingCapacity(c: Config, s: State, q: nat)
    requires Reachable(c, s) && q < |s.queues|
    ensures DistinctTags(s.queues[q].sq, c.depth) && |s.queues[q].sq| <= c.depth <= c.entries
    ensures |s.queues[q].cq| <= c.depth
  {
    var g := KnownQueue(c, s, q);
    DistinctBelow(Tags(s.queues[q].sq), c.depth);
    DistinctBelow(CqTags(s.queues[q].cq), c.depth);
  }

  /** A worker that holds q->lock in ublksrv_queue_io_cmd passes both guards and finds a free ring
      entry, whatever other threads did; it prepares exactly the commit of its own tag. */
  lemma NoEarlyReturn(c: Config, s: State, w: nat)
    requires Reachable(c, s) && WEnabled(c, s, w) && s.workers[w].pc == WPrep
    ensures var k := s.workers[w]; var sl := s.queues[k.q].slots[k.tag];
            && IssueOp(sl.flags) == Some(OpCommit) && |s.queues[k.q].sq| < c.entries
            && WNext(c, s, w).workers[w].pc == WDec
            && WNext(c, s, w).queues[k.q].sq == s.queues[k.q].sq + [Commit(k.tag, sl.result)]
            && WNext(c, s, w).queues[k.q].slots[k.tag].flags == NO_FLAGS
  {
    var g := Known(c, s);
    MineFromInv(c, s, g, w);
  }

  lemma ThreadMutex(c: Config, s: State, q: nat)
    requires Reachable(c, s) && q < |s.queues|
    ensures ThreadHoldsMutex(s.queues[q].pc) <==> s.queues[q].mutex == Some(ByQueueThread)
  {
    var g := KnownQueue(c, s, q);
  }

  /** A worker holds its queue's lock exactly between its lock and its unlock, and cond_mutex exactly
      inside its signalling section; together with the two lemmas below, nobody else holds either. */
  lemma LockBalance(c: Config, s: State, q: nat, w: nat)
    requires Reachable(c, s) && q < |s.queues| && w < |s.workers| && s.workers[w].q == q
    ensures HoldsLock(s.workers[w].pc) <==> s.queues[q].lock == Some(w)
    ensures HoldsMutex(s.workers[w].pc) <==> s.queues[q].mutex == Some(ByWorker(w))
  {
    var g := KnownQueue(c, s, q);
    assert WorkerInv(s.queues, g.slot, g.msg, w, s.workers[w]);
  }

  lemma LockHeldBy(c: Config, s: State, q: nat)
    requires Reachable(c, s) && q < |s.queues| && s.queues[q].lock.Some?
    ensures var w := s.queues[q].lock.value;
            w < |s.workers| && s.workers[w].q == q && HoldsLock(s.workers[w].pc)
  {
    var g := KnownQueue(c, s, q);
  }

  lemma MutexHeldBy(c: Config, s: State, q: nat)
    requires Reachable(c, s) && q < |s.queues| && s.queues[q].mutex.Some? && s.queues[q].mutex.value.ByWorker?
    ensures var w := s.queues[q].mutex.value.w;
            w < |s.workers| && s.workers[w].q == q && HoldsMutex(s.workers[w].pc)
  {
    var g := KnownQueue(c, s, q);
  }

  // ---------------------------------------------------------------- slots

  datatype SlotPlace = InRing(i: nat) | WithDriver | InCompletions(i: nat) | WithQueueThread | OfWorker(w: nat) | IsRetired

  // Where slot t of queue q is found in the state.
  ghost predicate SlotAt(s: State, q: nat, t: nat, p: SlotPlace)
    requires q < |s.queues| && t < |s.queues[q].slots|
  {
    var u := s.queues[q];
    match p
    case InRing(i) => i < |u.sq| && u.sq[i].tag == t
    case WithDriver => t in u.kern
    case InCompletions(i) => u.head <= i < |u.cq| && u.cq[i].tag == t
    case WithQueueThread => Busy(u.pc) == Some(t)
    case OfWorker(w) => w < |s.workers| && s.workers[w].q == q && s.workers[w].tag == t && HoldsSlot(s.workers[w].pc)
    case IsRetired => u.slots[t].flags == FREE_ONLY
  }

  // The flag word the place determines.
  ghost predicate FlagWord(s: State, p: SlotPlace, f: Flags) {
    match p
    case OfWorker(w) => w < |s.workers| && f == (if s.workers[w].pc.WLock? || s.workers[w].pc.WPrep? then COMMIT_FREE else NO_FLAGS)
    case IsRetired => f == FREE_ONLY
    case _ => f == NO_FLAGS
  }

  function OwnerAt(p: SlotPlace): SlotOwner {
    match p
    case InRing(i) => Queued
    case WithDriver => Driver
    case InCompletions(i) => Completed
    case WithQueueThread => Thread
    case OfWorker(w) => Work(w)
    case IsRetired => Retired
  }

  lemma PlaceOwner(c: Config, s: State, g: Book, q: nat, t: nat, p: SlotPlace)
    requires Inv(c, s, g) && q < c.queues && t < c.depth && QueueInv(c, s.queues[q], g.slot[q], q, s.workers)
    requires SlotAt(s, q, t, p)
    ensures g.slot[q][t] == OwnerAt(p) && FlagWord(s, p, s.queues[q].slots[t].flags)
  {
    assert SlotInv(t, s.queues[q].slots[t].flags, g.slot[q][t], s.queues[q].kern, Busy(s.queues[q].pc));
    if p.OfWorker? { assert WorkerInv(s.queues, g.slot, g.msg, p.w, s.workers[p.w]); }
  }

  lemma OwnerPlace(c: Config, s: State, g: Book, q: nat, t: nat) returns (p: SlotPlace)
    requires Inv(c, s, g) && q < c.queues && t < c.depth && QueueInv(c, s.queues[q], g.slot[q], q, s.workers)
    ensures SlotAt(s, q, t, p)
  {
    var u := s.queues[q];
    assert SlotInv(t, u.slots[t].flags, g.slot[q][t], u.kern, Busy(u.pc));
    match g.slot[q][t] {
      case Queued =>
        var i :| 0 <= i < |u.sq| && u.sq[i].tag == t;
        p := InRing(i);
      case Driver => p := WithDriver;
      case Completed =>
        var i :| u.head <= i < |u.cq| && u.cq[i].tag == t;
        p := InCompletions(i);
      case Thread => p := WithQueueThread;
      case Work(w) => p := OfWorker(w);
      case Retired => p := IsRetired;
    }
  }

  /** Every slot is in exactly one place, and the place determines its flag word. */
  lemma OneOwner(c: Config, s: State, q: nat, t: nat) returns (p: SlotPlace)
    requires Reachable(c, s) && q < |s.queues| && t < |s.queues[q].slots|
    ensures SlotAt(s, q, t, p) && FlagWord(s, p, s.queues[q].slots[t].flags)
    ensures forall p' :: SlotAt(s, q, t, p') ==> p' == p
  {
    var g := KnownQueue(c, s, q);
    p := OwnerPlace(c, s, g, q, t);
    PlaceOwner(c, s, g, q, t, p);
    forall p' | SlotAt(s, q, t, p') ensures p' == p {
      PlaceOwner(c, s, g, q, t, p');
    }
  }

  // ---------------------------------------------------------------- the pool

  datatype MsgPlace = InPool(i: nat) | TakenBy(q: nat) | UsedBy(w: nat)

  ghost predicate MsgAt(s: State, m: nat, p: MsgPlace) {
    match p
    case InPool(i) => i < |s.free| && s.free[i] == m
    case TakenBy(q) => q < |s.queues| && s.queues[q].pc.QBind? && s.queues[q].pc.m == m
    case UsedBy(w) => w < |s.workers| && s.workers[w].pc != WDone && s.workers[w].m == m
  }

  /** Each pooled request is in exactly one place: once in the free channel, with one queue thread, or
      with one worker. */
  lemma PoolPartition(c: Config, s: State, m: nat) returns (p: MsgPlace)
    requires Reachable(c, s) && m < c.pool
    ensures MsgAt(s, m, p)
    ensures forall p' :: MsgAt(s, m, p') ==> p' == p
  {
    var g := Known(c, s);
    assert MsgOwned(m, g.msg[m], g.token[m], s.free, s.queues, s.workers);
    match g.msg[m] {
      case InFree =>
        var i :| 0 <= i < |s.free| && s.free[i] == m;
        p := InPool(i);
      case WithThread(q) => p := TakenBy(q);
      case WithWorker(w) => p := UsedBy(w);
    }
    forall p' | MsgAt(s, m, p') ensures p' == p {
      MsgOwnerAt(c, s, g, m, p');
    }
  }

  lemma MsgOwnerAt(c: Config, s: State, g: Book, m: nat, p: MsgPlace)
    requires Inv(c, s, g) && m < c.pool && MsgAt(s, m, p)
    ensures g.msg[m] == (match p case InPool(i) => InFree case TakenBy(q) => WithThread(q) case UsedBy(w) => WithWorker(w))
  {
    if p.UsedBy? { assert WorkerInv(s.queues, g.slot, g.msg, p.w, s.workers[p.w]); }
  }

  datatype TokenPlace = InRequests(i: nat) | WithDispatcher | InHandler(h: nat) | InComplete

  ghost predicate TokenAt(s: State, m: nat, p: TokenPlace)
    requires m < |s.msgs|
  {
    match p
    case InRequests(i) => i < |s.req| && s.req[i] == m
    case WithDispatcher => s.disp == Some(m)
    case InHandler(h) => h < |s.handlers| && s.handlers[h].m == m && s.handlers[h].pc != HDone
    case InComplete => s.msgs[m].complete > 0
  }

  function TokenOf(p: TokenPlace): Token {
    match p
    case InRequests(i) => InReq
    case WithDispatcher => AtDispatcher
    case InHandler(h) => AtHandler(h)
    case InComplete => Signalled
  }

  lemma TokenOwner(c: Config, s: State, g: Book, m: nat, p: TokenPlace)
    requires Inv(c, s, g) && m < c.pool && TokenAt(s, m, p)
    ensures g.token[m] == TokenOf(p)
  {
    assert MsgData(c.readCap, s.msgs[m], g.token[m]);
  }

  /** While its worker waits, a request is in exactly one of: request channel, dispatcher, one handler
      goroutine, completion channel; otherwise it is in none of them. */
  lemma OneHandler(c: Config, s: State, m: nat, w: nat) returns (p: TokenPlace)
    requires Reachable(c, s) && w < |s.workers| && s.workers[w].pc == WWait && s.workers[w].m == m
    ensures m < |s.msgs| && TokenAt(s, m, p)
    ensures forall p' :: TokenAt(s, m, p') ==> p' == p
  {
    var g := Known(c, s);
    assert WorkerInv(s.queues, g.slot, g.msg, w, s.workers[w]);
    assert MsgOwned(m, g.msg[m], g.token[m], s.free, s.queues, s.workers);
    assert TokenInv(m, g.token[m], s.req, s.disp, s.handlers);
    assert MsgData(c.readCap, s.msgs[m], g.token[m]);
    match g.token[m] {
      case InReq =>
        var i :| 0 <= i < |s.req| && s.req[i] == m;
        p := InRequests(i);
      case AtDispatcher => p := WithDispatcher;
      case AtHandler(h) => p := InHandler(h);
      case Signalled => p := InComplete;
    }
    forall p' | TokenAt(s, m, p') ensures p' == p {
      TokenOwner(c, s, g, m, p');
    }
  }

  lemma TokenHasWaiter(c: Config, s: State, m: nat, p: TokenPlace) returns (w: nat)
    requires Reachable(c, s) && m < c.pool && |s.msgs| == c.pool && TokenAt(s, m, p)
    ensures w < |s.workers| && s.workers[w].pc == WWait && s.workers[w].m == m
  {
    var g := Known(c, s);
    TokenOwner(c, s, g, m, p);
    assert MsgOwned(m, g.msg[m], g.token[m], s.free, s.queues, s.workers);
    w := g.msg[m].w;
  }

  /** No send in the pipeline ever finds its channel full. */
  lemma SendsNeverBlock(c: Config, s: State)
    requires Reachable(c, s)
    ensures forall w | 0 <= w < |s.workers| && s.workers[w].pc == WSend :: |s.req| < c.reqCap
    ensures forall w | 0 <= w < |s.workers| && s.workers[w].pc == WReturn :: |s.free| < c.freeCap
    ensures forall h | 0 <= h < |s.handlers| && s.handlers[h].pc == HSignal ::
              s.handlers[h].m < |s.msgs| && s.msgs[s.handlers[h].m].complete == 0
    ensures s.disp.Some? ==> s.disp.value < |s.msgs| && s.msgs[s.disp.value].complete == 0
  {
    var g := Known(c, s);
    forall w | 0 <= w < |s.workers| && s.workers[w].pc == WSend ensures |s.req| < c.reqCap {
      RoomToSend(c, s, g, w);
    }
    forall w | 0 <= w < |s.workers| && s.workers[w].pc == WReturn ensures |s.free| < c.freeCap {
      RoomToReturn(c, s, g, w);
    }
    forall h | 0 <= h < |s.handlers| && s.handlers[h].pc == HSignal ensures s.msgs[s.handlers[h].m].complete == 0 {
      assert MsgData(c.readCap, s.msgs[s.handlers[h].m], g.token[s.handlers[h].m]);
    }
    if s.disp.Some? { assert MsgData(c.readCap, s.msgs[s.disp.value], g.token[s.disp.value]); }
  }

  lemma RoomToSend(c: Config, s: State, g: Book, w: nat)
    requires ValidConfig(c) && Inv(c, s, g) && w < |s.workers| && s.workers[w].pc == WSend
    ensures |s.req| < c.reqCap
  {
    var m := s.workers[w].m;
    assert WorkerInv(s.queues, g.slot, g.msg, w, s.workers[w]);
    assert MsgOwned(m, g.msg[m], g.token[m], s.free, s.queues, s.workers);
    DistinctBelow(s.req + [m], c.pool);
  }

  lemma RoomToReturn(c: Config, s: State, g: Book, w: nat)
    requires ValidConfig(c) && Inv(c, s, g) && w < |s.workers| && s.workers[w].pc == WReturn
    ensures |s.free| < c.freeCap
  {
    var m := s.workers[w].m;
    assert WorkerInv(s.queues, g.slot, g.msg, w, s.workers[w]);
    DistinctBelow(s.free + [m], c.pool);
  }

  // ---------------------------------------------------------------- binding

  // A message as it must look for descriptor d of slot (q, t), in byte units.
  predicate Describes(c: Config, m: Msg, q: nat, t: nat, d: Desc) {
    && m.ty == TypeWord(KindOf(d)) && m.seqNo == t
    && (KindOf(d) != Unknown ==>
          && m.off == d.start * 512 && m.size == d.nsec * 512 && m.off + m.size <= c.sectors * 512)
    && (KindOf(d) == Read ==> m.size <= |m.rbuf| && m.rlen <= |m.rbuf|)
    && (KindOf(d) == Write ==> m.wdata == Some(Alias(q, t, d.nsec * 512)) && d.nsec * 512 <= c.bufBytes)
  }

  /** Until its data is copied back, a worker's message describes its own slot's descriptor in bytes,
      inside the device; a write's data slice is that slot's buffer and no other; a read's size fits the
      read buffer, however often the message was recycled. The descriptor is the one the worker was
      dispatched with until its command is prepared. */
  lemma BindingHolds(c: Config, s: State, w: nat)
    requires Reachable(c, s) && w < |s.workers| && HoldsSlot(s.workers[w].pc)
    ensures var k := s.workers[w];
            k.q < |s.queues| && k.tag < |s.queues[k.q].slots| && k.m < |s.msgs|
    ensures var k := s.workers[w]; var d := s.queues[k.q].slots[k.tag].iod;
            && k.len == Len(d) && k.kind == KindOf(d)
            && (Early(k.pc) ==> Describes(c, s.msgs[k.m], k.q, k.tag, d))
  {
    var g := Known(c, s);
    var k := s.workers[w];
    assert WorkerBound(c, s.queues, s.msgs, k);
    assert MsgData(c.readCap, s.msgs[k.m], g.token[k.m]);
    if k.kind != Unknown { DescWords(c, s.queues[k.q].slots[k.tag].iod); }
  }

  // The shifts of __longhorn_build_req do not wrap for a request the driver may send.
  lemma DescWords(c: Config, d: Desc)
    requires ValidConfig(c) && DescOk(c, d) && KindOf(d) != Unknown
    ensures Off(d) == d.start * 512 && Len(d) == d.nsec * 512 && Off(d) + Len(d) <= c.sectors * 512
  {
  }

  lemma NoCrossTalk(c: Config, s: State, v: nat, w: nat)
    requires Reachable(c, s) && v < |s.workers| && w < |s.workers| && v != w
    ensures s.workers[v].pc != WDone && s.workers[w].pc != WDone ==> s.workers[v].m != s.workers[w].m
    ensures HoldsSlot(s.workers[v].pc) && HoldsSlot(s.workers[w].pc) && s.workers[v].q == s.workers[w].q ==>
              s.workers[v].tag != s.workers[w].tag
  {
    var g := Known(c, s);
    assert WorkerInv(s.queues, g.slot, g.msg, v, s.workers[v]);
    assert WorkerInv(s.queues, g.slot, g.msg, w, s.workers[w]);
  }

  // ---------------------------------------------------------------- read buffers

  /** However often it was reused, a request keeps its read buffer's capacity. */
  lemma ReadBuffersKeep(c: Config, s: State, m: nat)
    requires Reachable(c, s) && m < |s.msgs|
    ensures s.msgs[m].rlen <= |s.msgs[m].rbuf| == c.readCap
  {
    var g := Known(c, s);
    assert MsgData(c.readCap, s.msgs[m], g.token[m]);
  }

  lemma ResliceWithin(c: Config, s: State, g: Book, h: nat)
    requires ValidConfig(c) && PoolInv(c, s, g) && WorkersInv(c, s, g) && WorkersBound(c, s.queues, s.msgs, s.workers)
    requires h < |s.handlers| && s.handlers[h].pc == HCall
    requires s.handlers[h].m < c.pool && g.token[s.handlers[h].m] == AtHandler(h)
    ensures s.handlers[h].m < |s.msgs|
    ensures s.msgs[s.handlers[h].m].ty == TYPE_READ ==> s.msgs[s.handlers[h].m].size <= c.readCap
  {
    var m := s.handlers[h].m;
    assert MsgOwned(m, g.msg[m], g.token[m], s.free, s.queues, s.workers);
    var k := s.workers[g.msg[m].w];
    assert WorkerInv(s.queues, g.slot, g.msg, g.msg[m].w, k);
    assert WorkerBound(c, s.queues, s.msgs, k);
  }

  /** The reslice of a read handler about to run stays inside the buffer. */
  lemma ResliceFits(c: Config, s: State, h: nat)
    requires Reachable(c, s) && h < |s.handlers| && s.handlers[h].pc == HCall
    ensures s.handlers[h].m < |s.msgs|
    ensures s.msgs[s.handlers[h].m].ty == TYPE_READ ==> s.msgs[s.handlers[h].m].size <= c.readCap
  {
    var g := Known(c, s);
    ResliceWithin(c, s, g, h);
  }

  lemma ExactCopy(c: Config, k: Worker, sl: Slot, m: Msg, st: Status)
    requires ValidConfig(c) && k.pc == WCopy && k.kind == Read && WorkRel(k, sl, m, true, st) && BindHas(c, k, sl.iod, m)
    requires |sl.buf| == c.bufBytes
    ensures m.rlen == k.len == sl.iod.nsec * 512 <= |sl.buf| && m.rlen <= |m.rbuf|
    ensures Blit(sl.buf, m.rbuf[..m.rlen], k.len) == m.rbuf[..k.len] + sl.buf[k.len..]
  {
    DescWords(c, sl.iod);
  }

  lemma CopyStep(c: Config, s: State, w: nat)
    requires WEnabled(c, s, w) && s.workers[w].pc == WCopy && s.workers[w].kind == Read
    requires s.msgs[s.workers[w].m].rlen <= |s.msgs[s.workers[w].m].rbuf|
    ensures var k := s.workers[w];
            var m := s.msgs[k.m];
            WNext(c, s, w).queues[k.q].slots[k.tag].buf == Blit(s.queues[k.q].slots[k.tag].buf, m.rbuf[..m.rlen], k.len)
  {
  }

  /** A worker about to copy a read back finds exactly nr_sectors * 512 bytes of data in its request, and
      transfers exactly those. */
  lemma CopyBackIsExact(c: Config, r: Run, i: nat, w: nat)
    requires ValidConfig(c) && IsRun(c, r) && Errorless(r) && i < |r.states|
    requires var s := r.states[i]; w < |s.workers| && s.workers[w].pc == WCopy && s.workers[w].kind == Read && WEnabled(c, s, w)
    ensures var s := r.states[i];
            var k := s.workers[w];
            var m, sl := s.msgs[k.m], s.queues[k.q].slots[k.tag];
            && m.rlen == k.len == sl.iod.nsec * 512 <= |sl.buf| && m.rlen <= |m.rbuf|
            && WNext(c, s, w).queues[k.q].slots[k.tag].buf == m.rbuf[..k.len] + sl.buf[k.len..]
  {
    var s := r.states[i];
    var k := s.workers[w];
    var d := CopyingWorker(c, r, i, w);
    ExactCopy(c, k, s.queues[k.q].slots[k.tag], s.msgs[k.m], d.slots[k.q][k.tag]);
    CopyStep(c, s, w);
  }

  // What the relation and the binding say of that worker.
  lemma CopyingWorker(c: Config, r: Run, i: nat, w: nat) returns (d: Dev)
    requires ValidConfig(c) && IsRun(c, r) && Errorless(r) && i < |r.states|
    requires w < |r.states[i].workers| && r.states[i].workers[w].pc == WCopy
    ensures var s := r.states[i];
            var k := s.workers[w];
            && k.q < |s.queues| == |d.slots| && k.tag < |s.queues[k.q].slots| == |d.slots[k.q]| && k.m < |s.msgs|
            && WorkRel(k, s.queues[k.q].slots[k.tag], s.msgs[k.m], true, d.slots[k.q][k.tag])
            && BindHas(c, k, s.queues[k.q].slots[k.tag].iod, s.msgs[k.m])
            && |s.queues[k.q].slots[k.tag].buf| == c.bufBytes
  {
    var s := r.states[i];
    var g, e := PrefixLinearizable(c, r, i);
    d := Last(e.devs);
    var k := s.workers[w];
    assert WorkerRel(s, g.token, d.slots, k);
    assert WorkerBound(c, s.queues, s.msgs, k);
    assert SlotsBound(c, s.queues[k.q].slots, s.queues[k.q].cq, s.queues[k.q].head, Busy(s.queues[k.q].pc));
  }
}
