/**
 Progress. Internal steps are those of the daemon's own threads; the environment's are the driver's
 and spurious wake-ups. Every internal step lowers a measure, and while anything dispatched is
 unfinished some internal step is enabled.
 */
module Progress {
  import opened Machine
  import opened Ledger
  import opened Preserve
  import opened PreserveThread
  import opened Binding
  import opened Refine
  import opened Runs
  import opened Theorems
  import opened Plays

  predicate Internal(l: Label) { l.QStep? || l.WStep? || l.DStep? || (l.HStep? && !l.err) }

  // ---------------------------------------------------------------- the measure

  // Stages a worker has left; the step that signals pays for one more round of the barrier loop.
  function WRank(k: Worker): nat {
    match k.pc
    case WSend => 19
    case WWait => 14
    case WCopy => 13
    case WMark => 12
    case WLock => 11
    case WPrep => 10
    case WDec => 9
    case WSigLock => 8
    case WSig => 7
    case WSigUnlock => 3
    case WUnlock => 2
    case WReturn => 1
    case WDone => 0
  }

  function HRank(h: Handler): nat {
    match h.pc
    case HCall => 2
    case HSignal => 1
    case HDone => 0
  }

  // Completions of this batch not yet handled.
  function Unhandled(u: Queue): nat { if u.head <= |u.cq| then |u.cq| - u.head else 0 }

  function QRank(depth: nat, u: Queue): nat {
    match u.pc
    case QCheck => 6
    case QLock => 5
    case QWoken => 5
    case QTest => 4
    case QPreWait => 3
    case QWaiting => 2
    case QRelease => 1
    case QSubmit => 0
    case QExit => 0
    case QDiscard(i) => if i <= depth then 7 + depth - i else 7
    case QPost => 8 + depth
    case QReap => 9 + depth + 23 * Unhandled(u)
    case QInc => 10 + depth + 23 * Unhandled(u)
    case QBind(_, _) => 30 + depth + 23 * Unhandled(u)
    case QDispatch(_) => 31 + depth + 23 * Unhandled(u)
  }

  function Sum<T>(xs: seq<T>, f: T -> nat): nat {
    if xs == [] then 0 else Sum(xs[..|xs| - 1], f) + f(xs[|xs| - 1])
  }

  lemma {:induction false} SumUpdate<T>(xs: seq<T>, f: T -> nat, i: nat, x: T)
    requires i < |xs|
    ensures Sum(xs[i := x], f) == Sum(xs, f) - f(xs[i]) + f(x)
  {
    var n := |xs| - 1;
    if i == n {
      assert xs[i := x][..n] == xs[..n];
    } else {
      assert xs[i := x][..n] == xs[..n][i := x];
      SumUpdate(xs[..n], f, i, x);
    }
  }

  lemma SumAppend<T>(xs: seq<T>, f: T -> nat, x: T)
    ensures Sum(xs + [x], f) == Sum(xs, f) + f(x)
  {
    assert (xs + [x])[..|xs|] == xs;
  }

  function Measure(c: Config, s: State): nat {
    Sum(s.queues, (u: Queue) => QRank(c.depth, u)) + Sum(s.workers, WRank) + Sum(s.handlers, HRank)
    + 4 * |s.req| + (if s.disp.Some? then 3 else 0)
  }

  // ---------------------------------------------------------------- every internal step lowers it

  lemma ReapDrops(c: Config, u: Queue)
    requires u.pc.QReap? && u.head <= |u.cq| && (u.head < |u.cq| ==> u.cq[u.head].tag < |u.slots|)
    ensures QRank(c.depth, Local(u)) < QRank(c.depth, u)
  {
  }

  lemma PostDrops(c: Config, u: Queue)
    requires u.pc.QPost?
    ensures QRank(c.depth, Local(u)) < QRank(c.depth, u)
  {
  }

  lemma DiscardDrops(c: Config, u: Queue)
    requires u.pc.QDiscard? && |u.slots| == c.depth && u.pc.page <= c.depth
    ensures QRank(c.depth, Local(u)) < QRank(c.depth, u)
  {
  }

  lemma BarrierDrops(c: Config, u: Queue)
    requires u.pc.QCheck? || u.pc.QLock? || u.pc.QWoken? || u.pc.QTest? || u.pc.QPreWait? || u.pc.QRelease? || u.pc.QInc?
    ensures QRank(c.depth, Local(u)) < QRank(c.depth, u)
  {
    match u.pc {
      case QCheck =>
      case QTest =>
      case QInc =>
      case _ =>
    }
  }

  lemma LocalDrops(c: Config, u: Queue)
    requires !u.pc.QDispatch? && !u.pc.QBind? && !u.pc.QWaiting? && !u.pc.QSubmit? && !u.pc.QExit?
    requires |u.slots| == c.depth && u.head <= |u.cq| && (u.pc.QDiscard? ==> u.pc.page <= c.depth)
    requires u.pc.QReap? && u.head < |u.cq| ==> u.cq[u.head].tag < |u.slots|
    ensures QRank(c.depth, Local(u)) < QRank(c.depth, u)
  {
    match u.pc {
      case QReap => ReapDrops(c, u);
      case QPost => PostDrops(c, u);
      case QDiscard(i) => DiscardDrops(c, u);
      case _ => BarrierDrops(c, u);
    }
  }

  lemma HandoverDrops(c: Config, s: State, q: nat)
    requires QEnabled(c, s, q) && (s.queues[q].pc.QDispatch? || s.queues[q].pc.QBind?)
    ensures Measure(c, QNext(c, s, q)) < Measure(c, s)
  {
    var s' := QNext(c, s, q);
    SumUpdate(s.queues, (u: Queue) => QRank(c.depth, u), q, s'.queues[q]);
    if s.queues[q].pc.QBind? { SumAppend(s.workers, WRank, s'.workers[|s.workers|]); }
  }

  lemma QDrops(c: Config, s: State, q: nat)
    requires QEnabled(c, s, q) && |s.queues[q].slots| == c.depth && s.queues[q].head <= |s.queues[q].cq|
    requires s.queues[q].pc.QDiscard? ==> s.queues[q].pc.page <= c.depth
    ensures Measure(c, QNext(c, s, q)) < Measure(c, s)
  {
    var u := s.queues[q];
    if u.pc.QDispatch? || u.pc.QBind? {
      HandoverDrops(c, s, q);
    } else {
      LocalDrops(c, u);
      var v := Local(u);
      assert QNext(c, s, q) == s.(queues := s.queues[q := v]);
      SumUpdate(s.queues, (u: Queue) => QRank(c.depth, u), q, v);
    }
  }

  // A worker step lowers its own rank, by enough to pay for waking the queue thread.
  lemma WorkerDrops(c: Config, s: State, w: nat)
    requires WEnabled(c, s, w) && !s.workers[w].eio && s.msgs[s.workers[w].m].result != -1
    ensures var s' := WNext(c, s, w); var k := s.workers[w];
            && |s'.queues| == |s.queues| && s'.queues == s.queues[k.q := s'.queues[k.q]]
            && s'.workers == s.workers[w := s'.workers[w]] && s'.handlers == s.handlers && s'.disp == s.disp
            && (s'.req == s.req || (k.pc == WSend && |s'.req| == |s.req| + 1))
            && WRank(s'.workers[w]) + (if k.pc == WSend then 5 else if k.pc == WSig then 4 else 1) <= WRank(k)
            && QRank(c.depth, s'.queues[k.q]) <= QRank(c.depth, s.queues[k.q]) + (if k.pc == WSig then 3 else 0)
  {
    var s' := WNext(c, s, w);
    var u, u' := s.queues[s.workers[w].q], s'.queues[s.workers[w].q];
    assert u'.cq == u.cq && u'.head == u.head && (u'.pc == u.pc || (s.workers[w].pc == WSig && u.pc == QWaiting && u'.pc == QWoken));
  }

  lemma WDrops(c: Config, s: State, w: nat)
    requires WEnabled(c, s, w) && !s.workers[w].eio && s.msgs[s.workers[w].m].result != -1
    ensures Measure(c, WNext(c, s, w)) < Measure(c, s)
  {
    var s' := WNext(c, s, w);
    var k := s.workers[w];
    WorkerDrops(c, s, w);
    SumUpdate(s.workers, WRank, w, s'.workers[w]);
    SumUpdate(s.queues, (v: Queue) => QRank(c.depth, v), k.q, s'.queues[k.q]);
  }

  lemma DDrops(c: Config, s: State)
    requires DEnabled(c, s)
    ensures Measure(c, DNext(c, s)) < Measure(c, s)
  {
    if s.disp.Some? { SumAppend(s.handlers, HRank, Handler(s.disp.value, HCall)); }
  }

  lemma HDrops(c: Config, s: State, h: nat, fill: seq<bv8>)
    requires HEnabled(c, s, h, false, fill)
    ensures Measure(c, HNext(c, s, h, false, fill)) < Measure(c, s)
  {
    SumUpdate(s.handlers, HRank, h, HNext(c, s, h, false, fill).handlers[h]);
  }

  lemma StepDrops(c: Config, s: State, g: Book, l: Label)
    requires Inv(c, s, g) && Enabled(c, s, l) && Internal(l)
    ensures Measure(c, Next(c, s, l)) < Measure(c, s)
  {
    match l {
      case QStep(q) =>
        assert QueueInv(c, s.queues[q], g.slot[q], q, s.workers);
        QDrops(c, s, q);
      case WStep(w) =>
        MineFromInv(c, s, g, w);
        WDrops(c, s, w);
      case DStep => DDrops(c, s);
      case HStep(h, err, fill) => HDrops(c, s, h, fill);
    }
  }

  /** Between two environment steps a run has at most `Measure` steps: no internal activity, waking
      and re-waiting included, goes on for ever. */
  lemma {:induction false} InternalRunsAreBounded(c: Config, r: Run, i: nat, j: nat)
    requires ValidConfig(c) && IsRun(c, r) && Errorless(r) && i <= j < |r.states|
    requires forall n | i <= n < j :: Internal(r.labels[n])
    ensures Measure(c, r.states[j]) + (j - i) <= Measure(c, r.states[i])
    decreases j
  {
    if i < j {
      InternalRunsAreBounded(c, r, i, j - 1);
      var g := ReachableInv(c, r, j - 1);
      assert StepAt(c, r, j - 1);
      StepDrops(c, r.states[j - 1], g, r.labels[j - 1]);
    }
  }

  // ---------------------------------------------------------------- some step is enabled

  predicate Runnable(c: Config, s: State, l: Label) { Internal(l) && Enabled(c, s, l) }

  // What the threads' enabling conditions need from the invariants.
  ghost predicate Good(c: Config, s: State, g: Book) { ValidConfig(c) && Inv(c, s, g) && BindInv(c, s) }

  lemma InBounds(c: Config, s: State, g: Book, w: nat)
    requires Good(c, s, g) && w < |s.workers|
    ensures var k := s.workers[w]; k.q < |s.queues| && k.m < |s.msgs| && k.tag < |s.queues[k.q].slots|
  {
    assert WorkerInv(s.queues, g.slot, g.msg, w, s.workers[w]);
  }

  // A thread inside a cond_mutex critical section can always take its next step.
  lemma MutexHolderRuns(c: Config, s: State, g: Book, q: nat) returns (l: Label)
    requires Good(c, s, g) && q < |s.queues| && s.queues[q].mutex.Some?
    ensures Runnable(c, s, l)
  {
    assert QueueInv(c, s.queues[q], g.slot[q], q, s.workers);
    match s.queues[q].mutex.value {
      case ByQueueThread => l := QStep(q);
      case ByWorker(w) =>
        InBounds(c, s, g, w);
        l := WStep(w);
    }
  }

  // So can whoever stands in the way of a holder of q->lock.
  lemma LockHolderRuns(c: Config, s: State, g: Book, w: nat) returns (l: Label)
    requires Good(c, s, g) && w < |s.workers| && HoldsLock(s.workers[w].pc)
    ensures Runnable(c, s, l)
  {
    InBounds(c, s, g, w);
    if s.workers[w].pc == WSigLock && s.queues[s.workers[w].q].mutex.Some? {
      l := MutexHolderRuns(c, s, g, s.workers[w].q);
    } else {
      l := WStep(w);
    }
  }

  lemma DispatcherRuns(c: Config, s: State, g: Book)
    requires Good(c, s, g) && (s.disp.Some? || s.req != [])
    ensures Runnable(c, s, DStep)
  {
    if s.disp.Some? { assert MsgData(c.readCap, s.msgs[s.disp.value], g.token[s.disp.value]); }
  }

  // The handler's range is inside the array, so a non-failing handler call exists.
  lemma HandlerRuns(c: Config, s: State, g: Book, h: nat) returns (l: Label)
    requires Good(c, s, g) && h < |s.handlers| && s.handlers[h].pc != HDone
    ensures Runnable(c, s, l)
  {
    var x := s.handlers[h].m;
    assert g.token[x] == AtHandler(h);
    assert MsgData(c.readCap, s.msgs[x], g.token[x]);
    assert MsgOwned(x, g.msg[x], g.token[x], s.free, s.queues, s.workers);
    var w := g.msg[x].w;
    l := HStep(h, false, Zeros(s.msgs[x].size));
    if s.handlers[h].pc.HCall? { CallPossible(c, s, g, w); }
  }

  lemma CallPossible(c: Config, s: State, g: Book, w: nat)
    requires Good(c, s, g) && w < |s.workers| && s.workers[w].pc == WWait
    ensures s.workers[w].m < |s.msgs|
    ensures var m := s.msgs[s.workers[w].m]; CallOk(s, m, Zeros(m.size))
  {
    var k := s.workers[w];
    assert WorkerInv(s.queues, g.slot, g.msg, w, k);
    assert WorkerBound(c, s.queues, s.msgs, k);
    assert MsgData(c.readCap, s.msgs[k.m], g.token[k.m]);
    var d := s.queues[k.q].slots[k.tag].iod;
    DescBounds(c, d);
    assert SlotsBound(c, s.queues[k.q].slots, s.queues[k.q].cq, s.queues[k.q].head, Busy(s.queues[k.q].pc));
  }

  /** While a worker has not finished, some internal step is enabled, even if queues block on an empty
      free channel. */
  lemma WorkerRuns(c: Config, s: State, g: Book, w: nat) returns (l: Label)
    requires Good(c, s, g) && w < |s.workers| && s.workers[w].pc != WDone
    ensures Runnable(c, s, l)
  {
    InBounds(c, s, g, w);
    var k := s.workers[w];
    l := WStep(w);
    if k.pc.WSend? {
      RoomToSend(c, s, g, w);
    } else if k.pc.WReturn? {
      RoomToReturn(c, s, g, w);
    } else if k.pc.WLock? {
      if s.queues[k.q].lock.Some? { l := LockOf(c, s, g, k.q); }
    } else if k.pc.WWait? {
      l := WaiterRuns(c, s, g, w);
    } else if k.pc.WSigLock? {
      l := LockHolderRuns(c, s, g, w);
    }
  }

  lemma LockOf(c: Config, s: State, g: Book, q: nat) returns (l: Label)
    requires Good(c, s, g) && q < |s.queues| && s.queues[q].lock.Some?
    ensures Runnable(c, s, l)
  {
    assert QueueInv(c, s.queues[q], g.slot[q], q, s.workers);
    l := LockHolderRuns(c, s, g, s.queues[q].lock.value);
  }

  lemma WaiterRuns(c: Config, s: State, g: Book, w: nat) returns (l: Label)
    requires Good(c, s, g) && w < |s.workers| && s.workers[w].pc == WWait
    ensures Runnable(c, s, l)
  {
    InBounds(c, s, g, w);
    var m := s.workers[w].m;
    assert WorkerInv(s.queues, g.slot, g.msg, w, s.workers[w]);
    assert MsgOwned(m, g.msg[m], g.token[m], s.free, s.queues, s.workers);
    assert TokenInv(m, g.token[m], s.req, s.disp, s.handlers);
    assert MsgData(c.readCap, s.msgs[m], g.token[m]);
    l := WStep(w);
    match g.token[m] {
      case InReq =>
        DispatcherRuns(c, s, g);
        l := DStep;
      case AtDispatcher =>
        DispatcherRuns(c, s, g);
        l := DStep;
      case AtHandler(h) => l := HandlerRuns(c, s, g, h);
      case Signalled =>
    }
  }

  // A queue thread stopped anywhere but in the driver.
  predicate Resting(p: QPc) { p.QSubmit? || p.QExit? }

  lemma ThreadRuns(c: Config, s: State, g: Book, q: nat) returns (l: Label)
    requires Good(c, s, g) && q < |s.queues| && !Resting(s.queues[q].pc)
    ensures Runnable(c, s, l)
  {
    var u := s.queues[q];
    assert QueueInv(c, u, g.slot[q], q, s.workers);
    l := QStep(q);
    if u.pc.QWaiting? {
      l := SleeperRuns(c, s, g, q);
    } else if u.pc.QLock? || u.pc.QWoken? {
      if u.mutex.Some? { l := MutexHolderRuns(c, s, g, q); }
    } else if u.pc.QDispatch? && s.free == [] {
      l := EmptyPoolRuns(c, s, g);
    }
  }

  // Asleep on a positive counter, some worker is before its decrement; on zero, one owes its signal.
  lemma SleeperRuns(c: Config, s: State, g: Book, q: nat) returns (l: Label)
    requires Good(c, s, g) && q < |s.queues| && s.queues[q].pc.QWaiting?
    ensures Runnable(c, s, l)
  {
    assert QueueInv(c, s.queues[q], g.slot[q], q, s.workers);
    if s.queues[q].inflight > 0 {
      var w := OutstandingWitness(s.workers, q);
      l := WorkerRuns(c, s, g, w);
    } else {
      var w :| 0 <= w < |s.workers| && Owes(s.workers[w], q);
      l := WorkerRuns(c, s, g, w);
    }
  }

  // With the free channel empty, request 0 is with a queue thread or a worker that can be driven on.
  lemma BinderRuns(c: Config, s: State, g: Book, q: nat)
    requires QueuesInv(c, s, g) && q < |s.queues| && s.queues[q].pc.QBind? && s.queues[q].pc.m < |s.msgs|
    ensures QEnabled(c, s, q)
  {
    assert QueueInv(c, s.queues[q], g.slot[q], q, s.workers);
  }

  lemma EmptyPoolRuns(c: Config, s: State, g: Book) returns (l: Label)
    requires Good(c, s, g) && s.free == []
    ensures Runnable(c, s, l)
  {
    assert MsgOwned(0, g.msg[0], g.token[0], s.free, s.queues, s.workers);
    match g.msg[0] {
      case InFree => assert false;
      case WithThread(q) =>
        BinderRuns(c, s, g, q);
        l := QStep(q);
      case WithWorker(w) => l := WorkerRuns(c, s, g, w);
    }
  }

  // Nothing left to do without the driver.
  predicate Quiescent(s: State) {
    && (forall q | 0 <= q < |s.queues| :: Resting(s.queues[q].pc))
    && (forall w | 0 <= w < |s.workers| :: s.workers[w].pc == WDone)
    && (forall h | 0 <= h < |s.handlers| :: s.handlers[h].pc == HDone)
    && s.req == [] && s.disp.None?
  }

  lemma {:induction false} NotStuck(c: Config, s: State, g: Book) returns (l: Label)
    requires Good(c, s, g) && !Quiescent(s)
    ensures Runnable(c, s, l)
  {
    if q :| 0 <= q < |s.queues| && !Resting(s.queues[q].pc) {
      l := ThreadRuns(c, s, g, q);
    } else if w :| 0 <= w < |s.workers| && s.workers[w].pc != WDone {
      l := WorkerRuns(c, s, g, w);
    } else if h :| 0 <= h < |s.handlers| && s.handlers[h].pc != HDone {
      l := HandlerRuns(c, s, g, h);
    } else {
      DispatcherRuns(c, s, g);
      l := DStep;
    }
  }

  /** A reachable state has no enabled internal step exactly when all workers and handlers are done, the
      channels are empty and every queue thread is in the driver or has left its loop. */
  lemma DeadlockFree(c: Config, s: State)
    requires Reachable(c, s)
    ensures (forall l | Internal(l) :: !Enabled(c, s, l)) <==> Quiescent(s)
  {
    var g := Known(c, s);
    if !Quiescent(s) {
      var l := NotStuck(c, s, g);
    } else {
      forall l | Internal(l) ensures !Enabled(c, s, l) {
      }
    }
  }

  lemma NobodyInside(c: Config, s: State, q: nat)
    requires Reachable(c, s) && Quiescent(s) && q < |s.queues|
    ensures s.queues[q].inflight == 0 && s.queues[q].lock.None? && s.queues[q].mutex.None?
  {
    CounterAccounting(c, s, q);
    assert DispatchedWorkers(s.workers, q) == {};
    ThreadMutex(c, s, q);
    if s.queues[q].lock.Some? { LockHeldBy(c, s, q); }
    if s.queues[q].mutex.Some? && s.queues[q].mutex.value.ByWorker? { MutexHeldBy(c, s, q); }
  }

  /** In such a state every pooled request is back in the free channel, no slot is with a worker or a
      queue thread, and every counter is zero: each dispatched request has had its commit prepared. */
  lemma QuiescentMeansDone(c: Config, s: State, q: nat, t: nat, m: nat) returns (sp: SlotPlace, mp: MsgPlace)
    requires Reachable(c, s) && Quiescent(s) && q < |s.queues| && t < |s.queues[q].slots| && m < c.pool
    ensures SlotAt(s, q, t, sp) && (sp.InRing? || sp.WithDriver? || sp.InCompletions? || sp.IsRetired?)
    ensures MsgAt(s, m, mp) && mp.InPool?
    ensures s.queues[q].inflight == 0 && s.queues[q].lock.None? && s.queues[q].mutex.None?
  {
    sp := OneOwner(c, s, q, t);
    mp := PoolPartition(c, s, m);
    NobodyInside(c, s, q);
  }

  // ---------------------------------------------------------------- draining

  lemma ReachableNext(c: Config, s: State, l: Label)
    requires Reachable(c, s) && Enabled(c, s, l) && NoError(l)
    ensures Reachable(c, Next(c, s, l))
  {
    var r: Run, i: nat :| IsRun(c, r) && Errorless(r) && i < |r.states| && r.states[i] == s;
    var p := Run(r.states[..i + 1] + [Next(c, s, l)], r.labels[..i] + [l]);
    forall j | 0 <= j < |p.labels| ensures StepAt(c, p, j) && NoError(p.labels[j]) {
      if j < i {
        assert StepAt(c, r, j);
        assert NoError(r.labels[j]);
      }
    }
    assert IsRun(c, p) && Errorless(p) && p.states[i + 1] == Next(c, s, l);
  }

  lemma DownStep(c: Config, s: State) returns (l: Label)
    requires Reachable(c, s) && !Quiescent(s)
    ensures Runnable(c, s, l) && Measure(c, Next(c, s, l)) < Measure(c, s) && Reachable(c, Next(c, s, l))
  {
    var g := Known(c, s);
    l := NotStuck(c, s, g);
    StepDrops(c, s, g, l);
    ReachableNext(c, s, l);
  }

  /** From every reachable state the daemon's own threads can bring everything to rest, in at most `Measure`
      steps: what they reach is quiescent and reachable, so `QuiescentMeansDone` speaks of it. */
  lemma {:induction false} Drains(c: Config, s: State) returns (ls: seq<Label>, s': State)
    requires Reachable(c, s)
    ensures Play(c, s, ls) == Some(s') && (forall l <- ls :: Internal(l)) && |ls| <= Measure(c, s)
    ensures Reachable(c, s') && Quiescent(s')
    decreases Measure(c, s)
  {
    if Quiescent(s) {
      ls, s' := [], s;
    } else {
      var l := DownStep(c, s);
      var rest, t := Drains(c, Next(c, s, l));
      ls, s' := [l] + rest, t;
      assert ls[1..] == rest;
    }
  }
}
