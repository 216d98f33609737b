/** What a queue thread leaves behind when it leaves its loop. */
module Leaving {
  import opened Machine
  import opened Ledger
  import opened Preserve
  import opened PreserveThread
  import opened Runs
  import opened Theorems

  // The step reaps an OK completion of queue q: a request is handed over.
  predicate ReapsOk(s: State, l: Label, q: nat) {
    && l == QStep(q) && q < |s.queues| && s.queues[q].pc.QReap?
    && s.queues[q].head < |s.queues[q].cq| && s.queues[q].cq[s.queues[q].head].res == RES_OK
  }

  // How many requests the batch reaped since queue q's last return from the driver has handed over.
  function HandedOver(r: Run, n: nat, q: nat): nat
    requires n <= |r.labels| < |r.states|
  {
    if n == 0 then 0
    else Counted(HandedOver(r, n - 1, q), r.states[n - 1], r.labels[n - 1], q)
  }

  function Counted(handed: nat, s: State, l: Label, q: nat): nat {
    if l.KReturn? && l.q == q then 0 else if ReapsOk(s, l, q) then handed + 1 else handed
  }

  function InHand(p: QPc): nat { if Busy(p).Some? then 1 else 0 }

  // Outside the driver, an empty ring means that nothing handed over since has prepared its commit.
  ghost predicate BatchRel(u: Queue, q: nat, ws: seq<Worker>, handed: nat) {
    u.pc != QSubmit && u.sq == [] ==> Outstanding(ws, q) + InHand(u.pc) == handed
  }

  // A command stays in the ring until its worker's decrement.
  ghost predicate PreparedRel(u: Queue, q: nat, ws: seq<Worker>) {
    forall w | 0 <= w < |ws| && ws[w].q == q && ws[w].pc.WDec? :: u.sq != []
  }

  ghost predicate Batch(s: State, q: nat, handed: nat) {
    q < |s.queues| && BatchRel(s.queues[q], q, s.workers, handed) && PreparedRel(s.queues[q], q, s.workers)
  }

  // ---------------------------------------------------------------- the queue's own steps

  lemma ReapBatch(u: Queue, q: nat, ws: seq<Worker>, handed: nat)
    requires BatchRel(u, q, ws, handed) && u.pc.QReap? && u.head < |u.cq| && u.cq[u.head].tag < |u.slots|
    ensures BatchRel(HandleCqe(u), q, ws, if u.cq[u.head].res == RES_OK then handed + 1 else handed)
    ensures HandleCqe(u).sq == u.sq
  {
  }

  lemma QuietBatch(u: Queue, q: nat, ws: seq<Worker>, handed: nat)
    requires BatchRel(u, q, ws, handed) && !u.pc.QDispatch? && !u.pc.QBind? && !u.pc.QSubmit?
    requires !(u.pc.QReap? && u.head < |u.cq|)
    ensures BatchRel(Local(u), q, ws, handed) && Local(u).sq == u.sq
  {
    match u.pc {
      case QReap =>
      case QPost =>
      case QDiscard(i) =>
      case QCheck =>
      case QTest =>
      case _ =>
    }
  }

  lemma BindBatch(c: Config, s: State, q: nat, handed: nat)
    requires QEnabled(c, s, q) && Batch(s, q, handed) && s.queues[q].pc.QBind?
    ensures Batch(QNext(c, s, q), q, handed)
  {
    OutstandingAppend(s.workers, QNext(c, s, q).workers[|s.workers|], q);
  }

  lemma LocalBatch(c: Config, s: State, q: nat, handed: nat)
    requires QEnabled(c, s, q) && Batch(s, q, handed) && !s.queues[q].pc.QBind? && !s.queues[q].pc.QDispatch?
    requires var u := s.queues[q]; u.head < |u.cq| ==> u.cq[u.head].tag < |u.slots|
    ensures Batch(QNext(c, s, q), q, Counted(handed, s, QStep(q), q))
  {
    var u := s.queues[q];
    assert QNext(c, s, q) == s.(queues := s.queues[q := Local(u)]);
    if u.pc.QReap? && u.head < |u.cq| {
      ReapBatch(u, q, s.workers, handed);
    } else {
      QuietBatch(u, q, s.workers, handed);
    }
  }

  lemma ThreadBatch(c: Config, s: State, q: nat, handed: nat)
    requires QEnabled(c, s, q) && Batch(s, q, handed)
    requires var u := s.queues[q]; u.head < |u.cq| ==> u.cq[u.head].tag < |u.slots|
    ensures Batch(QNext(c, s, q), q, Counted(handed, s, QStep(q), q))
  {
    if s.queues[q].pc.QBind? {
      BindBatch(c, s, q, handed);
    } else if !s.queues[q].pc.QDispatch? {
      LocalBatch(c, s, q, handed);
    }
  }

  // Another queue's thread adds no worker to this queue.
  lemma OtherThreadBatch(c: Config, s: State, p: nat, q: nat, handed: nat)
    requires QEnabled(c, s, p) && Batch(s, q, handed) && p != q
    ensures Batch(QNext(c, s, p), q, handed)
  {
    if s.queues[p].pc.QBind? { OutstandingAppend(s.workers, QNext(c, s, p).workers[|s.workers|], q); }
  }

  // ---------------------------------------------------------------- workers

  lemma WorkerPoints(c: Config, s: State, w: nat)
    requires WEnabled(c, s, w) && !s.workers[w].eio && s.msgs[s.workers[w].m].result != -1
    requires s.workers[w].pc.WPrep? ==> Ready(c, s, w) && c.depth <= c.entries
    ensures var s' := WNext(c, s, w); var k, k' := s.workers[w], s'.workers[w];
            && s'.workers == s.workers[w := k'] && k'.q == k.q
            && (Counts(k'.pc) <==> Counts(k.pc) && !k.pc.WDec?) && (k'.pc.WDec? <==> k.pc.WPrep?)
  {
  }

  lemma WorkerQueue(c: Config, s: State, w: nat)
    requires WEnabled(c, s, w) && (s.workers[w].pc.WPrep? ==> Ready(c, s, w) && c.depth <= c.entries)
    ensures var s' := WNext(c, s, w); var k := s.workers[w];
            && |s'.queues| == |s.queues| && s'.queues == s.queues[k.q := s'.queues[k.q]]
            && var u, u' := s.queues[k.q], s'.queues[k.q];
               && (if k.pc.WPrep? then u'.sq != [] else u'.sq == u.sq)
               && (u'.pc == u.pc || (u.pc.QWaiting? && u'.pc.QWoken?))
  {
  }

  lemma WorkerBatch(c: Config, s: State, w: nat, q: nat, handed: nat)
    requires WEnabled(c, s, w) && !s.workers[w].eio && s.msgs[s.workers[w].m].result != -1
    requires s.workers[w].pc.WPrep? ==> Ready(c, s, w) && c.depth <= c.entries
    requires Batch(s, q, handed)
    ensures Batch(WNext(c, s, w), q, handed)
  {
    WorkerPoints(c, s, w);
    WorkerQueue(c, s, w);
    OutstandingUpdate(s.workers, w, WNext(c, s, w).workers[w], q);
  }

  // ---------------------------------------------------------------- the driver

  lemma DriverBatch(c: Config, s: State, g: Book, l: Label, q: nat, handed: nat)
    requires QueuesInv(c, s, g) && Enabled(c, s, l) && Batch(s, q, handed)
    requires l.KTake? || l.KPost? || l.KFail? || l.KReturn? || l.KSpurious?
    ensures Batch(Next(c, s, l), q, Counted(handed, s, l, q))
  {
    var u := s.queues[q];
    assert QueueInv(c, u, g.slot[q], q, s.workers);
    if l.KTake? && l.q == q {
      forall w | 0 <= w < |s.workers| && s.workers[w].q == q ensures !s.workers[w].pc.WDec? {
        if s.workers[w].pc.WDec? { OutstandingPositive(s.workers, w, q); }
      }
    }
  }

  lemma ThreadsBatch(c: Config, s: State, g: Book, p: nat, q: nat, handed: nat)
    requires QueuesInv(c, s, g) && QEnabled(c, s, p) && Batch(s, q, handed)
    ensures Batch(QNext(c, s, p), q, Counted(handed, s, QStep(p), q))
  {
    assert QueueInv(c, s.queues[p], g.slot[p], p, s.workers);
    if p == q { ThreadBatch(c, s, q, handed); } else { OtherThreadBatch(c, s, p, q, handed); }
  }

  lemma GoBatch(c: Config, s: State, l: Label, q: nat, handed: nat)
    requires Enabled(c, s, l) && (l.DStep? || l.HStep?) && Batch(s, q, handed)
    ensures Batch(Next(c, s, l), q, Counted(handed, s, l, q))
  {
  }

  lemma MyBatch(c: Config, s: State, g: Book, w: nat, q: nat, handed: nat)
    requires Inv(c, s, g) && c.depth <= c.entries && WEnabled(c, s, w) && Batch(s, q, handed)
    ensures Batch(WNext(c, s, w), q, handed)
  {
    MineFromInv(c, s, g, w);
    WorkerBatch(c, s, w, q, handed);
  }

  lemma StepBatch(c: Config, s: State, g: Book, l: Label, q: nat, handed: nat)
    requires Inv(c, s, g) && c.depth <= c.entries && Enabled(c, s, l) && NoError(l) && Batch(s, q, handed)
    ensures Batch(Next(c, s, l), q, Counted(handed, s, l, q))
  {
    match l {
      case QStep(p) => ThreadsBatch(c, s, g, p, q, handed);
      case WStep(w) =>
        MyBatch(c, s, g, w, q, handed);
      case DStep => GoBatch(c, s, l, q, handed);
      case HStep(h, err, fill) => GoBatch(c, s, l, q, handed);
      case _ => DriverBatch(c, s, g, l, q, handed);
    }
  }

  lemma InitBatch(c: Config, q: nat)
    requires ValidConfig(c) && q < c.queues
    ensures Batch(Init(c), q, 0)
  {
    assert InitQueue(c).sq[0] == Fetch(0);
  }

  lemma {:induction false} RunBatch(c: Config, r: Run, n: nat, q: nat)
    requires ValidConfig(c) && IsRun(c, r) && Errorless(r) && n < |r.states| && q < c.queues
    ensures Batch(r.states[n], q, HandedOver(r, n, q))
  {
    if n == 0 {
      InitBatch(c, q);
    } else {
      RunBatch(c, r, n - 1, q);
      var g := ReachableInv(c, r, n - 1);
      assert StepAt(c, r, n - 1);
      StepBatch(c, r.states[n - 1], g, r.labels[n - 1], q, HandedOver(r, n - 1, q));
    }
  }

  // ---------------------------------------------------------------- the exit

  /** When a queue thread leaves its loop, the workers it leaves outstanding are exactly as many as the requests
      its last batch handed over: the exit is clean if and only if that batch held no OK completion. Nothing
      unsubmitted is left. */
  lemma ExitLeavesLastBatch(c: Config, r: Run, i: nat, q: nat)
    requires ValidConfig(c) && IsRun(c, r) && Errorless(r) && i < |r.labels| && r.labels[i] == QStep(q)
    requires q < |r.states[i].queues| && r.states[i].queues[q].pc.QCheck?
    requires q < |r.states[i + 1].queues| && r.states[i + 1].queues[q].pc.QExit?
    ensures r.states[i + 1].queues[q].sq == []
    ensures |DispatchedWorkers(r.states[i + 1].workers, q)| == HandedOver(r, i, q)
    ensures DispatchedWorkers(r.states[i + 1].workers, q) == {} <==> HandedOver(r, i, q) == 0
  {
    var s := r.states[i];
    assert StepAt(c, r, i);
    var g := ReachableInv(c, r, i);
    RunBatch(c, r, i, q);
    OutstandingIsCount(s.workers, q);
  }

  // A thread that has left its loop submits nothing any more.
  lemma {:induction false} ExitIsFinal(c: Config, r: Run, i: nat, j: nat, q: nat)
    requires ValidConfig(c) && IsRun(c, r) && Errorless(r) && i <= j < |r.states|
    requires q < |r.states[i].queues| && r.states[i].queues[q].pc.QExit?
    ensures q < |r.states[j].queues| && r.states[j].queues[q].pc.QExit?
    ensures j < |r.labels| ==> r.labels[j] != KTake(q)
  {
    if i < j {
      ExitIsFinal(c, r, i, j - 1, q);
      assert StepAt(c, r, j - 1);
      StillOut(c, r.states[j - 1], r.labels[j - 1], q);
    }
    if j < |r.labels| { assert StepAt(c, r, j); }
  }

  lemma StillOut(c: Config, s: State, l: Label, q: nat)
    requires Enabled(c, s, l) && q < |s.queues| && s.queues[q].pc.QExit?
    ensures q < |Next(c, s, l).queues| && Next(c, s, l).queues[q].pc.QExit?
  {
    if l.WStep? { StillOutW(c, s, l.w, q); }
  }

  lemma StillOutW(c: Config, s: State, w: nat, q: nat)
    requires WEnabled(c, s, w) && q < |s.queues| && s.queues[q].pc.QExit?
    ensures q < |WNext(c, s, w).queues| && WNext(c, s, w).queues[q].pc.QExit?
  {
  }
}
