/** The queue threads', the kernel's, the dispatcher's and the handlers' steps keep the ledger invariant. */
module PreserveThread {
  import opened Machine
  import opened Ledger
  import opened Preserve

  // ---------------------------------------------------------------- frames

  // A step of queue q that leaves every worker where it is.
  lemma LiftQueue(c: Config, s: State, s': State, g: Book, g': Book, q: nat, u: Queue, own: seq<SlotOwner>)
    requires QueuesInv(c, s, g) && q < c.queues && s'.workers == s.workers
    requires s'.queues == s.queues[q := u] && g'.slot == g.slot[q := own]
    requires QueueInv(c, u, own, q, s.workers)
    ensures QueuesInv(c, s', g')
  {
  }

  ghost predicate WorkersUntouched(u: Queue, u': Queue, own: seq<SlotOwner>, own': seq<SlotOwner>) {
    && |u'.slots| == |u.slots| == |own'| == |own|
    && u'.lock == u.lock
    && (u'.mutex == u.mutex || ((u.mutex.None? || u.mutex.value.ByQueueThread?) && (u'.mutex.None? || u'.mutex.value.ByQueueThread?)))
    && (forall t | 0 <= t < |own| && own[t].Work? :: own'[t] == own[t] && u'.slots[t].flags == u.slots[t].flags)
  }

  lemma LiftWorkersUntouched(c: Config, s: State, s': State, g: Book, g': Book, q: nat, u: Queue, own: seq<SlotOwner>)
    requires WorkersInv(c, s, g) && q < |s.queues| == |g.slot| && s'.workers == s.workers
    requires s'.queues == s.queues[q := u] && g'.slot == g.slot[q := own] && |g'.msg| == |g.msg|
    requires WorkersUntouched(s.queues[q], u, g.slot[q], own)
    requires forall m | 0 <= m < |g.msg| && g.msg[m].WithWorker? :: g'.msg[m] == g.msg[m]
    ensures WorkersInv(c, s', g')
  {
    forall w | 0 <= w < |s.workers| ensures WorkerInv(s'.queues, g'.slot, g'.msg, w, s.workers[w]) {
      assert WorkerInv(s.queues, g.slot, g.msg, w, s.workers[w]);
    }
  }

  // ---------------------------------------------------------------- steps of one queue's record

  lemma EntryStep(c: Config, u: Queue, own: seq<SlotOwner>, q: nat, ws: seq<Worker>)
    requires QueueInv(c, u, own, q, ws) && (u.pc.QCheck? || u.pc.QLock? || u.pc.QWoken?)
    requires u.pc.QLock? || u.pc.QWoken? ==> u.mutex.None?
    ensures QueueInv(c, Local(u), own, q, ws) && WorkersUntouched(u, Local(u), own, own)
  {
  }

  lemma BarrierStep(c: Config, u: Queue, own: seq<SlotOwner>, q: nat, ws: seq<Worker>)
    requires QueueInv(c, u, own, q, ws) && (u.pc.QTest? || u.pc.QPreWait? || u.pc.QRelease?)
    ensures QueueInv(c, Local(u), own, q, ws) && WorkersUntouched(u, Local(u), own, own)
  {
    if u.pc.QTest? { TestStep(c, u, own, q, ws); }
  }

  lemma TestStep(c: Config, u: Queue, own: seq<SlotOwner>, q: nat, ws: seq<Worker>)
    requires QueueInv(c, u, own, q, ws) && u.pc.QTest?
    ensures QueueInv(c, Local(u), own, q, ws) && WorkersUntouched(u, Local(u), own, own)
  {
  }

  lemma IncStep(c: Config, u: Queue, own: seq<SlotOwner>, q: nat, ws: seq<Worker>)
    requires QueueInv(c, u, own, q, ws) && u.pc.QInc?
    ensures QueueInv(c, Local(u), own, q, ws) && WorkersUntouched(u, Local(u), own, own)
  {
  }

  lemma FinishStep(c: Config, u: Queue, own: seq<SlotOwner>, q: nat, ws: seq<Worker>)
    requires QueueInv(c, u, own, q, ws) && u.pc.QPost?
    ensures QueueInv(c, Local(u), own, q, ws) && WorkersUntouched(u, Local(u), own, own)
  {
  }

  lemma SlotsFrame(depth: nat, slots: seq<Slot>, slots': seq<Slot>, kern: set<nat>, busy: Option<nat>, own: seq<SlotOwner>)
    requires SlotsInv(depth, slots, kern, busy, own) && SameFlags(slots', slots)
    ensures SlotsInv(depth, slots', kern, busy, own)
  {
  }

  lemma IdleStep(c: Config, u: Queue, own: seq<SlotOwner>, q: nat, ws: seq<Worker>, slots: seq<Slot>, p: QPc, idle: bool)
    requires QueueInv(c, u, own, q, ws) && u.pc.QDiscard? && SameFlags(slots, u.slots)
    requires (p.QDiscard? && p.page <= c.depth) || p.QCheck?
    ensures var u' := u.(slots := slots, pc := p, idle := idle);
            QueueInv(c, u', own, q, ws) && WorkersUntouched(u, u', own, own)
  {
    SlotsFrame(c.depth, u.slots, slots, u.kern, Busy(u.pc), own);
  }

  lemma DiscardStep(c: Config, u: Queue, own: seq<SlotOwner>, q: nat, ws: seq<Worker>)
    requires QueueInv(c, u, own, q, ws) && u.pc.QDiscard?
    ensures QueueInv(c, Local(u), own, q, ws) && WorkersUntouched(u, Local(u), own, own)
  {
    var i := u.pc.page;
    if i < |u.slots| {
      IdleStep(c, u, own, q, ws, DiscardPage(u, i).slots, QDiscard(i + 1), u.idle);
    } else {
      IdleStep(c, u, own, q, ws, u.slots, QCheck, true);
    }
  }

  lemma ReturnStep(c: Config, u: Queue, own: seq<SlotOwner>, q: nat, ws: seq<Worker>, timeout: bool)
    requires QueueInv(c, u, own, q, ws) && u.pc == QSubmit
    ensures QueueInv(c, u.(pc := QReap, etime := timeout), own, q, ws)
  {
  }

  lemma SpuriousStep(c: Config, u: Queue, own: seq<SlotOwner>, q: nat, ws: seq<Worker>)
    requires QueueInv(c, u, own, q, ws) && u.pc == QWaiting
    ensures QueueInv(c, u.(pc := QWoken), own, q, ws)
  {
  }

  lemma BatchEnd(c: Config, u: Queue, own: seq<SlotOwner>, q: nat, ws: seq<Worker>)
    requires QueueInv(c, u, own, q, ws) && u.pc.QReap? && u.head == |u.cq|
    ensures QueueInv(c, u.(pc := QPost, reaped := u.head, cq := [], head := 0), own, q, ws)
  {
  }

  // The completion at the head leaves the queue of completions.
  lemma PopCompletion(u: Queue, own: seq<SlotOwner>, o: SlotOwner)
    requires CqInv(u.cq, u.head, true, own) && u.head < |u.cq| && (o.Thread? || o.Retired?)
    ensures CqInv(u.cq, u.head + 1, true, own[u.cq[u.head].tag := o])
  {
    var own' := own[u.cq[u.head].tag := o];
    forall t | 0 <= t < |own'| && own'[t] == Completed ensures exists i :: u.head + 1 <= i < |u.cq| && u.cq[i].tag == t {
      var i :| u.head <= i < |u.cq| && u.cq[i].tag == t;
      assert i != u.head;
    }
  }

  lemma HandleOk(c: Config, u: Queue, own: seq<SlotOwner>, q: nat, ws: seq<Worker>)
    requires QueueInv(c, u, own, q, ws) && u.pc.QReap? && u.head < |u.cq| && u.cq[u.head].res == RES_OK
    ensures var own' := own[u.cq[u.head].tag := Thread];
            QueueInv(c, HandleCqe(u), own', q, ws) && WorkersUntouched(u, HandleCqe(u), own, own')
  {
    var e := u.cq[u.head];
    assert own[e.tag] == Completed;
    assert SlotInv(e.tag, u.slots[e.tag].flags, own[e.tag], u.kern, Busy(u.pc));
    PopCompletion(u, own, Thread);
  }

  lemma HandleFailure(c: Config, u: Queue, own: seq<SlotOwner>, q: nat, ws: seq<Worker>)
    requires QueueInv(c, u, own, q, ws) && u.pc.QReap? && u.head < |u.cq| && u.cq[u.head].res != RES_OK
    ensures var own' := own[u.cq[u.head].tag := Retired];
            QueueInv(c, HandleCqe(u), own', q, ws) && WorkersUntouched(u, HandleCqe(u), own, own')
  {
    var e := u.cq[u.head];
    assert own[e.tag] == Completed;
    assert SlotInv(e.tag, u.slots[e.tag].flags, own[e.tag], u.kern, Busy(u.pc));
    PopCompletion(u, own, Retired);
  }

  lemma TakeMessage(c: Config, u: Queue, own: seq<SlotOwner>, q: nat, ws: seq<Worker>, m: nat)
    requires QueueInv(c, u, own, q, ws) && u.pc.QDispatch?
    ensures QueueInv(c, u.(pc := QBind(u.pc.tag, m)), own, q, ws)
  {
  }

  lemma SpawnStep(c: Config, u: Queue, own: seq<SlotOwner>, q: nat, ws: seq<Worker>, k: Worker)
    requires QueueInv(c, u, own, q, ws) && u.pc.QBind? && k.q == q && k.tag == u.pc.tag && k.pc == WSend
    ensures var own' := own[k.tag := Work(|ws|)];
            QueueInv(c, u.(pc := QInc), own', q, ws + [k]) && WorkersUntouched(u, u.(pc := QInc), own, own')
            && u.slots[k.tag].flags == NO_FLAGS
  {
    OutstandingAppend(ws, k, q);
    assert SlotInv(k.tag, u.slots[k.tag].flags, own[k.tag], u.kern, Busy(u.pc));
  }

  lemma PopCommand(sq: seq<Cmd>, own: seq<SlotOwner>)
    requires SqInv(sq, own) && sq != []
    ensures SqInv(sq[1..], own[sq[0].tag := Driver])
  {
    var own' := own[sq[0].tag := Driver];
    forall r | 0 <= r < |own'| && own'[r] == Queued ensures exists i :: 0 <= i < |sq[1..]| && sq[1..][i].tag == r {
      var i :| 0 <= i < |sq| && sq[i].tag == r;
      assert sq[1..][i - 1].tag == r;
    }
  }

  lemma TakeCommand(c: Config, u: Queue, own: seq<SlotOwner>, q: nat, ws: seq<Worker>)
    requires QueueInv(c, u, own, q, ws) && u.pc == QSubmit && u.sq != []
    ensures var t := u.sq[0].tag; var own' := own[t := Driver]; var u' := u.(sq := u.sq[1..], kern := u.kern + {t});
            t < |own| && QueueInv(c, u', own', q, ws) && WorkersUntouched(u, u', own, own')
  {
    assert own[u.sq[0].tag] == Queued;
    PopCommand(u.sq, own);
  }

  lemma PushCompletion(cq: seq<Cqe>, head: nat, reaping: bool, own: seq<SlotOwner>, t: nat, res: int)
    requires CqInv(cq, head, reaping, own) && t < |own| && own[t] == Driver && res != RES_GET_DATA
    ensures CqInv(cq + [Cqe(t, res)], head, reaping, own[t := Completed])
  {
    var own' := own[t := Completed];
    var cq' := cq + [Cqe(t, res)];
    forall r | 0 <= r < |own'| && own'[r] == Completed ensures exists i :: head <= i < |cq'| && cq'[i].tag == r {
      if r == t {
        assert cq'[|cq|].tag == t;
      } else {
        var i :| head <= i < |cq| && cq[i].tag == r;
        assert cq'[i].tag == r;
      }
    }
  }

  // The driver posts a completion; a request's data goes to the slot's buffer.
  lemma PostStep(c: Config, u: Queue, own: seq<SlotOwner>, q: nat, ws: seq<Worker>, t: nat, res: int, sl: Slot, closed: bool)
    requires QueueInv(c, u, own, q, ws) && t in u.kern && t < |u.slots| && res != RES_GET_DATA
    requires sl.flags == u.slots[t].flags
    ensures var own' := own[t := Completed];
            var u' := u.(kern := u.kern - {t}, cq := u.cq + [Cqe(t, res)], slots := u.slots[t := sl], closed := closed);
            QueueInv(c, u', own', q, ws) && WorkersUntouched(u, u', own, own')
  {
    assert SlotInv(t, u.slots[t].flags, own[t], u.kern, Busy(u.pc));
    PushCompletion(u.cq, u.head, InReap(u.pc), own, t, res);
  }

  // ---------------------------------------------------------------- queue threads and the kernel

  // A step of a queue's record alone, with its ledger row.
  lemma LiftQuiet(c: Config, s: State, g: Book, s': State, g': Book, q: nat, u: Queue, own: seq<SlotOwner>)
    requires Inv(c, s, g) && q < c.queues
    requires s' == s.(queues := s.queues[q := u]) && g' == g.(slot := g.slot[q := own])
    requires QueueInv(c, u, own, q, s.workers) && WorkersUntouched(s.queues[q], u, g.slot[q], own)
    requires SameBind(s.queues[q].pc, u.pc)
    ensures Inv(c, s', g')
  {
    LiftQueue(c, s, s', g, g', q, u, own);
    LiftWorkersUntouched(c, s, s', g, g', q, u, own);
    QuietPool(c, s, g, s', g');
  }

  lemma LocalKeepsQueue(c: Config, u: Queue, own: seq<SlotOwner>, q: nat, ws: seq<Worker>) returns (own': seq<SlotOwner>)
    requires QueueInv(c, u, own, q, ws) && !u.pc.QDispatch? && !u.pc.QBind?
    requires u.pc.QLock? || u.pc.QWoken? ==> u.mutex.None?
    requires !u.pc.QWaiting? && !u.pc.QSubmit? && !u.pc.QExit?
    ensures own' == if u.pc.QReap? && u.head < |u.cq|
                    then own[u.cq[u.head].tag := if u.cq[u.head].res == RES_OK then Thread else Retired] else own
    ensures QueueInv(c, Local(u), own', q, ws) && WorkersUntouched(u, Local(u), own, own')
  {
    own' := own;
    match u.pc {
      case QTest => BarrierStep(c, u, own, q, ws);
      case QPreWait => BarrierStep(c, u, own, q, ws);
      case QRelease => BarrierStep(c, u, own, q, ws);
      case QReap =>
        if u.head == |u.cq| {
          BatchEnd(c, u, own, q, ws);
        } else if u.cq[u.head].res == RES_OK {
          own' := own[u.cq[u.head].tag := Thread];
          HandleOk(c, u, own, q, ws);
        } else {
          own' := own[u.cq[u.head].tag := Retired];
          HandleFailure(c, u, own, q, ws);
        }
      case QInc => IncStep(c, u, own, q, ws);
      case QPost => FinishStep(c, u, own, q, ws);
      case QDiscard(i) => DiscardStep(c, u, own, q, ws);
      case _ => EntryStep(c, u, own, q, ws);
    }
  }

  lemma LocalBook(c: Config, s: State, g: Book, q: nat)
    requires QEnabled(c, s, q) && !s.queues[q].pc.QDispatch? && !s.queues[q].pc.QBind?
    requires q < |g.slot| && |g.slot[q]| == |s.queues[q].slots|
    ensures var u := s.queues[q]; var own := g.slot[q];
            Advance(c, s, g, QStep(q)).slot == g.slot[q :=
              if u.pc.QReap? && u.head < |u.cq|
              then own[u.cq[u.head].tag := if u.cq[u.head].res == RES_OK then Thread else Retired] else own]
    ensures Advance(c, s, g, QStep(q)) == g.(slot := Advance(c, s, g, QStep(q)).slot)
    ensures QNext(c, s, q) == s.(queues := s.queues[q := Local(s.queues[q])])
    ensures !Local(s.queues[q]).pc.QBind?
  {
  }

  lemma QLocalKeeps(c: Config, s: State, g: Book, q: nat)
    requires Inv(c, s, g) && QEnabled(c, s, q) && !s.queues[q].pc.QDispatch? && !s.queues[q].pc.QBind?
    ensures Inv(c, QNext(c, s, q), Advance(c, s, g, QStep(q)))
  {
    var u := s.queues[q];
    assert QueueInv(c, u, g.slot[q], q, s.workers);
    LocalBook(c, s, g, q);
    var own' := LocalKeepsQueue(c, u, g.slot[q], q, s.workers);
    LiftQuiet(c, s, g, QNext(c, s, q), Advance(c, s, g, QStep(q)), q, Local(u), own');
  }

  lemma QDispatchKeeps(c: Config, s: State, g: Book, q: nat)
    requires Inv(c, s, g) && QEnabled(c, s, q) && s.queues[q].pc.QDispatch?
    ensures Inv(c, QNext(c, s, q), Advance(c, s, g, QStep(q)))
  {
    var u := s.queues[q];
    var s', g' := QNext(c, s, q), Advance(c, s, g, QStep(q));
    assert QueueInv(c, u, g.slot[q], q, s.workers);
    TakeMessage(c, u, g.slot[q], q, s.workers, s.free[0]);
    LiftQueue(c, s, s', g, g', q, s'.queues[q], g.slot[q]);
    LiftWorkersUntouched(c, s, s', g, g', q, s'.queues[q], g.slot[q]);
    TakePool(c, s, g, q);
  }

  lemma TakePool(c: Config, s: State, g: Book, q: nat)
    requires PoolInv(c, s, g) && QEnabled(c, s, q) && s.queues[q].pc.QDispatch?
    ensures PoolInv(c, QNext(c, s, q), Advance(c, s, g, QStep(q)))
  {
    var s', g' := QNext(c, s, q), Advance(c, s, g, QStep(q));
    var x := s.free[0];
    assert g.msg[x] == InFree;
    forall m | 0 <= m < c.pool ensures MsgOwned(m, g'.msg[m], g'.token[m], s'.free, s'.queues, s'.workers) {
      assert MsgOwned(m, g.msg[m], g.token[m], s.free, s.queues, s.workers);
    }
  }

  lemma QBindKeeps(c: Config, s: State, g: Book, q: nat)
    requires Inv(c, s, g) && QEnabled(c, s, q) && s.queues[q].pc.QBind?
    ensures Inv(c, QNext(c, s, q), Advance(c, s, g, QStep(q)))
  {
    var u := s.queues[q];
    var s', g' := QNext(c, s, q), Advance(c, s, g, QStep(q));
    var k := s'.workers[|s.workers|];
    assert QueueInv(c, u, g.slot[q], q, s.workers);
    SpawnStep(c, u, g.slot[q], q, s.workers, k);
    forall r | 0 <= r < c.queues ensures QueueInv(c, s'.queues[r], g'.slot[r], r, s'.workers) {
      if r != q { OtherSpawn(c, s.queues[r], g.slot[r], r, s.workers, k); }
    }
    BindPool(c, s, g, q);
    assert SlotInv(u.pc.tag, u.slots[u.pc.tag].flags, g.slot[q][u.pc.tag], u.kern, Busy(u.pc));
    BindWorkers(c, s, g, q);
  }

  lemma BindWorkers(c: Config, s: State, g: Book, q: nat)
    requires WorkersInv(c, s, g) && QEnabled(c, s, q) && s.queues[q].pc.QBind? && q < |g.slot| == |s.queues|
    requires var u := s.queues[q]; |g.slot[q]| == |u.slots| && g.slot[q][u.pc.tag] == Thread && u.slots[u.pc.tag].flags == NO_FLAGS
    requires s.queues[q].pc.m < |g.msg| && g.msg[s.queues[q].pc.m] == WithThread(q)
    requires s.queues[q].lock != Some(|s.workers|) && s.queues[q].mutex != Some(ByWorker(|s.workers|))
    ensures WorkersInv(c, QNext(c, s, q), Advance(c, s, g, QStep(q)))
  {
    var s', g' := QNext(c, s, q), Advance(c, s, g, QStep(q));
    forall w | 0 <= w < |s'.workers| ensures WorkerInv(s'.queues, g'.slot, g'.msg, w, s'.workers[w]) {
      if w < |s.workers| { assert WorkerInv(s.queues, g.slot, g.msg, w, s.workers[w]); }
    }
  }

  lemma BindPool(c: Config, s: State, g: Book, q: nat)
    requires PoolInv(c, s, g) && QEnabled(c, s, q) && s.queues[q].pc.QBind?
    ensures PoolInv(c, QNext(c, s, q), Advance(c, s, g, QStep(q)))
  {
    var s', g' := QNext(c, s, q), Advance(c, s, g, QStep(q));
    var x := s.queues[q].pc.m;
    assert g.msg[x] == WithThread(q);
    forall m | 0 <= m < c.pool ensures MsgOwned(m, g'.msg[m], g'.token[m], s'.free, s'.queues, s'.workers) {
      assert MsgOwned(m, g.msg[m], g.token[m], s.free, s.queues, s.workers);
    }
    assert MsgData(c.readCap, s.msgs[x], g.token[x]);
  }

  lemma KTakeKeeps(c: Config, s: State, g: Book, q: nat)
    requires Inv(c, s, g) && Enabled(c, s, KTake(q))
    ensures Inv(c, Next(c, s, KTake(q)), Advance(c, s, g, KTake(q)))
  {
    var u, own := s.queues[q], g.slot[q];
    var s', g' := Next(c, s, KTake(q)), Advance(c, s, g, KTake(q));
    assert QueueInv(c, u, own, q, s.workers);
    TakeCommand(c, u, own, q, s.workers);
    LiftQuiet(c, s, g, s', g', q, s'.queues[q], own[u.sq[0].tag := Driver]);
  }

  lemma KPostKeeps(c: Config, s: State, g: Book, q: nat, t: nat, d: Desc, payload: seq<bv8>)
    requires Inv(c, s, g) && Enabled(c, s, KPost(q, t, d, payload))
    ensures Inv(c, Next(c, s, KPost(q, t, d, payload)), Advance(c, s, g, KPost(q, t, d, payload)))
  {
    var u, own := s.queues[q], g.slot[q];
    var s', g' := Next(c, s, KPost(q, t, d, payload)), Advance(c, s, g, KPost(q, t, d, payload));
    assert QueueInv(c, u, own, q, s.workers);
    PostStep(c, u, own, q, s.workers, t, RES_OK, s'.queues[q].slots[t], u.closed);
    LiftQuiet(c, s, g, s', g', q, s'.queues[q], own[t := Completed]);
  }

  lemma KFailKeeps(c: Config, s: State, g: Book, q: nat, t: nat, res: int)
    requires Inv(c, s, g) && Enabled(c, s, KFail(q, t, res))
    ensures Inv(c, Next(c, s, KFail(q, t, res)), Advance(c, s, g, KFail(q, t, res)))
  {
    var u, own := s.queues[q], g.slot[q];
    var s', g' := Next(c, s, KFail(q, t, res)), Advance(c, s, g, KFail(q, t, res));
    assert QueueInv(c, u, own, q, s.workers);
    PostStep(c, u, own, q, s.workers, t, res, u.slots[t], u.closed || res == RES_ABORT);
    assert u.slots[t := u.slots[t]] == u.slots;
    LiftQuiet(c, s, g, s', g', q, s'.queues[q], own[t := Completed]);
  }

  lemma KWakeKeeps(c: Config, s: State, g: Book, l: Label)
    requires Inv(c, s, g) && Enabled(c, s, l) && (l.KReturn? || l.KSpurious?)
    ensures Inv(c, Next(c, s, l), Advance(c, s, g, l))
  {
    var q, u, own := l.q, s.queues[l.q], g.slot[l.q];
    assert QueueInv(c, u, own, q, s.workers);
    WakeStep(c, u, own, q, s.workers, l);
    SameBook(g, q);
    if l.KReturn? {
      LiftQuiet(c, s, g, Next(c, s, l), g, q, u.(pc := QReap, etime := l.timeout), own);
    } else {
      LiftQuiet(c, s, g, Next(c, s, l), g, q, u.(pc := QWoken), own);
    }
  }

  lemma SameBook(g: Book, q: nat)
    requires q < |g.slot|
    ensures g == g.(slot := g.slot[q := g.slot[q]])
  {
  }

  // The queue's own side of the two.
  lemma WakeStep(c: Config, u: Queue, own: seq<SlotOwner>, q: nat, ws: seq<Worker>, l: Label)
    requires QueueInv(c, u, own, q, ws) && (if l.KReturn? then u.pc == QSubmit else l.KSpurious? && u.pc == QWaiting)
    ensures var v := if l.KReturn? then u.(pc := QReap, etime := l.timeout) else u.(pc := QWoken);
            QueueInv(c, v, own, q, ws) && WorkersUntouched(u, v, own, own)
  {
    if l.KReturn? {
      ReturnStep(c, u, own, q, ws, l.timeout);
    } else {
      SpuriousStep(c, u, own, q, ws);
    }
  }

  // ---------------------------------------------------------------- dispatcher and handlers

  lemma DKeeps(c: Config, s: State, g: Book)
    requires Inv(c, s, g) && DEnabled(c, s)
    ensures Inv(c, DNext(c, s), Advance(c, s, g, DStep))
  {
    var s', g' := DNext(c, s), Advance(c, s, g, DStep);
    match s.disp {
      case None =>
        assert g.token[s.req[0]] == InReq;
        DPool(c, s, g, s.req[0]);
      case Some(m) => DPool(c, s, g, m);
    }
  }

  lemma DPool(c: Config, s: State, g: Book, x: nat)
    requires PoolInv(c, s, g) && DEnabled(c, s)
    requires if s.disp.None? then x == s.req[0] else s.disp == Some(x)
    ensures PoolInv(c, DNext(c, s), Advance(c, s, g, DStep))
  {
    var s', g' := DNext(c, s), Advance(c, s, g, DStep);
    forall m | 0 <= m < c.pool ensures MsgOwned(m, g'.msg[m], g'.token[m], s'.free, s'.queues, s'.workers) {
      assert MsgOwned(m, g.msg[m], g.token[m], s.free, s.queues, s.workers);
    }
    DTokens(c, s, g, x);
    assert MsgData(c.readCap, s.msgs[x], g.token[x]);
  }

  lemma DTokens(c: Config, s: State, g: Book, x: nat)
    requires PoolInv(c, s, g) && DEnabled(c, s)
    requires if s.disp.None? then x == s.req[0] else s.disp == Some(x)
    ensures var s', g' := DNext(c, s), Advance(c, s, g, DStep);
            |g'.token| == c.pool && forall m | 0 <= m < c.pool :: TokenInv(m, g'.token[m], s'.req, s'.disp, s'.handlers)
  {
    var s', g' := DNext(c, s), Advance(c, s, g, DStep);
    forall m | 0 <= m < c.pool ensures TokenInv(m, g'.token[m], s'.req, s'.disp, s'.handlers) {
      assert TokenInv(m, g.token[m], s.req, s.disp, s.handlers);
    }
  }

  lemma HPool(c: Config, s: State, g: Book, h: nat, fill: seq<bv8>)
    requires PoolInv(c, s, g) && HEnabled(c, s, h, false, fill)
    ensures PoolInv(c, HNext(c, s, h, false, fill), Advance(c, s, g, HStep(h, false, fill)))
  {
    var s', g' := HNext(c, s, h, false, fill), Advance(c, s, g, HStep(h, false, fill));
    var x := s.handlers[h].m;
    assert g.token[x] == AtHandler(h);
    assert MsgData(c.readCap, s.msgs[x], g.token[x]);
    forall m | 0 <= m < c.pool ensures MsgOwned(m, g'.msg[m], g'.token[m], s'.free, s'.queues, s'.workers) {
      assert MsgOwned(m, g.msg[m], g.token[m], s.free, s.queues, s.workers);
    }
    forall m | 0 <= m < c.pool ensures TokenInv(m, g'.token[m], s'.req, s'.disp, s'.handlers) {
      assert TokenInv(m, g.token[m], s.req, s.disp, s.handlers);
    }
  }

  // ---------------------------------------------------------------- every step, and every run

  // No handler call of this step returns an error.
  predicate NoError(l: Label) { l.HStep? ==> !l.err }

  lemma StepKeepsInv(c: Config, s: State, g: Book, l: Label)
    requires c.depth <= c.entries && Inv(c, s, g) && Enabled(c, s, l) && NoError(l)
    ensures Inv(c, Next(c, s, l), Advance(c, s, g, l))
  {
    match l {
      case QStep(q) =>
        if s.queues[q].pc.QDispatch? {
          QDispatchKeeps(c, s, g, q);
        } else if s.queues[q].pc.QBind? {
          QBindKeeps(c, s, g, q);
        } else {
          QLocalKeeps(c, s, g, q);
        }
      case WStep(w) => WKeeps(c, s, g, w);
      case DStep => DKeeps(c, s, g);
      case HStep(h, err, fill) => HPool(c, s, g, h, fill);
      case KTake(q) => KTakeKeeps(c, s, g, q);
      case KPost(q, t, d, payload) => KPostKeeps(c, s, g, q, t, d, payload);
      case KFail(q, t, res) => KFailKeeps(c, s, g, q, t, res);
      case _ => KWakeKeeps(c, s, g, l);
    }
  }

  lemma InitQueueInv(c: Config, own: seq<SlotOwner>, q: nat)
    requires own == seq(c.depth, _ => Queued)
    ensures QueueInv(c, InitQueue(c), own, q, [])
  {
    var sq := InitQueue(c).sq;
    forall t | 0 <= t < |own| && own[t] == Queued ensures exists i :: 0 <= i < |sq| && sq[i].tag == t {
      assert sq[t].tag == t;
    }
  }

  lemma InitInv(c: Config)
    ensures Inv(c, Init(c), InitBook(c))
  {
    var s, g := Init(c), InitBook(c);
    forall q | 0 <= q < c.queues ensures QueueInv(c, s.queues[q], g.slot[q], q, s.workers) {
      InitQueueInv(c, g.slot[q], q);
    }
    forall m | 0 <= m < c.pool ensures m in s.free {
      assert s.free[m] == m;
    }
  }
}
