/** What is bound to what while a request is in flight: descriptor, worker and pooled message. */
module Binding {
  import opened Machine
  import opened Ledger
  import opened Preserve
  import opened PreserveThread

  // Until its data has been copied back, a worker still needs its message.
  predicate Early(p: WPc) { p.WSend? || p.WWait? || p.WCopy? }

  // The message carries the descriptor of slot (q, t) and, for a write, aliases its buffer.
  predicate Bound(m: Msg, q: nat, t: nat, d: Desc) {
    && m.ty == TypeWord(KindOf(d)) && m.seqNo == t && m.off == Off(d) && m.size == Len(d)
    && (KindOf(d) == Write ==> m.wdata == Some(Alias(q, t, Len(d))))
  }

  predicate BindHas(c: Config, k: Worker, d: Desc, m: Msg) {
    HoldsSlot(k.pc) ==>
      && DescOk(c, d) && k.kind == KindOf(d) && k.len == Len(d)
      && (Early(k.pc) ==> Bound(m, k.q, k.tag, d))
  }

  ghost predicate WorkerBound(c: Config, queues: seq<Queue>, msgs: seq<Msg>, k: Worker) {
    && k.q < |queues| && k.tag < |queues[k.q].slots| && k.m < |msgs|
    && BindHas(c, k, queues[k.q].slots[k.tag].iod, msgs[k.m])
  }

  ghost predicate WorkersBound(c: Config, queues: seq<Queue>, msgs: seq<Msg>, workers: seq<Worker>) {
    forall w | 0 <= w < |workers| :: WorkerBound(c, queues, msgs, workers[w])
  }

  ghost predicate SlotsBound(c: Config, slots: seq<Slot>, cq: seq<Cqe>, head: nat, busy: Option<nat>) {
    && (forall t | 0 <= t < |slots| :: |slots[t].buf| == c.bufBytes)
    && (forall i | head <= i < |cq| :: cq[i].tag < |slots| && (cq[i].res == RES_OK ==> DescOk(c, slots[cq[i].tag].iod)))
    && (busy.Some? ==> busy.value < |slots| && DescOk(c, slots[busy.value].iod))
  }

  ghost predicate BindInv(c: Config, s: State) {
    && WorkersBound(c, s.queues, s.msgs, s.workers)
    && (forall q | 0 <= q < |s.queues| ::
          SlotsBound(c, s.queues[q].slots, s.queues[q].cq, s.queues[q].head, Busy(s.queues[q].pc)))
    && (forall m | 0 <= m < |s.msgs| :: s.msgs[m].rlen <= c.readCap)
    && |s.disk| == |c.disk0|
  }

  // ---------------------------------------------------------------- frames

  // The descriptors of worker-owned slots and the binding of their messages did not change.
  ghost predicate BindSame(s: State, s': State, w: nat)
    requires w < |s.workers| && w < |s'.workers|
  {
    var k, k' := s.workers[w], s'.workers[w];
    && k'.q == k.q && k'.tag == k.tag && k'.m == k.m && k'.kind == k.kind && k'.len == k.len
    && k'.q < |s.queues| && k'.q < |s'.queues| && k'.tag < |s'.queues[k.q].slots| && k'.tag < |s.queues[k.q].slots|
    && k'.m < |s.msgs| && k'.m < |s'.msgs|
    && (HoldsSlot(k'.pc) ==> HoldsSlot(k.pc) && s'.queues[k.q].slots[k.tag].iod == s.queues[k.q].slots[k.tag].iod)
    && (Early(k'.pc) ==> Early(k.pc) && SameBinding(s.msgs[k.m], s'.msgs[k.m]))
  }

  predicate SameBinding(m: Msg, m': Msg) {
    m'.ty == m.ty && m'.seqNo == m.seqNo && m'.off == m.off && m'.size == m.size && m'.wdata == m.wdata
  }

  lemma LiftBound(c: Config, s: State, s': State)
    requires WorkersBound(c, s.queues, s.msgs, s.workers) && |s'.workers| == |s.workers|
    requires forall w | 0 <= w < |s.workers| :: BindSame(s, s', w)
    ensures WorkersBound(c, s'.queues, s'.msgs, s'.workers)
  {
    forall w | 0 <= w < |s'.workers| ensures WorkerBound(c, s'.queues, s'.msgs, s'.workers[w]) {
      assert BindSame(s, s', w);
      assert WorkerBound(c, s.queues, s.msgs, s.workers[w]);
    }
  }

  // ---------------------------------------------------------------- queue threads and the kernel

  // Same descriptors, buffers of the same size.
  predicate SameSlots(a: seq<Slot>, b: seq<Slot>) {
    |a| == |b| && forall t | 0 <= t < |a| :: a[t].iod == b[t].iod && |a[t].buf| == |b[t].buf|
  }

  lemma HandleSlots(u: Queue)
    requires u.head < |u.cq| && u.cq[u.head].tag < |u.slots|
    ensures SameSlots(HandleCqe(u).slots, u.slots)
  {
  }

  lemma LocalSlots(u: Queue)
    requires u.pc.QReap? && u.head < |u.cq| ==> u.cq[u.head].tag < |u.slots|
    ensures SameSlots(Local(u).slots, u.slots)
  {
    if u.pc.QReap? && u.head < |u.cq| {
      HandleSlots(u);
    } else if !u.pc.QDiscard? {
      assert Local(u).slots == u.slots;
    }
  }

  lemma HandleBound(c: Config, u: Queue)
    requires SlotsBound(c, u.slots, u.cq, u.head, None) && u.head < |u.cq| && u.cq[u.head].tag < |u.slots|
    ensures var v := HandleCqe(u); SlotsBound(c, v.slots, v.cq, v.head, Busy(v.pc))
  {
    HandleSlots(u);
  }

  // Outside the reap, completions stay and no request is in the thread's hands.
  lemma LocalKeeps(u: Queue)
    requires !u.pc.QDispatch? && !u.pc.QBind? && !u.pc.QReap?
    ensures var v := Local(u);
            && v.cq == u.cq && v.head == u.head && v.sq == u.sq && v.closed == u.closed && v.stopping == u.stopping
            && Busy(v.pc).None? && !v.pc.QInc?
            && (v.pc.QExit? <==> u.pc.QExit? || (u.pc.QCheck? && u.stopping && u.sq == []))
  {
    match u.pc {
      case QCheck =>
      case QPost =>
      case QDiscard(i) =>
      case QInc =>
      case QTest =>
      case _ =>
    }
  }

  lemma LocalBound(c: Config, u: Queue)
    requires SlotsBound(c, u.slots, u.cq, u.head, Busy(u.pc)) && !u.pc.QDispatch? && !u.pc.QBind? && u.head <= |u.cq|
    ensures SlotsBound(c, Local(u).slots, Local(u).cq, Local(u).head, Busy(Local(u).pc))
  {
    if u.pc.QReap? && u.head < |u.cq| {
      HandleBound(c, u);
    } else {
      LocalSlots(u);
      if !u.pc.QReap? { LocalKeeps(u); }
    }
  }

  // A step of queue q's record that keeps the descriptors of worker-owned slots.
  lemma LiftSlots(c: Config, s: State, s': State, g: Book, q: nat, u: Queue)
    requires WorkersInv(c, s, g) && BindInv(c, s) && q < |s.queues| == |g.slot|
    requires s' == s.(queues := s.queues[q := u]) && |u.slots| == |s.queues[q].slots| == |g.slot[q]|
    requires forall t | 0 <= t < |u.slots| && g.slot[q][t].Work? :: u.slots[t].iod == s.queues[q].slots[t].iod
    requires SlotsBound(c, u.slots, u.cq, u.head, Busy(u.pc))
    ensures BindInv(c, s')
  {
    forall w | 0 <= w < |s.workers| ensures BindSame(s, s', w) {
      assert WorkerInv(s.queues, g.slot, g.msg, w, s.workers[w]);
    }
    LiftBound(c, s, s');
  }

  lemma QBound(c: Config, s: State, g: Book, q: nat)
    requires Inv(c, s, g) && BindInv(c, s) && QEnabled(c, s, q)
    ensures BindInv(c, QNext(c, s, q))
  {
    var u := s.queues[q];
    assert QueueInv(c, u, g.slot[q], q, s.workers);
    if u.pc.QBind? {
      SpawnBound(c, s, g, q);
    } else if u.pc.QDispatch? {
      LiftSlots(c, s, QNext(c, s, q).(free := s.free), g, q, u.(pc := QBind(u.pc.tag, s.free[0])));
    } else {
      LocalBound(c, u);
      LocalSlots(u);
      LiftSlots(c, s, QNext(c, s, q), g, q, Local(u));
    }
  }

  // The new worker's message is nobody else's.
  lemma SpawnBound(c: Config, s: State, g: Book, q: nat)
    requires WorkersInv(c, s, g) && BindInv(c, s) && QEnabled(c, s, q) && s.queues[q].pc.QBind?
    requires |s.msgs| == |g.msg| && g.msg[s.queues[q].pc.m] == WithThread(q)
    ensures BindInv(c, QNext(c, s, q))
  {
    var s' := QNext(c, s, q);
    forall w | 0 <= w < |s.workers| ensures WorkerBound(c, s'.queues, s'.msgs, s.workers[w]) {
      assert WorkerInv(s.queues, g.slot, g.msg, w, s.workers[w]);
      assert WorkerBound(c, s.queues, s.msgs, s.workers[w]);
    }
  }

  lemma KBound(c: Config, s: State, g: Book, l: Label)
    requires WorkersInv(c, s, g) && BindInv(c, s) && Enabled(c, s, l)
    requires l.KTake? || l.KFail? || l.KReturn? || l.KSpurious?
    requires |g.slot| == |s.queues| && |g.slot[l.q]| == |s.queues[l.q].slots|
    ensures BindInv(c, Next(c, s, l))
  {
    LiftSlots(c, s, Next(c, s, l), g, l.q, Next(c, s, l).queues[l.q]);
  }

  lemma BlitSize(dst: seq<bv8>, src: seq<bv8>, n: nat)
    ensures |Blit(dst, src, n)| == |dst|
  {
  }

  lemma PostBound(c: Config, s: State, g: Book, q: nat, t: nat, d: Desc, payload: seq<bv8>)
    requires WorkersInv(c, s, g) && BindInv(c, s) && Enabled(c, s, KPost(q, t, d, payload))
    requires |g.slot| == |s.queues| && QueueInv(c, s.queues[q], g.slot[q], q, s.workers)
    ensures BindInv(c, Next(c, s, KPost(q, t, d, payload)))
  {
    var u := s.queues[q];
    var own := g.slot[q];
    var u' := Next(c, s, KPost(q, t, d, payload)).queues[q];
    assert SlotInv(t, u.slots[t].flags, own[t], u.kern, Busy(u.pc));
    BlitSize(u.slots[t].buf, payload, |payload|);
    assert forall i | u.head <= i < |u.cq| :: own[u.cq[i].tag] == Completed;
    LiftSlots(c, s, Next(c, s, KPost(q, t, d, payload)), g, q, u');
  }

  // ---------------------------------------------------------------- workers, dispatcher, handlers

  lemma WBound(c: Config, s: State, g: Book, w: nat)
    requires BindInv(c, s) && WEnabled(c, s, w)
    requires |g.slot| == |s.queues| && !s.workers[w].eio && s.msgs[s.workers[w].m].result != -1
    ensures BindInv(c, WNext(c, s, w))
  {
    var s' := WNext(c, s, w);
    WFrame(c, s, g, w);
    WTouches(c, s, g, w);
    forall v | 0 <= v < |s.workers| ensures BindSame(s, s', v) {
      assert WorkerBound(c, s.queues, s.msgs, s.workers[v]);
    }
    LiftBound(c, s, s');
  }

  predicate SameShape(u: Queue, u': Queue) {
    SameSlots(u'.slots, u.slots) && u'.cq == u.cq && u'.head == u.head && Busy(u'.pc) == Busy(u.pc)
  }

  // A worker step changes no descriptor, no binding and no size.
  lemma WTouches(c: Config, s: State, g: Book, w: nat)
    requires WEnabled(c, s, w) && |g.slot| == |s.queues| && !s.workers[w].eio && s.msgs[s.workers[w].m].result != -1
    ensures var s' := WNext(c, s, w); var k := s.workers[w]; var k' := s'.workers[w];
            && k'.kind == k.kind && k'.len == k.len
            && (HoldsSlot(k'.pc) ==> HoldsSlot(k.pc)) && (Early(k'.pc) ==> Early(k.pc))
            && SameShape(s.queues[k.q], s'.queues[k.q]) && |s'.msgs| == |s.msgs|
            && forall m | 0 <= m < |s.msgs| :: SameBinding(s.msgs[m], s'.msgs[m]) && s'.msgs[m].rlen == s.msgs[m].rlen
  {
  }

  lemma DBound(c: Config, s: State)
    requires BindInv(c, s) && DEnabled(c, s)
    ensures BindInv(c, DNext(c, s))
  {
    forall w | 0 <= w < |s.workers| ensures BindSame(s, DNext(c, s), w) {
      assert WorkerBound(c, s.queues, s.msgs, s.workers[w]);
    }
    LiftBound(c, s, DNext(c, s));
  }

  lemma HBound(c: Config, s: State, h: nat, err: bool, fill: seq<bv8>)
    requires BindInv(c, s) && HEnabled(c, s, h, err, fill) && |s.msgs[s.handlers[h].m].rbuf| == c.readCap
    ensures BindInv(c, HNext(c, s, h, err, fill))
  {
    var s' := HNext(c, s, h, err, fill);
    forall w | 0 <= w < |s.workers| ensures BindSame(s, s', w) {
      assert WorkerBound(c, s.queues, s.msgs, s.workers[w]);
    }
    LiftBound(c, s, s');
  }

  lemma InitBound(c: Config)
    ensures BindInv(c, Init(c))
  {
  }

  lemma StepKeepsBinding(c: Config, s: State, g: Book, l: Label)
    requires Inv(c, s, g) && BindInv(c, s) && Enabled(c, s, l) && NoError(l)
    ensures BindInv(c, Next(c, s, l))
  {
    match l {
      case QStep(q) => QBound(c, s, g, q);
      case WStep(w) =>
        MineFromInv(c, s, g, w);
        WBound(c, s, g, w);
      case DStep => DBound(c, s);
      case HStep(h, err, fill) =>
        assert MsgData(c.readCap, s.msgs[s.handlers[h].m], g.token[s.handlers[h].m]);
        HBound(c, s, h, err, fill);
      case KPost(q, t, d, payload) =>
        assert QueueInv(c, s.queues[q], g.slot[q], q, s.workers);
        PostBound(c, s, g, q, t, d, payload);
      case _ =>
        assert QueueInv(c, s.queues[l.q], g.slot[l.q], l.q, s.workers);
        KBound(c, s, g, l);
    }
  }
}
