/** Simulation by the steps of the queue threads and the kernel. */
module RefineThread {
  import opened Machine
  import opened Ledger
  import opened Preserve
  import opened PreserveThread
  import opened Binding
  import opened Device
  import opened Refine

  // ---------------------------------------------------------------- frame

  // Queue q's record and row move; no worker-owned slot does.
  lemma LiftRel(c: Config, s: State, s': State, g: Book, g': Book, d: Dev, q: nat, u: Queue, own: seq<SlotOwner>, sts: seq<Status>)
    requires WorkersInv(c, s, g) && Rel(c, s, g, d) && q < |s.queues|
    requires s'.queues == s.queues[q := u] && s'.workers == s.workers && s'.msgs == s.msgs
    requires s'.handlers == s.handlers && s'.disk == s.disk
    requires g'.slot == g.slot[q := own] && g'.token == g.token
    requires QueueRel(u.slots, own, u.sq, u.cq, u.head, sts)
    requires |u.slots| == |s.queues[q].slots|
    requires forall t | 0 <= t < |own| && g.slot[q][t].Work? :: u.slots[t] == s.queues[q].slots[t] && sts[t] == d.slots[q][t]
    ensures Rel(c, s', g', d.(slots := d.slots[q := sts]))
  {
    var rows := d.slots[q := sts];
    forall w | 0 <= w < |s'.workers| ensures WorkerRel(s', g'.token, rows, s'.workers[w]) {
      assert WorkerInv(s.queues, g.slot, g.msg, w, s.workers[w]);
      assert WorkerRel(s, g.token, d.slots, s.workers[w]);
    }
  }

  ghost predicate RowRel(u: Queue, own: seq<SlotOwner>, sts: seq<Status>) {
    QueueRel(u.slots, own, u.sq, u.cq, u.head, sts)
  }

  // ---------------------------------------------------------------- one row

  // Reaping hands the request over unchanged; a failed slot is already failed.
  lemma HandleRow(u: Queue, own: seq<SlotOwner>, sts: seq<Status>)
    requires RowRel(u, own, sts) && u.pc.QReap? && u.head < |u.cq|
    requires SqInv(u.sq, own) && CqInv(u.cq, u.head, true, own)
    ensures RowRel(HandleCqe(u), own[u.cq[u.head].tag := if u.cq[u.head].res == RES_OK then Thread else Retired], sts)
  {
    var e := u.cq[u.head];
    assert own[e.tag] == Completed;
    assert CqeRel(e, u.slots[e.tag], sts[e.tag]);
    assert forall i | 0 <= i < |u.sq| :: u.sq[i].tag != e.tag;
  }

  // Zeroing a slot's buffer changes its request only if the request is a write of other data.
  lemma ZeroedReq(u: Queue, t: nat)
    requires t < |u.slots|
    ensures ReqOf(u.slots[t].(buf := Zeros(|u.slots[t].buf|))) == ReqOf(u.slots[t]) <==> !Payload(u, t)
  {
    var sl := u.slots[t];
    var n := Len(sl.iod);
    if n <= |sl.buf| { assert Zeros(|sl.buf|)[..n] == Zeros(n); }
  }

  // While pages are discarded every slot is with the driver, completed or retired.
  lemma DiscardOwner(c: Config, u: Queue, own: seq<SlotOwner>, q: nat, ws: seq<Worker>, i: nat)
    requires u.pc.QDiscard? && QueueInv(c, u, own, q, ws) && i < |u.slots|
    ensures own[i].Driver? || own[i].Completed? || own[i].Retired?
    ensures Unreaped(u, i) ==> own[i].Completed?
  {
    if own[i].Work? { OutstandingPositive(ws, own[i].w, q); }
    assert SlotInv(i, u.slots[i].flags, own[i], u.kern, Busy(u.pc));
  }

  // What the completions of the discarded slot say afterwards.
  lemma DiscardCqe(u: Queue, own: seq<SlotOwner>, sts: seq<Status>, j: nat)
    requires RowRel(u, own, sts) && u.pc.QDiscard? && u.pc.page < |u.slots|
    requires u.head <= j < |u.cq| && u.cq[j].tag == u.pc.page
    ensures CqeRel(u.cq[j], DiscardPage(u, u.pc.page).slots[u.pc.page], Lost(u, sts)[u.pc.page])
  {
    var i := u.pc.page;
    assert CqeRel(u.cq[j], u.slots[i], sts[i]);
    ZeroedReq(u, i);
    if u.cq[j].res == RES_OK {
      assert u.cq[j] == Cqe(i, RES_OK);
      if Payload(u, i) { BlankedReq(u, i); }
    } else if Unreaped(u, i) && sts[i].Pending? {
      assert false;
    }
  }

  lemma DiscardRow(c: Config, u: Queue, own: seq<SlotOwner>, q: nat, ws: seq<Worker>, sts: seq<Status>)
    requires RowRel(u, own, sts) && u.pc.QDiscard? && QueueInv(c, u, own, q, ws) && u.pc.page < |u.slots|
    ensures RowRel(DiscardPage(u, u.pc.page), own, Lost(u, sts))
  {
    var i := u.pc.page;
    DiscardOwner(c, u, own, q, ws, i);
    forall j | u.head <= j < |u.cq| && u.cq[j].tag == i
      ensures CqeRel(u.cq[j], DiscardPage(u, i).slots[i], Lost(u, sts)[i])
    {
      DiscardCqe(u, own, sts, j);
    }
  }

  lemma UnreapedPending(u: Queue, own: seq<SlotOwner>, sts: seq<Status>, i: nat)
    requires RowRel(u, own, sts) && Unreaped(u, i)
    ensures i < |sts| && sts[i].Pending? && sts[i].req.kind.Write?
  {
    var j :| u.head <= j < |u.cq| && u.cq[j] == Cqe(i, RES_OK) && Payload(u, i);
    assert CqeRel(u.cq[j], u.slots[i], sts[i]);
  }

  // The row after a discard: only an unreaped write's data changes.
  function Lost(u: Queue, sts: seq<Status>): seq<Status>
    requires u.pc.QDiscard? && u.pc.page < |sts|
  {
    var i := u.pc.page;
    if Unreaped(u, i) && sts[i].Pending? then sts[i := Pending(Blanked(sts[i].req))] else sts
  }

  lemma BlankedReq(u: Queue, t: nat)
    requires t < |u.slots| && Payload(u, t)
    ensures ReqOf(u.slots[t].(buf := Zeros(|u.slots[t].buf|))) == Blanked(ReqOf(u.slots[t]))
  {
    var sl := u.slots[t];
    assert Zeros(|sl.buf|)[..Len(sl.iod)] == Zeros(Len(sl.iod));
  }

  // The state, its ledger and the device agree, seen from queue q.
  ghost predicate Here(c: Config, s: State, g: Book, d: Dev, q: nat) {
    && WorkersInv(c, s, g) && Rel(c, s, g, d) && q < |s.queues|
    && QueueInv(c, s.queues[q], g.slot[q], q, s.workers)
  }

  // Steps that move neither commands, completions nor slots.
  lemma IdleSimulates(c: Config, s: State, g: Book, d: Dev, q: nat, s': State)
    requires Here(c, s, g, d, q) && s'.workers == s.workers && s'.msgs == s.msgs && s'.handlers == s.handlers && s'.disk == s.disk
    requires |s'.queues| == |s.queues| && s'.queues == s.queues[q := s'.queues[q]]
    requires var u, u' := s.queues[q], s'.queues[q];
             u'.slots == u.slots && u'.sq == u.sq && ((u'.cq == u.cq && u'.head == u.head) || u'.cq == [])
    ensures Rel(c, s', g, d)
    ensures forall msg :: Rel(c, s', g.(msg := msg), d)
  {
    var u, own, sts := s.queues[q], g.slot[q], d.slots[q];
    assert RowRel(u, own, sts);
    assert d.slots[q := sts] == d.slots && g.slot[q := own] == g.slot;
    LiftRel(c, s, s', g, g, d, q, s'.queues[q], own, sts);
  }

  lemma ReapSimulates(c: Config, s: State, g: Book, d: Dev, q: nat)
    requires Here(c, s, g, d, q) && QEnabled(c, s, q)
    requires s.queues[q].pc.QReap? && s.queues[q].head < |s.queues[q].cq|
    ensures Simulates(c, s, g, d, QStep(q))
  {
    var u, own, sts := s.queues[q], g.slot[q], d.slots[q];
    assert RowRel(u, own, sts);
    assert d.slots[q := sts] == d.slots;
    var s', g' := QNext(c, s, q), Advance(c, s, g, QStep(q));
    LocalBook(c, s, g, q);
    HandleRow(u, own, sts);
    assert own[u.cq[u.head].tag] == Completed;
    LiftRel(c, s, s', g, g', d, q, s'.queues[q], g'.slot[q], sts);
  }

  lemma DiscardKeepsRel(c: Config, s: State, g: Book, d: Dev, q: nat)
    requires Here(c, s, g, d, q) && BindInv(c, s) && QEnabled(c, s, q)
    requires s.queues[q].pc.QDiscard? && s.queues[q].pc.page < |s.queues[q].slots|
    ensures Rel(c, QNext(c, s, q), g, d.(slots := d.slots[q := Lost(s.queues[q], d.slots[q])]))
  {
    var u, own, sts := s.queues[q], g.slot[q], d.slots[q];
    assert RowRel(u, own, sts);
    DiscardRow(c, u, own, q, s.workers, sts);
    DiscardOwner(c, u, own, q, s.workers, u.pc.page);
    assert g.slot[q := own] == g.slot;
    LiftRel(c, s, QNext(c, s, q), g, g, d, q, QNext(c, s, q).queues[q], own, Lost(u, sts));
  }

  lemma DiscardMove(c: Config, s: State, g: Book, d: Dev, q: nat)
    requires QEnabled(c, s, q) && s.queues[q].pc.QDiscard? && s.queues[q].pc.page < |s.queues[q].slots|
    requires q < |d.slots| && |d.slots[q]| == |s.queues[q].slots|
    requires var u := s.queues[q]; Unreaped(u, u.pc.page) ==> d.slots[q][u.pc.page].Pending? && d.slots[q][u.pc.page].req.kind.Write?
    ensures Advance(c, s, g, QStep(q)) == g
    ensures var m := MoveOf(c, s, g, QStep(q));
            && (m.Some? ==> DevEnabled(d, m.value))
            && After(d, m) == d.(slots := d.slots[q := Lost(s.queues[q], d.slots[q])])
  {
    assert d.slots[q := d.slots[q]] == d.slots;
  }

  lemma DiscardSimulates(c: Config, s: State, g: Book, d: Dev, q: nat)
    requires Here(c, s, g, d, q) && BindInv(c, s) && QEnabled(c, s, q)
    requires s.queues[q].pc.QDiscard? && s.queues[q].pc.page < |s.queues[q].slots|
    ensures Simulates(c, s, g, d, QStep(q))
  {
    var u := s.queues[q];
    assert RowRel(u, g.slot[q], d.slots[q]);
    if Unreaped(u, u.pc.page) { UnreapedPending(u, g.slot[q], d.slots[q], u.pc.page); }
    DiscardMove(c, s, g, d, q);
    DiscardKeepsRel(c, s, g, d, q);
  }

  lemma DiscardBreaks(u: Queue, t: nat, own: seq<SlotOwner>, sts: seq<Status>)
    requires t < |u.slots| && RowRel(u, own, sts) && Unreaped(u, t)
    ensures !RowRel(DiscardPage(u, t), own, sts)
  {
    var i :| u.head <= i < |u.cq| && u.cq[i] == Cqe(t, RES_OK) && Payload(u, t);
    ZeroedReq(u, t);
    assert CqeRel(u.cq[i], u.slots[t], sts[t]);
    assert !CqeRel(u.cq[i], DiscardPage(u, t).slots[t], sts[t]);
  }

  /** A discard step keeps the pipeline in step with the device exactly when it hits no unreaped write
      of non-zero data; otherwise the posted request itself is changed. */
  lemma DiscardExact(c: Config, s: State, g: Book, d: Dev, q: nat)
    requires Here(c, s, g, d, q) && BindInv(c, s) && QEnabled(c, s, q)
    requires s.queues[q].pc.QDiscard? && s.queues[q].pc.page < |s.queues[q].slots|
    ensures Rel(c, QNext(c, s, q), g, d) <==> !Unreaped(s.queues[q], s.queues[q].pc.page)
  {
    var u := s.queues[q];
    var t := u.pc.page;
    if Unreaped(u, t) {
      DiscardBreaks(u, t, g.slot[q], d.slots[q]);
      assert !RowRel(QNext(c, s, q).queues[q], g.slot[q], d.slots[q]);
    } else {
      DiscardKeepsRel(c, s, g, d, q);
      assert d.slots[q := d.slots[q]] == d.slots;
    }
  }

  lemma IdleNext(c: Config, s: State, g: Book, q: nat)
    requires QEnabled(c, s, q) && !s.queues[q].pc.QBind?
    requires !(s.queues[q].pc.QReap? && s.queues[q].head < |s.queues[q].cq|)
    requires !(s.queues[q].pc.QDiscard? && s.queues[q].pc.page < |s.queues[q].slots|)
    ensures var s' := QNext(c, s, q); var u, u' := s.queues[q], s'.queues[q];
            && s'.workers == s.workers && s'.msgs == s.msgs && s'.handlers == s.handlers && s'.disk == s.disk
            && s'.queues == s.queues[q := u']
            && u'.slots == u.slots && u'.sq == u.sq && ((u'.cq == u.cq && u'.head == u.head) || u'.cq == [])
    ensures var g' := Advance(c, s, g, QStep(q)); g' == g.(msg := g'.msg)
    ensures MoveOf(c, s, g, QStep(q)).None?
  {
  }

  lemma QSimulates(c: Config, s: State, g: Book, d: Dev, q: nat)
    requires Here(c, s, g, d, q) && BindInv(c, s) && QEnabled(c, s, q)
    requires !s.queues[q].pc.QBind?
    ensures Simulates(c, s, g, d, QStep(q))
  {
    var u := s.queues[q];
    if u.pc.QReap? && u.head < |u.cq| {
      ReapSimulates(c, s, g, d, q);
    } else if u.pc.QDiscard? && u.pc.page < |u.slots| {
      DiscardSimulates(c, s, g, d, q);
    } else {
      IdleNext(c, s, g, q);
      IdleSimulates(c, s, g, d, q, QNext(c, s, q));
    }
  }

  // The new worker takes over a pending request.
  lemma SpawnSimulates(c: Config, s: State, g: Book, d: Dev, q: nat)
    requires Here(c, s, g, d, q) && QEnabled(c, s, q) && s.queues[q].pc.QBind?
    requires |g.msg| == |s.msgs| == |g.token| && g.msg[s.queues[q].pc.m] == WithThread(q)
    ensures Simulates(c, s, g, d, QStep(q))
  {
    var u, own := s.queues[q], g.slot[q];
    var t, x := u.pc.tag, u.pc.m;
    assert SlotInv(t, u.slots[t].flags, own[t], u.kern, Busy(u.pc));
    assert RestRel(own[t], u.slots[t], d.slots[q][t]);
    SpawnRow(c, s, g, d, q);
    SpawnWorkers(c, s, g, d, q);
  }

  lemma SpawnRow(c: Config, s: State, g: Book, d: Dev, q: nat)
    requires Here(c, s, g, d, q) && QEnabled(c, s, q) && s.queues[q].pc.QBind?
    ensures var u := s.queues[q]; var own' := g.slot[q][u.pc.tag := Work(|s.workers|)];
            QueueRel(u.slots, own', u.sq, u.cq, u.head, d.slots[q])
  {
  }

  lemma SpawnWorkers(c: Config, s: State, g: Book, d: Dev, q: nat)
    requires Here(c, s, g, d, q) && QEnabled(c, s, q) && s.queues[q].pc.QBind?
    requires |g.msg| == |s.msgs| == |g.token| && g.msg[s.queues[q].pc.m] == WithThread(q)
    requires d.slots[q][s.queues[q].pc.tag] == Pending(ReqOf(s.queues[q].slots[s.queues[q].pc.tag]))
    ensures var s' := QNext(c, s, q);
            forall w | 0 <= w < |s'.workers| :: WorkerRel(s', g.token, d.slots, s'.workers[w])
  {
    var s' := QNext(c, s, q);
    forall w | 0 <= w < |s'.workers| ensures WorkerRel(s', g.token, d.slots, s'.workers[w]) {
      if w < |s.workers| {
        assert WorkerInv(s.queues, g.slot, g.msg, w, s.workers[w]);
        assert WorkerRel(s, g.token, d.slots, s.workers[w]);
      }
    }
  }

  // ---------------------------------------------------------------- the kernel

  lemma TakeRow(u: Queue, own: seq<SlotOwner>, sts: seq<Status>)
    requires RowRel(u, own, sts) && SqInv(u.sq, own) && CqInv(u.cq, u.head, InReap(u.pc), own) && u.sq != []
    ensures var t := u.sq[0].tag;
            QueueRel(u.slots, own[t := Driver], u.sq[1..], u.cq, u.head, sts[t := Armed])
  {
    assert own[u.sq[0].tag] == Queued;
  }

  lemma TakeSimulates(c: Config, s: State, g: Book, d: Dev, q: nat)
    requires Here(c, s, g, d, q) && Enabled(c, s, KTake(q))
    ensures Simulates(c, s, g, d, KTake(q))
  {
    var u, own, sts := s.queues[q], g.slot[q], d.slots[q];
    var t := u.sq[0].tag;
    assert RowRel(u, own, sts);
    assert own[t] == Queued && CmdRel(u.sq[0], u.slots[t], sts[t]);
    TakeRow(u, own, sts);
    var s', g' := Next(c, s, KTake(q)), Advance(c, s, g, KTake(q));
    LiftRel(c, s, s', g, g', d, q, s'.queues[q], own[t := Driver], sts[t := Armed]);
  }

  lemma FailRow(u: Queue, own: seq<SlotOwner>, sts: seq<Status>, t: nat, res: int)
    requires RowRel(u, own, sts) && SqInv(u.sq, own) && CqInv(u.cq, u.head, InReap(u.pc), own)
    requires t < |own| && own[t] == Driver && res != RES_OK
    ensures QueueRel(u.slots, own[t := Completed], u.sq, u.cq + [Cqe(t, res)], u.head, sts[t := Failed])
  {
  }

  lemma FailSimulates(c: Config, s: State, g: Book, d: Dev, q: nat, t: nat, res: int)
    requires Here(c, s, g, d, q) && Enabled(c, s, KFail(q, t, res))
    ensures Simulates(c, s, g, d, KFail(q, t, res))
  {
    var u, own, sts := s.queues[q], g.slot[q], d.slots[q];
    assert SlotInv(t, u.slots[t].flags, own[t], u.kern, Busy(u.pc));
    assert RestRel(own[t], u.slots[t], sts[t]);
    assert RowRel(u, own, sts);
    FailRow(u, own, sts, t, res);
    var s', g' := Next(c, s, KFail(q, t, res)), Advance(c, s, g, KFail(q, t, res));
    LiftRel(c, s, s', g, g', d, q, s'.queues[q], own[t := Completed], sts[t := Failed]);
  }

  lemma PostedReq(c: Config, sl: Slot, d: Desc, payload: seq<bv8>)
    requires ValidConfig(c) && |sl.buf| == c.bufBytes && DescOk(c, d) && |payload| == (if KindOf(d) == Write then Len(d) else 0)
    ensures ReqOf(sl.(iod := d, buf := Blit(sl.buf, payload, |payload|))) == Req(KindOf(d), Off(d), Len(d), payload)
  {
    DescBounds(c, d);
  }

  lemma PostRow(u: Queue, own: seq<SlotOwner>, sts: seq<Status>, t: nat, sl: Slot)
    requires RowRel(u, own, sts) && SqInv(u.sq, own) && CqInv(u.cq, u.head, InReap(u.pc), own)
    requires t < |own| && own[t] == Driver
    ensures QueueRel(u.slots[t := sl], own[t := Completed], u.sq, u.cq + [Cqe(t, RES_OK)], u.head, sts[t := Pending(ReqOf(sl))])
  {
  }

  lemma PostSimulates(c: Config, s: State, g: Book, d: Dev, q: nat, t: nat, e: Desc, payload: seq<bv8>)
    requires ValidConfig(c) && Here(c, s, g, d, q) && BindInv(c, s) && Enabled(c, s, KPost(q, t, e, payload))
    ensures Simulates(c, s, g, d, KPost(q, t, e, payload))
  {
    var u, own, sts := s.queues[q], g.slot[q], d.slots[q];
    assert SlotInv(t, u.slots[t].flags, own[t], u.kern, Busy(u.pc));
    assert RestRel(own[t], u.slots[t], sts[t]);
    var l := KPost(q, t, e, payload);
    var s', g' := Next(c, s, l), Advance(c, s, g, l);
    PostedReq(c, u.slots[t], e, payload);
    PostRow(u, own, sts, t, s'.queues[q].slots[t]);
    LiftRel(c, s, s', g, g', d, q, s'.queues[q], own[t := Completed], sts[t := Pending(Req(KindOf(e), Off(e), Len(e), payload))]);
  }

  lemma WakeSimulates(c: Config, s: State, g: Book, d: Dev, l: Label)
    requires Enabled(c, s, l) && (l.KReturn? || l.KSpurious?) && Here(c, s, g, d, l.q)
    ensures Simulates(c, s, g, d, l)
  {
    IdleSimulates(c, s, g, d, l.q, Next(c, s, l));
  }
}
