/** Simulation by the steps of workers, dispatcher and handlers; the whole pipeline. */
module RefineWork {
  import opened Machine
  import opened Ledger
  import opened Preserve
  import opened PreserveThread
  import opened Binding
  import opened Device
  import opened Refine
  import opened RefineThread

  // ---------------------------------------------------------------- frames

  // A worker moves, with its slot and its message; every other worker's view is unchanged.
  lemma LiftRelWorker(c: Config, s: State, s': State, g: Book, g': Book, d: Dev, w: nat, u: Queue, own: seq<SlotOwner>)
    requires WorkersInv(c, s, g) && Rel(c, s, g, d) && w < |s.workers| == |s'.workers| && s.workers[w].q < |s.queues|
    requires var k := s.workers[w];
             && s'.queues == s.queues[k.q := u] && s'.workers == s.workers[w := s'.workers[w]]
             && s'.workers[w].q == k.q && s'.workers[w].tag == k.tag && s'.workers[w].m == k.m
             && |u.slots| == |s.queues[k.q].slots|
             && (forall t | 0 <= t < |u.slots| && t != k.tag :: u.slots[t] == s.queues[k.q].slots[t])
             && (HoldsSlot(k.pc) || u.slots == s.queues[k.q].slots)
             && |s'.msgs| == |s.msgs| && (forall m | 0 <= m < |s.msgs| && m != k.m :: s'.msgs[m] == s.msgs[m])
             && |g'.token| == |g.token| && (forall m | 0 <= m < |g.token| && m != k.m :: g'.token[m] == g.token[m])
             && (k.pc != WDone || (s'.msgs == s.msgs && g'.token == g.token))
             && g'.slot == g.slot[k.q := own] && QueueRel(u.slots, own, u.sq, u.cq, u.head, d.slots[k.q])
    requires s'.handlers == s.handlers && s'.disk == s.disk
    requires WorkerRel(s', g'.token, d.slots, s'.workers[w])
    ensures Rel(c, s', g', d)
  {
    forall v | 0 <= v < |s'.workers| ensures WorkerRel(s', g'.token, d.slots, s'.workers[v]) {
      assert WorkerInv(s.queues, g.slot, g.msg, v, s.workers[v]);
      assert WorkerInv(s.queues, g.slot, g.msg, w, s.workers[w]);
      assert WorkerRel(s, g.token, d.slots, s.workers[v]);
    }
  }

  // ---------------------------------------------------------------- worker steps

  ghost predicate AtWork(c: Config, s: State, g: Book, d: Dev, w: nat) {
    && WorkersInv(c, s, g) && Rel(c, s, g, d) && BindInv(c, s) && WEnabled(c, s, w)
    && |g.msg| == |g.token| == |s.msgs| && |g.slot| == |s.queues|
    && var k := s.workers[w];
       && s.msgs[k.m].result != -1 && |s.msgs[k.m].rbuf| == c.readCap
       && SqInv(s.queues[k.q].sq, g.slot[k.q])
       && CqInv(s.queues[k.q].cq, s.queues[k.q].head, InReap(s.queues[k.q].pc), g.slot[k.q])
  }

  // A worker-owned slot may change without its row noticing.
  lemma WorkRow(u: Queue, own: seq<SlotOwner>, sts: seq<Status>, t: nat, sl: Slot)
    requires RowRel(u, own, sts) && SqInv(u.sq, own) && CqInv(u.cq, u.head, InReap(u.pc), own)
    requires t < |own| && own[t].Work?
    ensures QueueRel(u.slots[t := sl], own, u.sq, u.cq, u.head, sts)
  {
  }

  // Reads are copied back exactly: len bytes of the message become the first len bytes of the slot.
  lemma CopyBackShows(c: Config, sl: Slot, m: Msg, resp: Resp)
    requires ValidConfig(c) && DescOk(c, sl.iod) && |sl.buf| == c.bufBytes && |m.rbuf| == c.readCap && m.rlen <= c.readCap
    requires KindOf(sl.iod) == Read && InMsg(m, Read, Len(sl.iod), resp)
    ensures Copied(sl.(buf := Blit(sl.buf, m.rbuf[..m.rlen], Len(sl.iod)))) == resp.data
  {
    DescBounds(c, sl.iod);
  }

  lemma WCopySimulates(c: Config, s: State, g: Book, d: Dev, w: nat)
    requires ValidConfig(c) && AtWork(c, s, g, d, w) && s.workers[w].pc.WCopy?
    ensures Rel(c, WNext(c, s, w), g, d)
  {
    var k := s.workers[w];
    var u, own, sts := s.queues[k.q], g.slot[k.q], d.slots[k.q];
    var s' := WNext(c, s, w);
    assert WorkerInv(s.queues, g.slot, g.msg, w, k);
    assert WorkerRel(s, g.token, d.slots, k);
    assert WorkerBound(c, s.queues, s.msgs, k);
    assert RowRel(u, own, sts);
    if k.kind == Read { CopyBackShows(c, u.slots[k.tag], s.msgs[k.m], sts[k.tag].resp); }
    WorkRow(u, own, sts, k.tag, s'.queues[k.q].slots[k.tag]);
    assert g.slot[k.q := own] == g.slot;
    LiftRelWorker(c, s, s', g, g, d, w, s'.queues[k.q], own);
  }

  lemma WMarkSimulates(c: Config, s: State, g: Book, d: Dev, w: nat)
    requires AtWork(c, s, g, d, w) && s.workers[w].pc.WMark?
    ensures Rel(c, WNext(c, s, w), g, d)
  {
    var k := s.workers[w];
    var u, own, sts := s.queues[k.q], g.slot[k.q], d.slots[k.q];
    var s' := WNext(c, s, w);
    assert WorkerInv(s.queues, g.slot, g.msg, w, k);
    assert WorkerRel(s, g.token, d.slots, k);
    assert RowRel(u, own, sts);
    WorkRow(u, own, sts, k.tag, s'.queues[k.q].slots[k.tag]);
    assert g.slot[k.q := own] == g.slot;
    LiftRelWorker(c, s, s', g, g, d, w, s'.queues[k.q], own);
  }

  // The prepared command carries the answer.
  lemma PrepRow(u: Queue, own: seq<SlotOwner>, sts: seq<Status>, t: nat)
    requires RowRel(u, own, sts) && SqInv(u.sq, own) && CqInv(u.cq, u.head, InReap(u.pc), own)
    requires t < |own| && own[t].Work? && sts[t].Done? && sts[t].resp == Resp(u.slots[t].result, Copied(u.slots[t]))
    ensures QueueRel(u.slots[t := u.slots[t].(flags := NO_FLAGS)], own[t := Queued],
                     u.sq + [Commit(t, u.slots[t].result)], u.cq, u.head, sts)
  {
  }

  lemma WPrepSimulates(c: Config, s: State, g: Book, d: Dev, w: nat)
    requires AtWork(c, s, g, d, w) && s.workers[w].pc.WPrep? && Ready(c, s, w) && c.depth <= c.entries
    ensures Rel(c, WNext(c, s, w), Advance(c, s, g, WStep(w)), d)
  {
    var k := s.workers[w];
    var u, own, sts := s.queues[k.q], g.slot[k.q], d.slots[k.q];
    var s' := WNext(c, s, w);
    assert WorkerInv(s.queues, g.slot, g.msg, w, k);
    assert WorkerRel(s, g.token, d.slots, k);
    assert RowRel(u, own, sts);
    PrepRow(u, own, sts, k.tag);
    LiftRelWorker(c, s, s', g, Advance(c, s, g, WStep(w)), d, w, s'.queues[k.q], own[k.tag := Queued]);
  }

  // The remaining worker steps leave slots and commands alone.
  predicate Elsewhere(p: WPc) { !p.WCopy? && !p.WMark? && !p.WPrep? }

  lemma WQuietQueue(c: Config, s: State, g: Book, w: nat)
    requires WEnabled(c, s, w) && s.msgs[s.workers[w].m].result != -1 && Elsewhere(s.workers[w].pc)
    ensures var s' := WNext(c, s, w); var k := s.workers[w]; var u, u' := s.queues[k.q], s'.queues[k.q];
            u'.slots == u.slots && u'.sq == u.sq && u'.cq == u.cq && u'.head == u.head
  {
    if s.workers[w].pc == WWait || s.workers[w].pc == WSend || s.workers[w].pc == WReturn {
      assert WNext(c, s, w).queues == s.queues;
    } else {
      QuietHeld(c, s, w);
    }
  }

  // The steps under the lock.
  lemma QuietHeld(c: Config, s: State, w: nat)
    requires WEnabled(c, s, w) && Elsewhere(s.workers[w].pc)
    requires s.workers[w].pc != WWait && s.workers[w].pc != WSend && s.workers[w].pc != WReturn
    ensures var s' := WNext(c, s, w); var k := s.workers[w];
            |s'.queues| == |s.queues| && s'.queues[k.q] == s.queues[k.q].(pc := s'.queues[k.q].pc, inflight := s'.queues[k.q].inflight,
                                                                          lock := s'.queues[k.q].lock, mutex := s'.queues[k.q].mutex)
  {
  }

  lemma WQuietMsgs(c: Config, s: State, w: nat)
    requires WEnabled(c, s, w) && s.msgs[s.workers[w].m].result != -1 && Elsewhere(s.workers[w].pc)
    ensures var s' := WNext(c, s, w); var k := s.workers[w];
            && s'.handlers == s.handlers && s'.disk == s.disk
            && (s'.msgs == s.msgs || (k.pc == WWait && s'.msgs == s.msgs[k.m := s'.msgs[k.m]]
                && s'.msgs[k.m] == s.msgs[k.m].(complete := s'.msgs[k.m].complete)))
  {
  }

  lemma WQuietPc(c: Config, s: State, w: nat)
    requires WEnabled(c, s, w) && s.msgs[s.workers[w].m].result != -1 && Elsewhere(s.workers[w].pc) && !s.workers[w].eio
    ensures var s' := WNext(c, s, w); var k := s.workers[w];
            && s'.workers[w] == k.(pc := s'.workers[w].pc)
            && (k.pc == WSend ==> s'.workers[w].pc == WWait) && (k.pc == WWait ==> s'.workers[w].pc == WCopy)
            && (k.pc == WLock ==> s'.workers[w].pc == WPrep)
            && (k.pc != WSend && k.pc != WWait && k.pc != WLock ==> !HoldsSlot(s'.workers[w].pc))
  {
  }

  lemma WQuietToken(c: Config, s: State, g: Book, w: nat)
    requires WEnabled(c, s, w) && s.workers[w].m < |g.token|
    ensures var g' := Advance(c, s, g, WStep(w)); var k := s.workers[w];
            g'.token == g.token || (k.pc == WSend && g'.token == g.token[k.m := InReq])
            || (k.pc == WWait && g'.token == g.token[k.m := NoToken])
    ensures Elsewhere(s.workers[w].pc) ==> Advance(c, s, g, WStep(w)).slot == g.slot
  {
  }

  lemma WQuietSimulates(c: Config, s: State, g: Book, d: Dev, w: nat)
    requires AtWork(c, s, g, d, w) && !s.workers[w].eio
    requires Elsewhere(s.workers[w].pc)
    requires s.workers[w].pc.WWait? ==> g.token[s.workers[w].m] == Signalled
    ensures Rel(c, WNext(c, s, w), Advance(c, s, g, WStep(w)), d)
  {
    var k := s.workers[w];
    var u, own, sts := s.queues[k.q], g.slot[k.q], d.slots[k.q];
    var s' := WNext(c, s, w);
    WFrame(c, s, g, w);
    WQuietQueue(c, s, g, w);
    WQuietMsgs(c, s, w);
    WQuietPc(c, s, w);
    WQuietToken(c, s, g, w);
    assert WorkerRel(s, g.token, d.slots, k);
    assert RowRel(u, own, sts);
    assert g.slot[k.q := own] == g.slot;
    LiftRelWorker(c, s, s', g, Advance(c, s, g, WStep(w)), d, w, s'.queues[k.q], own);
  }

  lemma WSimulates(c: Config, s: State, g: Book, d: Dev, w: nat)
    requires ValidConfig(c) && AtWork(c, s, g, d, w) && !s.workers[w].eio
    requires s.workers[w].pc.WWait? ==> g.token[s.workers[w].m] == Signalled
    requires s.workers[w].pc.WPrep? ==> Ready(c, s, w)
    ensures Simulates(c, s, g, d, WStep(w))
  {
    var p := s.workers[w].pc;
    if p.WCopy? {
      WCopySimulates(c, s, g, d, w);
    } else if p.WMark? {
      WMarkSimulates(c, s, g, d, w);
    } else if p.WPrep? {
      WPrepSimulates(c, s, g, d, w);
    } else {
      WQuietSimulates(c, s, g, d, w);
    }
  }

  // ---------------------------------------------------------------- dispatcher and handlers

  // The token of message x is with worker w, which waits for it.
  ghost predicate AtToken(c: Config, s: State, g: Book, d: Dev, x: nat, w: nat) {
    && WorkersInv(c, s, g) && Rel(c, s, g, d) && BindInv(c, s)
    && |g.msg| == |g.token| == |s.msgs| == c.pool && |g.slot| == |s.queues| && x < c.pool
    && w < |s.workers| && g.msg[x] == WithWorker(w) && s.workers[w].m == x && s.workers[w].pc == WWait
    && g.slot[s.workers[w].q][s.workers[w].tag] == Work(w)
    && (forall m | 0 <= m < c.pool :: TokenInv(m, g.token[m], s.req, s.disp, s.handlers))
  }

  lemma TokenHolder(c: Config, s: State, g: Book, d: Dev, x: nat) returns (w: nat)
    requires Inv(c, s, g) && BindInv(c, s) && Rel(c, s, g, d) && x < c.pool && g.token[x] != NoToken
    ensures AtToken(c, s, g, d, x, w)
  {
    assert MsgOwned(x, g.msg[x], g.token[x], s.free, s.queues, s.workers);
    w := g.msg[x].w;
    assert WorkerInv(s.queues, g.slot, g.msg, w, s.workers[w]);
  }

  // Handlers change so that only message x's token can notice.
  predicate OnlyToken(hs: seq<Handler>, hs': seq<Handler>, x: nat) {
    |hs| <= |hs'| && forall h | 0 <= h < |hs| :: hs'[h] == hs[h] || (hs[h].m == x && hs'[h].m == x)
  }

  lemma RowPut(u: Queue, own: seq<SlotOwner>, sts: seq<Status>, t: nat, st: Status)
    requires RowRel(u, own, sts) && SqInv(u.sq, own) && CqInv(u.cq, u.head, InReap(u.pc), own)
    requires t < |own| && own[t].Work?
    ensures RowRel(u, own, sts[t := st])
  {
  }

  lemma LiftToken(c: Config, s: State, s': State, g: Book, g': Book, d: Dev, d': Dev, x: nat, w: nat, st: Status)
    requires AtToken(c, s, g, d, x, w)
    requires s'.queues == s.queues && s'.workers == s.workers && OnlyToken(s.handlers, s'.handlers, x)
    requires |s'.msgs| == |s.msgs| && forall m | 0 <= m < |s.msgs| && m != x :: s'.msgs[m] == s.msgs[m]
    requires g'.slot == g.slot && |g'.token| == |g.token| && forall m | 0 <= m < |g.token| && m != x :: g'.token[m] == g.token[m]
    requires var k := s.workers[w];
             d'.slots == d.slots[k.q := d.slots[k.q][k.tag := st]] && d'.disk == s'.disk && |s'.disk| == |s.disk|
    requires var k := s.workers[w]; QueueRel(s.queues[k.q].slots, g.slot[k.q], s.queues[k.q].sq, s.queues[k.q].cq,
                                             s.queues[k.q].head, d.slots[k.q][k.tag := st])
    requires var k := s.workers[w]; WorkRel(k, s.queues[k.q].slots[k.tag], s'.msgs[x], Applied(g'.token[x], s'.handlers), st)
    ensures Rel(c, s', g', d')
  {
    forall v | 0 <= v < |s.workers| ensures WorkerRel(s', g'.token, d'.slots, s.workers[v]) {
      assert WorkerInv(s.queues, g.slot, g.msg, v, s.workers[v]);
      assert WorkerRel(s, g.token, d.slots, s.workers[v]);
      assert TokenInv(s.workers[v].m, g.token[s.workers[v].m], s.req, s.disp, s.handlers);
    }
  }

  // Only message x, its token and its handler moved.
  ghost predicate OnlyAt(s: State, s': State, g: Book, g': Book, x: nat) {
    && s'.queues == s.queues && s'.workers == s.workers && OnlyToken(s.handlers, s'.handlers, x)
    && x < |s.msgs| == |s'.msgs| && x < |g.token| == |g'.token| && g'.slot == g.slot
    && (forall m | 0 <= m < |s.msgs| && m != x :: s'.msgs[m] == s.msgs[m])
    && (forall m | 0 <= m < |g.token| && m != x :: g'.token[m] == g.token[m])
  }

  // A token on its way to the handler, or back to the worker.
  lemma PassToken(c: Config, s: State, s': State, g: Book, g': Book, d: Dev, x: nat, w: nat)
    requires AtToken(c, s, g, d, x, w) && OnlyAt(s, s', g, g', x) && s'.disk == s.disk
    requires s'.msgs[x] == s.msgs[x].(complete := s'.msgs[x].complete)
    requires Applied(g'.token[x], s'.handlers) == Applied(g.token[x], s.handlers)
    ensures Rel(c, s', g', d)
  {
    var k := s.workers[w];
    assert WorkerRel(s, g.token, d.slots, k);
    var st := d.slots[k.q][k.tag];
    assert d.slots[k.q][k.tag := st] == d.slots[k.q] && d.slots[k.q := d.slots[k.q]] == d.slots;
    LiftToken(c, s, s', g, g', d, d, x, w, st);
  }

  // Message x now holds the answer to the request of worker k's slot.
  ghost predicate AnswersNow(s: State, s': State, d: Dev, k: Worker, x: nat, fill: seq<bv8>) {
    && k.q < |s.queues| && k.tag < |s.queues[k.q].slots| && x < |s'.msgs|
    && var sl := s.queues[k.q].slots[k.tag];
       var r := ReqOf(sl);
       && Applicable(d.disk, r, fill) && s'.disk == Effect(d.disk, r, fill)
       && ResultOf(r) == Reply(sl.iod) && InMsg(s'.msgs[x], k.kind, k.len, Answer(d.disk, r, fill))
  }

  // The moment of effect: the pending request becomes a done one with the answer of this moment.
  lemma ApplyToken(c: Config, s: State, s': State, g: Book, g': Book, d: Dev, x: nat, w: nat, fill: seq<bv8>)
    requires AtToken(c, s, g, d, x, w) && AnswersNow(s, s', d, s.workers[w], x, fill) && QueuesInv(c, s, g)
    requires OnlyAt(s, s', g, g', x) && Applied(g'.token[x], s'.handlers) && !Applied(g.token[x], s.handlers)
    ensures var k := s.workers[w];
            && DevEnabled(d, Apply(k.q, k.tag, fill)) && Rel(c, s', g', DevNext(d, Apply(k.q, k.tag, fill)))
  {
    var k := s.workers[w];
    assert WorkerRel(s, g.token, d.slots, k);
    var sl := s.queues[k.q].slots[k.tag];
    var st := Done(ReqOf(sl), Answer(d.disk, ReqOf(sl), fill));
    assert d.slots[k.q][k.tag] == Pending(ReqOf(sl));
    assert QueueInv(c, s.queues[k.q], g.slot[k.q], k.q, s.workers);
    assert RowRel(s.queues[k.q], g.slot[k.q], d.slots[k.q]);
    RowPut(s.queues[k.q], g.slot[k.q], d.slots[k.q], k.tag, st);
    LiftToken(c, s, s', g, g', d, DevNext(d, Apply(k.q, k.tag, fill)), x, w, st);
  }

  lemma SplicedIsWriteAt(disk: seq<bv8>, off: int, data: seq<bv8>)
    requires 0 <= off && off + |data| <= |disk|
    ensures Spliced(disk, off, data) == WriteAt(disk, off, data)
  {
  }

  // A successful call has the effect, and leaves in the message the answer, of the slot's request.
  lemma CallAnswers(c: Config, s: State, g: Book, d: Dev, h: nat, fill: seq<bv8>, w: nat)
    requires HEnabled(c, s, h, false, fill) && s.handlers[h].pc.HCall?
    requires ValidConfig(c) && AtToken(c, s, g, d, s.handlers[h].m, w)
    requires |s.msgs[s.handlers[h].m].rbuf| == c.readCap
    requires var k := s.workers[w]; k.q < |s.queues| && SlotsBound(c, s.queues[k.q].slots, s.queues[k.q].cq, s.queues[k.q].head, Busy(s.queues[k.q].pc))
    ensures AnswersNow(s, HNext(c, s, h, false, fill), d, s.workers[w], s.handlers[h].m, fill)
  {
    var k := s.workers[w];
    assert WorkerBound(c, s.queues, s.msgs, k);
    assert WorkerRel(s, g.token, d.slots, k);
    var sl := s.queues[k.q].slots[k.tag];
    DescBounds(c, sl.iod);
    var m := s.msgs[s.handlers[h].m];
    if m.ty == TYPE_WRITE {
      SplicedIsWriteAt(s.disk, m.off, ReqOf(sl).data);
    } else if m.ty == TYPE_UNMAP {
      SplicedIsWriteAt(s.disk, m.off, fill);
    }
  }

  lemma HMoves(c: Config, s: State, g: Book, h: nat, fill: seq<bv8>)
    requires HEnabled(c, s, h, false, fill) && |g.token| == |s.msgs| && g.token[s.handlers[h].m] == AtHandler(h)
    ensures var x := s.handlers[h].m; var s', g' := HNext(c, s, h, false, fill), Advance(c, s, g, HStep(h, false, fill));
            && OnlyAt(s, s', g, g', x) && Applied(g'.token[x], s'.handlers)
            && (Applied(g.token[x], s.handlers) <==> s.handlers[h].pc == HSignal)
            && (s.handlers[h].pc == HSignal ==> s'.disk == s.disk && s'.msgs[x] == s.msgs[x].(complete := s'.msgs[x].complete))
  {
  }

  // The call itself.
  lemma CallTakesEffect(c: Config, s: State, g: Book, d: Dev, h: nat, fill: seq<bv8>, w: nat)
    requires ValidConfig(c) && QueuesInv(c, s, g) && HEnabled(c, s, h, false, fill) && s.handlers[h].pc.HCall?
    requires AtToken(c, s, g, d, s.handlers[h].m, w) && g.token[s.handlers[h].m] == AtHandler(h)
    requires |s.msgs[s.handlers[h].m].rbuf| == c.readCap
    ensures var k := s.workers[w]; var m := Apply(k.q, k.tag, fill);
            && DevEnabled(d, m)
            && Rel(c, HNext(c, s, h, false, fill), Advance(c, s, g, HStep(h, false, fill)), DevNext(d, m))
  {
    var x := s.handlers[h].m;
    var s', g' := HNext(c, s, h, false, fill), Advance(c, s, g, HStep(h, false, fill));
    HMoves(c, s, g, h, fill);
    CallAnswers(c, s, g, d, h, fill, w);
    ApplyToken(c, s, s', g, g', d, x, w, fill);
  }

  lemma HMove(c: Config, s: State, g: Book, h: nat, fill: seq<bv8>, w: nat)
    requires HEnabled(c, s, h, false, fill)
    requires s.handlers[h].m < |g.msg| && g.msg[s.handlers[h].m] == WithWorker(w) && w < |s.workers|
    ensures var k := s.workers[w];
            MoveOf(c, s, g, HStep(h, false, fill)) == if s.handlers[h].pc.HCall? then Some(Apply(k.q, k.tag, fill)) else None
  {
  }

  lemma SignalPasses(c: Config, s: State, g: Book, d: Dev, h: nat, fill: seq<bv8>, w: nat)
    requires HEnabled(c, s, h, false, fill) && s.handlers[h].pc.HSignal?
    requires AtToken(c, s, g, d, s.handlers[h].m, w) && g.token[s.handlers[h].m] == AtHandler(h)
    ensures Rel(c, HNext(c, s, h, false, fill), Advance(c, s, g, HStep(h, false, fill)), d)
  {
    HMoves(c, s, g, h, fill);
    PassToken(c, s, HNext(c, s, h, false, fill), g, Advance(c, s, g, HStep(h, false, fill)), d, s.handlers[h].m, w);
  }

  lemma HSimulates(c: Config, s: State, g: Book, d: Dev, h: nat, fill: seq<bv8>, w: nat)
    requires ValidConfig(c) && QueuesInv(c, s, g) && HEnabled(c, s, h, false, fill)
    requires AtToken(c, s, g, d, s.handlers[h].m, w) && g.token[s.handlers[h].m] == AtHandler(h)
    requires |s.msgs[s.handlers[h].m].rbuf| == c.readCap
    ensures Simulates(c, s, g, d, HStep(h, false, fill))
  {
    HMove(c, s, g, h, fill, w);
    if s.handlers[h].pc.HCall? {
      CallTakesEffect(c, s, g, d, h, fill, w);
    } else {
      SignalPasses(c, s, g, d, h, fill, w);
    }
  }

  // An unsupported type is answered by the dispatcher, without touching the array.
  lemma UnknownAnswers(c: Config, s: State, g: Book, d: Dev, x: nat, w: nat)
    requires ValidConfig(c) && AtToken(c, s, g, d, x, w) && DEnabled(c, s) && s.disp == Some(x) && !KnownType(s.msgs[x].ty)
    ensures AnswersNow(s, DNext(c, s), d, s.workers[w], x, [])
  {
    var k := s.workers[w];
    assert WorkerBound(c, s.queues, s.msgs, k);
    assert WorkerRel(s, g.token, d.slots, k);
  }

  // The message the dispatcher's step is about.
  function Dispatched(s: State): nat
    requires s.disp.Some? || s.req != []
  {
    if s.disp.None? then s.req[0] else s.disp.value
  }

  lemma DMoves(c: Config, s: State, g: Book)
    requires DEnabled(c, s) && |g.token| == |s.msgs| && Dispatched(s) < |g.token|
    requires g.token[Dispatched(s)] == if s.disp.None? then InReq else AtDispatcher
    ensures var x := Dispatched(s); var s', g' := DNext(c, s), Advance(c, s, g, DStep);
            && OnlyAt(s, s', g, g', x) && s'.disk == s.disk && s'.msgs[x] == s.msgs[x].(complete := s'.msgs[x].complete)
            && !Applied(g.token[x], s.handlers)
            && (Applied(g'.token[x], s'.handlers) <==> s.disp.Some? && !KnownType(s.msgs[x].ty))
  {
  }

  lemma UnknownTakesEffect(c: Config, s: State, g: Book, d: Dev, w: nat)
    requires ValidConfig(c) && QueuesInv(c, s, g) && DEnabled(c, s) && AtToken(c, s, g, d, Dispatched(s), w)
    requires s.disp.Some? && !KnownType(s.msgs[Dispatched(s)].ty) && g.token[Dispatched(s)] == AtDispatcher
    ensures var k := s.workers[w]; var m := Apply(k.q, k.tag, []);
            DevEnabled(d, m) && Rel(c, DNext(c, s), Advance(c, s, g, DStep), DevNext(d, m))
  {
    var x := Dispatched(s);
    DMoves(c, s, g);
    UnknownAnswers(c, s, g, d, x, w);
    ApplyToken(c, s, DNext(c, s), g, Advance(c, s, g, DStep), d, x, w, []);
  }

  lemma DPasses(c: Config, s: State, g: Book, d: Dev, w: nat)
    requires DEnabled(c, s) && AtToken(c, s, g, d, Dispatched(s), w) && (s.disp.None? || KnownType(s.msgs[Dispatched(s)].ty))
    requires g.token[Dispatched(s)] == if s.disp.None? then InReq else AtDispatcher
    ensures Rel(c, DNext(c, s), Advance(c, s, g, DStep), d)
  {
    DMoves(c, s, g);
    PassToken(c, s, DNext(c, s), g, Advance(c, s, g, DStep), d, Dispatched(s), w);
  }

  lemma DMove(c: Config, s: State, g: Book, w: nat)
    requires DEnabled(c, s) && Dispatched(s) < |g.msg| && g.msg[Dispatched(s)] == WithWorker(w) && w < |s.workers|
    ensures var k := s.workers[w];
            MoveOf(c, s, g, DStep) ==
              if s.disp.Some? && !KnownType(s.msgs[Dispatched(s)].ty) then Some(Apply(k.q, k.tag, [])) else None
  {
  }

  lemma DSimulates(c: Config, s: State, g: Book, d: Dev, w: nat)
    requires ValidConfig(c) && QueuesInv(c, s, g) && DEnabled(c, s) && AtToken(c, s, g, d, Dispatched(s), w)
    requires g.token[Dispatched(s)] == if s.disp.None? then InReq else AtDispatcher
    ensures Simulates(c, s, g, d, DStep)
  {
    DMove(c, s, g, w);
    if s.disp.Some? && !KnownType(s.msgs[Dispatched(s)].ty) {
      UnknownTakesEffect(c, s, g, d, w);
    } else {
      DPasses(c, s, g, d, w);
    }
  }

  // ---------------------------------------------------------------- every step

  lemma AtWorkFromInv(c: Config, s: State, g: Book, d: Dev, w: nat)
    requires Inv(c, s, g) && BindInv(c, s) && Rel(c, s, g, d) && WEnabled(c, s, w)
    ensures AtWork(c, s, g, d, w) && !s.workers[w].eio
    ensures s.workers[w].pc.WWait? ==> g.token[s.workers[w].m] == Signalled
    ensures s.workers[w].pc.WPrep? ==> Ready(c, s, w)
  {
    MineFromInv(c, s, g, w);
    var m := s.workers[w].m;
    assert MsgData(c.readCap, s.msgs[m], g.token[m]);
  }

  lemma StepSimulates(c: Config, s: State, g: Book, d: Dev, l: Label)
    requires ValidConfig(c) && Inv(c, s, g) && BindInv(c, s) && Rel(c, s, g, d)
    requires Enabled(c, s, l) && NoError(l)
    ensures Simulates(c, s, g, d, l)
  {
    match l {
      case WStep(w) =>
        AtWorkFromInv(c, s, g, d, w);
        WSimulates(c, s, g, d, w);
      case DStep =>
        assert g.token[Dispatched(s)] == if s.disp.None? then InReq else AtDispatcher;
        var w := TokenHolder(c, s, g, d, Dispatched(s));
        DSimulates(c, s, g, d, w);
      case HStep(h, err, fill) =>
        var x := s.handlers[h].m;
        assert g.token[x] == AtHandler(h) && MsgData(c.readCap, s.msgs[x], g.token[x]);
        var w := TokenHolder(c, s, g, d, x);
        HSimulates(c, s, g, d, h, fill, w);
      case _ => QueueStepSimulates(c, s, g, d, l);
    }
  }

  lemma QueueStepSimulates(c: Config, s: State, g: Book, d: Dev, l: Label)
    requires ValidConfig(c) && Inv(c, s, g) && BindInv(c, s) && Rel(c, s, g, d)
    requires Enabled(c, s, l) && !l.WStep? && !l.DStep? && !l.HStep?
    ensures Simulates(c, s, g, d, l)
  {
    assert QueueInv(c, s.queues[l.q], g.slot[l.q], l.q, s.workers);
    match l {
      case QStep(q) =>
        if s.queues[q].pc.QBind? {
          assert g.msg[s.queues[q].pc.m] == WithThread(q);
          SpawnSimulates(c, s, g, d, q);
        } else {
          QSimulates(c, s, g, d, q);
        }
      case KTake(q) => TakeSimulates(c, s, g, d, q);
      case KPost(q, t, e, payload) => PostSimulates(c, s, g, d, q, t, e, payload);
      case KFail(q, t, res) => FailSimulates(c, s, g, d, q, t, res);
      case _ => WakeSimulates(c, s, g, d, l);
    }
  }
}
