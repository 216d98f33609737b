/** Retirement of slots and the end of a queue thread. */
module Stopping {
  import opened Machine
  import opened Ledger
  import opened Preserve
  import opened PreserveThread
  import opened Binding
  import opened Runs
  import opened Theorems

  // ---------------------------------------------------------------- nothing is taken back

  lemma StoppingStays(c: Config, s: State, l: Label, q: nat)
    requires Enabled(c, s, l) && q < |s.queues| && s.queues[q].stopping
    ensures |Next(c, s, l).queues| == |s.queues| && Next(c, s, l).queues[q].stopping
  {
    if l.WStep? { StoppingW(c, s, l.w, q); }
  }

  lemma StoppingW(c: Config, s: State, w: nat, q: nat)
    requires WEnabled(c, s, w) && q < |s.queues|
    ensures |WNext(c, s, w).queues| == |s.queues| && WNext(c, s, w).queues[q].stopping == s.queues[q].stopping
  {
  }

  lemma RetiredQ(c: Config, s: State, g: Book, i: nat, q: nat, t: nat)
    requires QEnabled(c, s, i) && i < |g.slot| && QueueInv(c, s.queues[i], g.slot[i], i, s.workers)
    requires q < |g.slot| && t < |g.slot[q]| && g.slot[q][t] == Retired
    ensures var g' := Advance(c, s, g, QStep(i)); q < |g'.slot| && t < |g'.slot[q]| && g'.slot[q][t] == Retired
  {
    var u := s.queues[i];
    if u.pc.QBind? {
      assert SlotInv(u.pc.tag, u.slots[u.pc.tag].flags, g.slot[i][u.pc.tag], u.kern, Busy(u.pc));
    }
  }

  lemma RetiredW(c: Config, s: State, g: Book, w: nat, q: nat, t: nat)
    requires WEnabled(c, s, w) && WorkerInv(s.queues, g.slot, g.msg, w, s.workers[w])
    requires q < |g.slot| && t < |g.slot[q]| && g.slot[q][t] == Retired
    ensures var g' := Advance(c, s, g, WStep(w)); q < |g'.slot| && t < |g'.slot[q]| && g'.slot[q][t] == Retired
  {
  }

  lemma RetiredK(c: Config, s: State, g: Book, l: Label, q: nat, t: nat)
    requires Enabled(c, s, l) && (l.KTake? || l.KPost? || l.KFail? || l.KReturn? || l.KSpurious?)
    requires l.q < |g.slot| && QueueInv(c, s.queues[l.q], g.slot[l.q], l.q, s.workers)
    requires q < |g.slot| && t < |g.slot[q]| && g.slot[q][t] == Retired
    ensures var g' := Advance(c, s, g, l); q < |g'.slot| && t < |g'.slot[q]| && g'.slot[q][t] == Retired
  {
    var u, own := s.queues[l.q], g.slot[l.q];
    if l.KPost? || l.KFail? { assert SlotInv(l.t, u.slots[l.t].flags, own[l.t], u.kern, Busy(u.pc)); }
  }

  lemma RetiredStays(c: Config, s: State, g: Book, l: Label, q: nat, t: nat)
    requires Inv(c, s, g) && Enabled(c, s, l) && q < c.queues && t < |g.slot[q]| && g.slot[q][t] == Retired
    ensures var g' := Advance(c, s, g, l); q < |g'.slot| && t < |g'.slot[q]| && g'.slot[q][t] == Retired
  {
    match l {
      case QStep(i) =>
        assert QueueInv(c, s.queues[i], g.slot[i], i, s.workers);
        RetiredQ(c, s, g, i, q, t);
      case WStep(w) =>
        assert WorkerInv(s.queues, g.slot, g.msg, w, s.workers[w]);
        RetiredW(c, s, g, w, q, t);
      case DStep =>
      case HStep(h, err, fill) =>
      case _ =>
        assert QueueInv(c, s.queues[l.q], g.slot[l.q], l.q, s.workers);
        RetiredK(c, s, g, l, q, t);
    }
  }

  ghost predicate Gone(c: Config, s: State, g: Book, q: nat, t: nat) {
    Inv(c, s, g) && q < |g.slot| && t < |g.slot[q]| && g.slot[q][t] == Retired
  }

  lemma RetiredStep(c: Config, s: State, g: Book, l: Label, q: nat, t: nat)
    requires ValidConfig(c) && Gone(c, s, g, q, t) && Enabled(c, s, l) && NoError(l)
    ensures Gone(c, Next(c, s, l), Advance(c, s, g, l), q, t)
  {
    StepKeepsInv(c, s, g, l);
    RetiredStays(c, s, g, l, q, t);
  }

  predicate RetiredIn(s: State, q: nat, t: nat) {
    q < |s.queues| && t < |s.queues[q].slots| && s.queues[q].slots[t].flags == FREE_ONLY
  }

  // One step: a slot with the flag word of a retired slot keeps it.
  lemma RetiredNext(c: Config, r: Run, i: nat, q: nat, t: nat)
    requires ValidConfig(c) && IsRun(c, r) && Errorless(r) && i < |r.labels| && RetiredIn(r.states[i], q, t)
    ensures RetiredIn(r.states[i + 1], q, t)
  {
    var s, l := r.states[i], r.labels[i];
    var g := ReachableInv(c, r, i);
    assert QueueInv(c, s.queues[q], g.slot[q], q, s.workers);
    PlaceOwner(c, s, g, q, t, IsRetired);
    assert StepAt(c, r, i);
    RetiredStep(c, s, g, l, q, t);
    StillRetired(c, r.states[i + 1], Advance(c, s, g, l), q, t);
  }

  lemma StillRetired(c: Config, s: State, g: Book, q: nat, t: nat)
    requires Gone(c, s, g, q, t)
    ensures RetiredIn(s, q, t)
  {
    assert QueueInv(c, s.queues[q], g.slot[q], q, s.workers);
    assert SlotInv(t, s.queues[q].slots[t].flags, g.slot[q][t], s.queues[q].kern, Busy(s.queues[q].pc));
  }

  lemma {:induction false} RetiredLater(c: Config, r: Run, i: nat, j: nat, q: nat, t: nat)
    requires ValidConfig(c) && IsRun(c, r) && Errorless(r) && i <= j < |r.states| && RetiredIn(r.states[i], q, t)
    ensures RetiredIn(r.states[j], q, t)
    decreases j
  {
    if i < j {
      RetiredLater(c, r, i, j - 1, q, t);
      RetiredNext(c, r, j - 1, q, t);
    }
  }

  /** A slot whose flag word is IO_FREE alone keeps that word for the rest of the run, and never again
      has a command prepared, a completion posted or a worker. */
  lemma RetiredForever(c: Config, r: Run, i: nat, j: nat, q: nat, t: nat, p: SlotPlace)
    requires ValidConfig(c) && IsRun(c, r) && Errorless(r) && i <= j < |r.states| && RetiredIn(r.states[i], q, t)
    ensures RetiredIn(r.states[j], q, t)
    ensures SlotAt(r.states[j], q, t, p) ==> p == IsRetired
  {
    RetiredLater(c, r, i, j, q, t);
    var s := r.states[j];
    assert Reachable(c, s);
    var p' := OneOwner(c, s, q, t);
    assert SlotAt(s, q, t, IsRetired);
  }

  lemma {:induction false} StoppingForever(c: Config, r: Run, i: nat, j: nat, q: nat)
    requires IsRun(c, r) && i <= j < |r.states| && q < |r.states[i].queues| && r.states[i].queues[q].stopping
    ensures q < |r.states[j].queues| && r.states[j].queues[q].stopping
  {
    if i < j {
      StoppingForever(c, r, i, j - 1, q);
      assert StepAt(c, r, j - 1);
      StoppingStays(c, r.states[j - 1], r.labels[j - 1], q);
    }
  }

  // ---------------------------------------------------------------- leaving the loop

  // Every request of the queue has been answered and its answer submitted.
  ghost predicate Drained(u: Queue, q: nat, ws: seq<Worker>) {
    && u.sq == [] && Outstanding(ws, q) == 0 && Busy(u.pc).None? && !u.pc.QInc?
    && (forall i | u.head <= i < |u.cq| :: u.cq[i].res != RES_OK)
  }

  /** The driver aborts a queue's commands only after its requests have drained, and posts no request
      to it afterwards. */
  ghost predicate OrderlyAbort(s: State, l: Label) {
    && (l.KFail? && l.res == RES_ABORT && l.q < |s.queues| ==> Drained(s.queues[l.q], l.q, s.workers))
    && (l.KPost? && l.q < |s.queues| ==> !s.queues[l.q].closed)
  }

  ghost predicate Orderly(r: Run) {
    |r.states| == |r.labels| + 1 && forall i {:trigger r.labels[i]} | 0 <= i < |r.labels| :: OrderlyAbort(r.states[i], r.labels[i])
  }

  ghost predicate EndInv(u: Queue, q: nat, ws: seq<Worker>) {
    && u.head <= |u.cq|
    && (u.closed ==> Drained(u, q, ws))
    && (forall i | u.head <= i < |u.cq| && u.cq[i].res == RES_ABORT :: u.closed)
    && (u.stopping ==> u.closed) && (u.pc.QExit? ==> u.stopping)
  }

  ghost predicate EndsInv(s: State) {
    forall q | 0 <= q < |s.queues| :: EndInv(s.queues[q], q, s.workers)
  }

  lemma EndReap(u: Queue, q: nat, ws: seq<Worker>)
    requires EndInv(u, q, ws) && u.pc.QReap?
    requires u.head < |u.cq| ==> u.cq[u.head].tag < |u.slots|
    ensures EndInv(Local(u), q, ws)
  {
  }

  lemma EndLocal(u: Queue, q: nat, ws: seq<Worker>)
    requires EndInv(u, q, ws) && !u.pc.QDispatch? && !u.pc.QBind? && !u.pc.QReap?
    ensures EndInv(Local(u), q, ws)
  {
    LocalKeeps(u);
  }

  lemma EndQ(c: Config, s: State, q: nat)
    requires EndsInv(s) && QEnabled(c, s, q)
    requires var u := s.queues[q]; u.head < |u.cq| ==> u.cq[u.head].tag < |u.slots|
    ensures EndsInv(QNext(c, s, q))
  {
    var s' := QNext(c, s, q);
    var u := s.queues[q];
    assert EndInv(u, q, s.workers);
    if u.pc.QBind? {
      forall r | 0 <= r < |s'.queues| ensures EndInv(s'.queues[r], r, s'.workers) {
        assert EndInv(s.queues[r], r, s.workers);
        OutstandingAppend(s.workers, s'.workers[|s.workers|], r);
      }
    } else if u.pc.QReap? {
      EndReap(u, q, s.workers);
    } else if !u.pc.QDispatch? {
      EndLocal(u, q, s.workers);
    }
  }

  // What a worker step does to the end of its queue: nothing, unless it prepares a command.
  lemma EndShape(c: Config, s: State, w: nat)
    requires WEnabled(c, s, w)
    ensures var s' := WNext(c, s, w); var k := s.workers[w];
            && |s'.queues| == |s.queues| && s'.queues == s.queues[k.q := s'.queues[k.q]]
            && s'.workers == s.workers[w := s'.workers[w]] && s'.workers[w].q == k.q
            && (!k.eio && s.msgs[k.m].result != -1 && Counts(s'.workers[w].pc) ==> Counts(k.pc))
            && var u, u' := s.queues[k.q], s'.queues[k.q];
               u'.cq == u.cq && u'.head == u.head && u'.closed == u.closed && u'.stopping == u.stopping
               && (u'.sq == u.sq || k.pc.WPrep?) && (u'.pc == u.pc || (u.pc.QWaiting? && u'.pc.QWoken?))
  {
  }

  lemma EndW(c: Config, s: State, w: nat)
    requires EndsInv(s) && WEnabled(c, s, w) && !s.workers[w].eio && s.msgs[s.workers[w].m].result != -1
    ensures EndsInv(WNext(c, s, w))
  {
    var s' := WNext(c, s, w);
    var k := s.workers[w];
    EndShape(c, s, w);
    if k.pc.WPrep? { OutstandingPositive(s.workers, w, k.q); }
    forall r | 0 <= r < |s'.queues| ensures EndInv(s'.queues[r], r, s'.workers) {
      assert EndInv(s.queues[r], r, s.workers);
      OutstandingUpdate(s.workers, w, s'.workers[w], r);
    }
  }

  lemma EndK(c: Config, s: State, l: Label)
    requires EndsInv(s) && Enabled(c, s, l) && OrderlyAbort(s, l)
    requires l.KTake? || l.KPost? || l.KFail? || l.KReturn? || l.KSpurious?
    ensures EndsInv(Next(c, s, l))
  {
    assert EndInv(s.queues[l.q], l.q, s.workers);
  }

  lemma EndStep(c: Config, s: State, g: Book, l: Label)
    requires Inv(c, s, g) && EndsInv(s) && Enabled(c, s, l) && NoError(l) && OrderlyAbort(s, l)
    ensures EndsInv(Next(c, s, l))
  {
    match l {
      case QStep(q) =>
        assert QueueInv(c, s.queues[q], g.slot[q], q, s.workers);
        EndQ(c, s, q);
      case WStep(w) =>
        MineFromInv(c, s, g, w);
        EndW(c, s, w);
      case DStep =>
      case HStep(h, err, fill) =>
      case _ => EndK(c, s, l);
    }
  }

  lemma {:induction false} EndsReachable(c: Config, r: Run, i: nat) returns (g: Book)
    requires ValidConfig(c) && IsRun(c, r) && Errorless(r) && Orderly(r) && i < |r.states|
    ensures Inv(c, r.states[i], g) && EndsInv(r.states[i])
  {
    if i == 0 {
      g := InitBook(c);
      InitInv(c);
    } else {
      var h := EndsReachable(c, r, i - 1);
      assert StepAt(c, r, i - 1);
      g := Advance(c, r.states[i - 1], h, r.labels[i - 1]);
      StepKeepsInv(c, r.states[i - 1], h, r.labels[i - 1]);
      EndStep(c, r.states[i - 1], h, r.labels[i - 1]);
    }
  }

  /** With orderly aborts, a queue thread that has left its loop leaves no worker before its decrement
      and no unsubmitted command. */
  lemma CleanExit(c: Config, r: Run, i: nat, q: nat, w: nat)
    requires ValidConfig(c) && IsRun(c, r) && Errorless(r) && Orderly(r) && i < |r.states|
    requires q < |r.states[i].queues| && r.states[i].queues[q].pc.QExit?
    ensures r.states[i].queues[q].sq == []
    ensures w < |r.states[i].workers| && r.states[i].workers[w].q == q ==> !Counts(r.states[i].workers[w].pc)
  {
    var g := EndsReachable(c, r, i);
    var s := r.states[i];
    assert EndInv(s.queues[q], q, s.workers);
    if w < |s.workers| && s.workers[w].q == q && Counts(s.workers[w].pc) { OutstandingPositive(s.workers, w, q); }
  }
}
