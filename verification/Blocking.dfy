/** Who waits for what: exactly when a thread's next step can be taken. */
module Blocking {
  import opened Machine
  import opened Ledger
  import opened Binding
  import opened Runs
  import opened Theorems
  import opened Progress

  /** A queue thread waits for cond_mutex, for a signal, for the driver and for a pooled request, and for nothing else. */
  lemma ThreadWaits(c: Config, s: State, q: nat)
    requires Reachable(c, s) && q < |s.queues|
    ensures var u := s.queues[q];
            Enabled(c, s, QStep(q)) <==>
              && u.pc != QSubmit && u.pc != QExit && u.pc != QWaiting
              && (u.pc == QLock || u.pc == QWoken ==> u.mutex == None)
              && (u.pc.QDispatch? ==> |s.free| > 0)
  {
    var g := KnownQueue(c, s, q);
  }

  /** A worker waits for its completion token and for its queue's two locks. Its sends, of the request and of the
      pooled request at the end, never wait. */
  lemma WorkerWaits(c: Config, s: State, w: nat)
    requires Reachable(c, s) && w < |s.workers|
    ensures var k := s.workers[w];
            k.q < |s.queues| && k.m < |s.msgs|
    ensures var k := s.workers[w];
            Enabled(c, s, WStep(w)) <==>
              && k.pc != WDone
              && (k.pc == WWait ==> s.msgs[k.m].complete > 0)
              && (k.pc == WLock ==> s.queues[k.q].lock == None)
              && (k.pc == WSigLock ==> s.queues[k.q].mutex == None)
  {
    var g := Known(c, s);
    InBounds(c, s, g, w);
    SendsNeverBlock(c, s);
  }

  /** The dispatcher waits for a request only: a message it holds is never stuck. */
  lemma DispatcherWaits(c: Config, s: State)
    requires Reachable(c, s)
    ensures Enabled(c, s, DStep) <==> s.disp.Some? || |s.req| > 0
  {
    SendsNeverBlock(c, s);
  }

  /** A handler goroutine never waits: its call, failing or not, is possible, and so is its signal. */
  lemma HandlersNeverWait(c: Config, s: State, h: nat, fill: seq<bv8>)
    requires Reachable(c, s) && h < |s.handlers|
    ensures s.handlers[h].m < |s.msgs|
    ensures var m := s.msgs[s.handlers[h].m];
            && (s.handlers[h].pc == HSignal ==> Enabled(c, s, HStep(h, false, fill)) && Enabled(c, s, HStep(h, true, fill)))
            && (s.handlers[h].pc == HCall ==> Enabled(c, s, HStep(h, true, fill)))
            && (s.handlers[h].pc == HCall && |fill| == m.size ==> Enabled(c, s, HStep(h, false, fill)))
            && (s.handlers[h].pc == HDone ==> !Enabled(c, s, HStep(h, false, fill)) && !Enabled(c, s, HStep(h, true, fill)))
  {
    var g := Known(c, s);
    var x := s.handlers[h].m;
    if s.handlers[h].pc == HSignal {
      SendsNeverBlock(c, s);
    } else if s.handlers[h].pc == HCall {
      ReadBuffersKeep(c, s, x);
      ResliceFits(c, s, h);
      var w := CallersWorker(c, s, g, h);
      CallPossible(c, s, g, w);
    }
  }

  lemma CallersWorker(c: Config, s: State, g: Book, h: nat) returns (w: nat)
    requires PoolInv(c, s, g) && h < |s.handlers| && s.handlers[h].pc == HCall
    ensures w < |s.workers| && s.workers[w].pc == WWait && s.workers[w].m == s.handlers[h].m
  {
    var x := s.handlers[h].m;
    assert g.token[x] == AtHandler(h);
    assert MsgOwned(x, g.msg[x], g.token[x], s.free, s.queues, s.workers);
    w := g.msg[x].w;
  }
}
