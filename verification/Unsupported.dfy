/** Requests that are no read, write or discard. */
module Unsupported {
  import opened Words
  import opened Machine
  import opened Ledger
  import opened Runs
  import opened Theorems
  import opened Language

  /** The dispatcher starts a handler goroutine for a request if and only if its operation is supported;
      any other it completes on the spot, and nothing but the completion changes. */
  lemma DispatchByKind(c: Config, s: State) returns (w: nat)
    requires Reachable(c, s) && s.disp.Some?
    ensures DEnabled(c, s)
    ensures w < |s.workers| && s.workers[w].pc == WWait && s.workers[w].m == s.disp.value < |s.msgs|
    ensures var k := s.workers[w];
            k.q < |s.queues| && k.tag < |s.queues[k.q].slots|
    ensures var k := s.workers[w];
            var x := k.m;
            var s' := DNext(c, s);
            if KindOf(s.queues[k.q].slots[k.tag].iod) != Unknown
            then s' == s.(disp := None, handlers := s.handlers + [Handler(x, HCall)])
            else s' == s.(disp := None, msgs := s.msgs[x := s.msgs[x].(complete := 1)])
  {
    SendsNeverBlock(c, s);
    MsgCount(c, s);
    w := TokenHasWaiter(c, s, s.disp.value, WithDispatcher);
    BindingHolds(c, s, w);
  }

  lemma MsgCount(c: Config, s: State)
    requires Reachable(c, s)
    ensures |s.msgs| == c.pool && (s.disp.Some? ==> s.disp.value < c.pool)
  {
    var g := Known(c, s);
  }

  // ---------------------------------------------------------------- handlers serve supported requests only

  ghost predicate HandlersKnown(s: State) {
    forall h | 0 <= h < |s.handlers| && s.handlers[h].pc != HDone ::
      s.handlers[h].m < |s.msgs| && KnownType(s.msgs[s.handlers[h].m].ty)
  }

  lemma TypesKept(c: Config, s: State, l: Label, m: nat)
    requires Enabled(c, s, l) && m < |s.msgs|
    requires l.QStep? && s.queues[l.q].pc.QBind? ==> s.queues[l.q].pc.m != m
    ensures |Next(c, s, l).msgs| == |s.msgs| && Next(c, s, l).msgs[m].ty == s.msgs[m].ty
  {
    if l.WStep? { TypesKeptW(c, s, l.w, m); }
  }

  lemma TypesKeptW(c: Config, s: State, w: nat, m: nat)
    requires WEnabled(c, s, w) && m < |s.msgs|
    ensures |WNext(c, s, w).msgs| == |s.msgs| && WNext(c, s, w).msgs[m].ty == s.msgs[m].ty
  {
  }

  // A live handler of the next state was live before, or has just been started for a known type.
  lemma HandlersGrow(c: Config, s: State, l: Label, h: nat)
    requires Enabled(c, s, l) && h < |Next(c, s, l).handlers| && Next(c, s, l).handlers[h].pc != HDone
    ensures var x := Next(c, s, l).handlers[h].m;
            || (h < |s.handlers| && s.handlers[h].m == x && s.handlers[h].pc != HDone)
            || (l == DStep && s.disp == Some(x) && x < |s.msgs| && KnownType(s.msgs[x].ty))
  {
    if l.WStep? { HandlersGrowW(c, s, l.w); }
  }

  lemma HandlersGrowW(c: Config, s: State, w: nat)
    requires WEnabled(c, s, w)
    ensures WNext(c, s, w).handlers == s.handlers
  {
  }

  lemma HandlersKnownStep(c: Config, s: State, g: Book, l: Label)
    requires PoolInv(c, s, g) && Enabled(c, s, l) && HandlersKnown(s)
    ensures HandlersKnown(Next(c, s, l))
  {
    var s' := Next(c, s, l);
    forall h | 0 <= h < |s'.handlers| && s'.handlers[h].pc != HDone
      ensures s'.handlers[h].m < |s'.msgs| && KnownType(s'.msgs[s'.handlers[h].m].ty)
    {
      var x := s'.handlers[h].m;
      HandlersGrow(c, s, l, h);
      TypesKept(c, s, l, x);
    }
  }

  lemma {:induction false} HandlersKnownRun(c: Config, r: Run, i: nat)
    requires ValidConfig(c) && IsRun(c, r) && Errorless(r) && i < |r.states|
    ensures HandlersKnown(r.states[i])
  {
    if i > 0 {
      HandlersKnownRun(c, r, i - 1);
      var g := ReachableInv(c, r, i - 1);
      assert StepAt(c, r, i - 1);
      HandlersKnownStep(c, r.states[i - 1], g, r.labels[i - 1]);
    }
  }

  // Only a handler's call changes the array.
  lemma ArrayChanges(c: Config, s: State, l: Label)
    requires Enabled(c, s, l) && Next(c, s, l).disk != s.disk
    ensures l.HStep? && l.h < |s.handlers| && s.handlers[l.h].pc == HCall
  {
    if l.WStep? { ArrayKeptW(c, s, l.w); }
  }

  lemma ArrayKeptW(c: Config, s: State, w: nat)
    requires WEnabled(c, s, w)
    ensures WNext(c, s, w).disk == s.disk
  {
  }

  /** Whatever changes the array is a handler call on behalf of a read, write or discard: an unsupported
      request leaves the array alone. */
  lemma ChangesAreSupported(c: Config, r: Run, i: nat) returns (w: nat)
    requires ValidConfig(c) && IsRun(c, r) && Errorless(r) && i < |r.labels| && r.states[i + 1].disk != r.states[i].disk
    ensures var s := r.states[i];
            && w < |s.workers| && s.workers[w].pc == WWait
            && var k := s.workers[w];
               && k.q < |s.queues| && k.tag < |s.queues[k.q].slots|
               && r.labels[i].HStep? && r.labels[i].h < |s.handlers| && s.handlers[r.labels[i].h].m == k.m
               && KindOf(s.queues[k.q].slots[k.tag].iod) != Unknown
  {
    var s, l := r.states[i], r.labels[i];
    assert StepAt(c, r, i);
    ArrayChanges(c, s, l);
    HandlersKnownRun(c, r, i);
    assert Reachable(c, s);
    MsgCount(c, s);
    w := TokenHasWaiter(c, s, s.handlers[l.h].m, InHandler(l.h));
    BindingHolds(c, s, w);
  }

  /** A posted request of an unsupported operation is answered like a successful one: with its length as a
      32-bit word. */
  lemma UnsupportedIsAcknowledged(c: Config, r: Run, i: nat, k: nat, q: nat, t: nat, d: Desc)
    requires ValidConfig(c) && IsRun(c, r) && Errorless(r) && k < |r.labels| && Takes(r.states[k], r.labels[k], q, t)
    requires PostedAs(r, i, k, q, t, d) && KindOf(d) == Unknown
    ensures r.states[k].queues[q].sq[0] == Commit(t, ToI32(Shl9U32(d.nsec)))
  {
    var j, e := CommandLanguage(c, r, k, q, t);
    assert Touches(r.states[i], r.labels[i], q, t);
    LastIsOne(r, i, j, k, q, t);
  }

  // A flush of eight sectors.
  const FLUSH := Desc(2, 8, 0)

  /** A flush may be posted to every device, reaches no handler, and is answered with 4096. */
  lemma FlushIsAcknowledged(c: Config, r: Run, i: nat, k: nat, q: nat, t: nat)
    requires ValidConfig(c) && IsRun(c, r) && Errorless(r) && k < |r.labels| && Takes(r.states[k], r.labels[k], q, t)
    requires PostedAs(r, i, k, q, t, FLUSH)
    ensures KindOf(FLUSH) == Unknown && DescOk(c, FLUSH)
    ensures r.states[k].queues[q].sq[0] == Commit(t, 4096)
  {
    UnsupportedIsAcknowledged(c, r, i, k, q, t, FLUSH);
  }
}
