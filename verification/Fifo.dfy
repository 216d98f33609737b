/**
 Conservation in every run, with or without handler errors: the channels and the rings lose, repeat and reorder
 nothing. What has gone in is what has come out, in order, followed by what is still inside.
 */
module Fifo {
  import opened Machine
  import opened Binding
  import opened Runs

  // ---------------------------------------------------------------- the Go channels

  // The message a step sends on the request channel, and the one it receives from there.
  function RequestIn(s: State, l: Label): seq<nat> {
    if l.WStep? && l.w < |s.workers| && s.workers[l.w].pc == WSend then [s.workers[l.w].m] else []
  }

  function RequestOut(s: State, l: Label): seq<nat> {
    if l.DStep? && s.disp.None? && s.req != [] then [s.req[0]] else []
  }

  // The pooled request a step returns to the free channel, and the one it takes from there.
  function PoolIn(s: State, l: Label): seq<nat> {
    if l.WStep? && l.w < |s.workers| && s.workers[l.w].pc == WReturn then [s.workers[l.w].m] else []
  }

  function PoolOut(s: State, l: Label): seq<nat> {
    if l.QStep? && l.q < |s.queues| && s.queues[l.q].pc.QDispatch? && s.free != [] then [s.free[0]] else []
  }

  lemma ChannelStep(c: Config, s: State, l: Label)
    requires Enabled(c, s, l)
    ensures s.req + RequestIn(s, l) == RequestOut(s, l) + Next(c, s, l).req
    ensures s.free + PoolIn(s, l) == PoolOut(s, l) + Next(c, s, l).free
  {
    match l {
      case WStep(w) => ChannelW(c, s, w);
      case QStep(q) =>
      case DStep =>
      case _ =>
    }
  }

  lemma ChannelW(c: Config, s: State, w: nat)
    requires WEnabled(c, s, w)
    ensures s.req + RequestIn(s, WStep(w)) == WNext(c, s, w).req
    ensures s.free + PoolIn(s, WStep(w)) == WNext(c, s, w).free
  {
  }

  lemma ChannelAt(c: Config, r: Run, i: nat)
    requires IsRun(c, r) && i < |r.labels|
    ensures var s, l, s' := r.states[i], r.labels[i], r.states[i + 1];
            s.req + RequestIn(s, l) == RequestOut(s, l) + s'.req && s.free + PoolIn(s, l) == PoolOut(s, l) + s'.free
  {
    assert StepAt(c, r, i);
    ChannelStep(c, r.states[i], r.labels[i]);
  }

  // One step: before plus in equals out plus after.
  lemma Shift<T>(ins: seq<T>, outs: seq<T>, before: seq<T>, i: seq<T>, o: seq<T>, after: seq<T>)
    requires ins == outs + before && before + i == o + after
    ensures ins + i == (outs + o) + after
  {
    assert ins + i == outs + (before + i);
    assert outs + (o + after) == (outs + o) + after;
  }

  lemma InitChannels(c: Config)
    ensures Init(c).req == [] && Init(c).free == FirstFilled(c)
  {
  }

  // What the first n steps have put in and taken out.
  ghost function RequestsIn(r: Run, n: nat): seq<nat>
    requires n <= |r.labels| && n <= |r.states|
  {
    if n == 0 then [] else RequestsIn(r, n - 1) + RequestIn(r.states[n - 1], r.labels[n - 1])
  }

  ghost function RequestsOut(r: Run, n: nat): seq<nat>
    requires n <= |r.labels| && n <= |r.states|
  {
    if n == 0 then [] else RequestsOut(r, n - 1) + RequestOut(r.states[n - 1], r.labels[n - 1])
  }

  ghost function PoolsIn(r: Run, n: nat): seq<nat>
    requires n <= |r.labels| && n <= |r.states|
  {
    if n == 0 then [] else PoolsIn(r, n - 1) + PoolIn(r.states[n - 1], r.labels[n - 1])
  }

  ghost function PoolsOut(r: Run, n: nat): seq<nat>
    requires n <= |r.labels| && n <= |r.states|
  {
    if n == 0 then [] else PoolsOut(r, n - 1) + PoolOut(r.states[n - 1], r.labels[n - 1])
  }

  /** The dispatcher receives requests in the order workers send them, each once. */
  lemma {:induction false} RequestsInOrder(c: Config, r: Run, n: nat)
    requires IsRun(c, r) && n <= |r.labels|
    ensures RequestsIn(r, n) == RequestsOut(r, n) + r.states[n].req
  {
    if n == 0 {
      InitChannels(c);
    } else {
      RequestsInOrder(c, r, n - 1);
      ChannelAt(c, r, n - 1);
      Shift(RequestsIn(r, n - 1), RequestsOut(r, n - 1), r.states[n - 1].req, RequestIn(r.states[n - 1], r.labels[n - 1]),
            RequestOut(r.states[n - 1], r.labels[n - 1]), r.states[n].req);
    }
  }

  // The pooled requests 0, 1, 2, ... as Start fills them in.
  function FirstFilled(c: Config): (r: seq<nat>)
    ensures |r| == c.pool && forall i | 0 <= i < c.pool :: r[i] == i
  {
    seq(c.pool, i requires 0 <= i => i)
  }

  /** Queue threads take pooled requests in the order they were filled in or returned, each once. */
  lemma {:induction false} PoolInOrder(c: Config, r: Run, n: nat)
    requires IsRun(c, r) && n <= |r.labels|
    ensures FirstFilled(c) + PoolsIn(r, n) == PoolsOut(r, n) + r.states[n].free
  {
    if n == 0 {
      InitChannels(c);
    } else {
      PoolInOrder(c, r, n - 1);
      ChannelAt(c, r, n - 1);
      Shift3(FirstFilled(c), PoolsIn(r, n - 1), PoolsOut(r, n - 1), r.states[n - 1].free, PoolIn(r.states[n - 1], r.labels[n - 1]),
             PoolOut(r.states[n - 1], r.labels[n - 1]), r.states[n].free);
    }
  }

  // The same behind what was there at first.
  lemma Shift3<T>(first: seq<T>, ins: seq<T>, outs: seq<T>, before: seq<T>, i: seq<T>, o: seq<T>, after: seq<T>)
    requires first + ins == outs + before && before + i == o + after
    ensures first + (ins + i) == (outs + o) + after
  {
    assert first + (ins + i) == (first + ins) + i;
    Shift(first + ins, outs, before, i, o, after);
  }

  // ---------------------------------------------------------------- the rings of one queue

  // The command a step prepares in queue q's ring, and the one the driver accepts.
  function CommandIn(c: Config, q: nat, s: State, l: Label): seq<Cmd> {
    if l.WStep? && l.w < |s.workers| && s.workers[l.w].q == q < |s.queues| && s.workers[l.w].pc == WPrep
       && s.workers[l.w].tag < |s.queues[q].slots| && |s.queues[q].sq| < c.entries
    then
      var sl := s.queues[q].slots[s.workers[l.w].tag];
      if IssueOp(sl.flags).Some? then [MakeCmd(IssueOp(sl.flags).value, s.workers[l.w].tag, sl.result)] else []
    else []
  }

  function CommandOut(q: nat, s: State, l: Label): seq<Cmd> {
    if l == KTake(q) && q < |s.queues| && s.queues[q].sq != [] then [s.queues[q].sq[0]] else []
  }

  // The completion a step posts to queue q, and the one its thread reaps.
  function CompletionIn(q: nat, s: State, l: Label): seq<Cqe> {
    if l.KPost? && l.q == q then [Cqe(l.t, 0)] else if l.KFail? && l.q == q then [Cqe(l.t, l.res)] else []
  }

  function CompletionOut(q: nat, s: State, l: Label): seq<Cqe> {
    if l == QStep(q) && q < |s.queues| && s.queues[q].pc.QReap? && s.queues[q].head < |s.queues[q].cq|
      then [s.queues[q].cq[s.queues[q].head]] else []
  }

  function Waiting(u: Queue): seq<Cqe> { if u.head <= |u.cq| then u.cq[u.head..] else [] }

  lemma RingW(c: Config, s: State, w: nat, q: nat)
    requires WEnabled(c, s, w) && q < |s.queues|
    ensures |WNext(c, s, w).queues| == |s.queues|
    ensures s.queues[q].sq + CommandIn(c, q, s, WStep(w)) == WNext(c, s, w).queues[q].sq
    ensures WNext(c, s, w).queues[q].cq == s.queues[q].cq && WNext(c, s, w).queues[q].head == s.queues[q].head
  {
  }

  lemma RingReap(u: Queue)
    requires u.pc.QReap? && u.head <= |u.cq| && (u.head < |u.cq| ==> u.cq[u.head].tag < |u.slots|)
    ensures Local(u).sq == u.sq && Local(u).head <= |Local(u).cq|
    ensures Waiting(u) == (if u.head < |u.cq| then [u.cq[u.head]] else []) + Waiting(Local(u))
  {
    if u.head < |u.cq| {
      RingHandle(u);
    }
  }

  lemma RingHandle(u: Queue)
    requires u.head < |u.cq| && u.cq[u.head].tag < |u.slots|
    ensures var v := HandleCqe(u); v.sq == u.sq && v.cq == u.cq && v.head == u.head + 1
  {
  }

  // The thread's step, at its own queue and at another one.
  lemma RingQ(c: Config, s: State, p: nat, q: nat)
    requires QEnabled(c, s, p) && q < |s.queues| && s.queues[q].head <= |s.queues[q].cq|
    ensures var s' := QNext(c, s, p);
            && |s'.queues| == |s.queues| && s'.queues[q].head <= |s'.queues[q].cq| && s'.queues[q].sq == s.queues[q].sq
            && Waiting(s.queues[q]) == CompletionOut(q, s, QStep(p)) + Waiting(s'.queues[q])
  {
    var u := s.queues[p];
    if u.pc.QReap? {
      if p == q { RingReap(u); }
    } else if !u.pc.QDispatch? && !u.pc.QBind? {
      LocalKeeps(u);
    }
  }

  lemma RingK(c: Config, s: State, l: Label, q: nat)
    requires Enabled(c, s, l) && !l.QStep? && !l.WStep? && q < |s.queues| && s.queues[q].head <= |s.queues[q].cq|
    ensures var s' := Next(c, s, l);
            && |s'.queues| == |s.queues| && s'.queues[q].head <= |s'.queues[q].cq|
            && s.queues[q].sq == CommandOut(q, s, l) + s'.queues[q].sq
            && Waiting(s.queues[q]) + CompletionIn(q, s, l) == Waiting(s'.queues[q])
  {
  }

  lemma RingStep(c: Config, s: State, l: Label, q: nat)
    requires Enabled(c, s, l) && q < |s.queues| && s.queues[q].head <= |s.queues[q].cq|
    ensures var s' := Next(c, s, l);
            && |s'.queues| == |s.queues| && s'.queues[q].head <= |s'.queues[q].cq|
            && s.queues[q].sq + CommandIn(c, q, s, l) == CommandOut(q, s, l) + s'.queues[q].sq
            && Waiting(s.queues[q]) + CompletionIn(q, s, l) == CompletionOut(q, s, l) + Waiting(s'.queues[q])
  {
    match l {
      case WStep(w) => RingW(c, s, w, q);
      case QStep(p) => RingQ(c, s, p, q);
      case _ => RingK(c, s, l, q);
    }
  }

  // The fetch commands queue initialisation leaves in the ring.
  function FirstFetches(c: Config): (r: seq<Cmd>)
    ensures |r| == c.depth && forall t | 0 <= t < c.depth :: r[t] == Fetch(t)
  {
    seq(c.depth, t requires 0 <= t => Fetch(t))
  }

  lemma {:induction false} RingShape(c: Config, r: Run, n: nat, q: nat)
    requires IsRun(c, r) && n <= |r.labels| && q < c.queues
    ensures q < |r.states[n].queues| && r.states[n].queues[q].head <= |r.states[n].queues[q].cq|
  {
    if n > 0 {
      RingShape(c, r, n - 1, q);
      assert StepAt(c, r, n - 1);
      RingStep(c, r.states[n - 1], r.labels[n - 1], q);
    }
  }

  // What step n - 1 moves through the rings of queue q.
  lemma RingAt(c: Config, r: Run, n: nat, q: nat)
    requires IsRun(c, r) && 0 < n <= |r.labels| && q < c.queues
    ensures q < |r.states[n - 1].queues| && q < |r.states[n].queues|
    ensures var s, l, s' := r.states[n - 1], r.labels[n - 1], r.states[n];
            && s.queues[q].sq + CommandIn(c, q, s, l) == CommandOut(q, s, l) + s'.queues[q].sq
            && Waiting(s.queues[q]) + CompletionIn(q, s, l) == CompletionOut(q, s, l) + Waiting(s'.queues[q])
  {
    RingShape(c, r, n - 1, q);
    assert StepAt(c, r, n - 1);
    RingStep(c, r.states[n - 1], r.labels[n - 1], q);
  }

  // The ring and the completions of queue q in one state.
  function RingOf(s: State, q: nat): seq<Cmd> { if q < |s.queues| then s.queues[q].sq else [] }

  function WaitingAt(s: State, q: nat): seq<Cqe> { if q < |s.queues| then Waiting(s.queues[q]) else [] }

  lemma InitRings(c: Config, q: nat)
    requires q < c.queues
    ensures RingOf(Init(c), q) == FirstFetches(c) && WaitingAt(Init(c), q) == []
  {
  }

  lemma RingMoves(c: Config, r: Run, i: nat, q: nat)
    requires IsRun(c, r) && i < |r.labels| && q < c.queues
    ensures var s, l, s' := r.states[i], r.labels[i], r.states[i + 1];
            && RingOf(s, q) + CommandIn(c, q, s, l) == CommandOut(q, s, l) + RingOf(s', q)
            && WaitingAt(s, q) + CompletionIn(q, s, l) == CompletionOut(q, s, l) + WaitingAt(s', q)
  {
    RingAt(c, r, i + 1, q);
  }

  // What the first n steps have put in and taken out of queue q's rings.
  ghost function CommandsIn(c: Config, q: nat, r: Run, n: nat): seq<Cmd>
    requires n <= |r.labels| && n <= |r.states|
  {
    if n == 0 then [] else CommandsIn(c, q, r, n - 1) + CommandIn(c, q, r.states[n - 1], r.labels[n - 1])
  }

  ghost function CommandsOut(q: nat, r: Run, n: nat): seq<Cmd>
    requires n <= |r.labels| && n <= |r.states|
  {
    if n == 0 then [] else CommandsOut(q, r, n - 1) + CommandOut(q, r.states[n - 1], r.labels[n - 1])
  }

  ghost function CompletionsIn(q: nat, r: Run, n: nat): seq<Cqe>
    requires n <= |r.labels| && n <= |r.states|
  {
    if n == 0 then [] else CompletionsIn(q, r, n - 1) + CompletionIn(q, r.states[n - 1], r.labels[n - 1])
  }

  ghost function CompletionsOut(q: nat, r: Run, n: nat): seq<Cqe>
    requires n <= |r.labels| && n <= |r.states|
  {
    if n == 0 then [] else CompletionsOut(q, r, n - 1) + CompletionOut(q, r.states[n - 1], r.labels[n - 1])
  }

  /** The driver accepts a queue's commands in the order they were prepared, each once, starting with the FETCH of
      every tag. */
  lemma {:induction false} CommandsInOrder(c: Config, r: Run, n: nat, q: nat)
    requires IsRun(c, r) && n <= |r.labels| && q < c.queues
    ensures FirstFetches(c) + CommandsIn(c, q, r, n) == CommandsOut(q, r, n) + RingOf(r.states[n], q)
  {
    if n == 0 {
      InitRings(c, q);
    } else {
      CommandsInOrder(c, r, n - 1, q);
      RingMoves(c, r, n - 1, q);
      var s, l := r.states[n - 1], r.labels[n - 1];
      Shift3(FirstFetches(c), CommandsIn(c, q, r, n - 1), CommandsOut(q, r, n - 1), RingOf(s, q), CommandIn(c, q, s, l), CommandOut(q, s, l),
             RingOf(r.states[n], q));
    }
  }

  /** A queue thread reaps completions in the order the driver posted them, each once. */
  lemma {:induction false} CompletionsInOrder(c: Config, r: Run, n: nat, q: nat)
    requires IsRun(c, r) && n <= |r.labels| && q < c.queues
    ensures CompletionsIn(q, r, n) == CompletionsOut(q, r, n) + WaitingAt(r.states[n], q)
  {
    if n == 0 {
      InitRings(c, q);
    } else {
      CompletionsInOrder(c, r, n - 1, q);
      RingMoves(c, r, n - 1, q);
      var s, l := r.states[n - 1], r.labels[n - 1];
      Shift(CompletionsIn(q, r, n - 1), CompletionsOut(q, r, n - 1), WaitingAt(s, q), CompletionIn(q, s, l), CompletionOut(q, s, l),
            WaitingAt(r.states[n], q));
    }
  }
}
