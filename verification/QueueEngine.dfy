/**
 One queue's record, updated in place by the C functions that own it. Each method is proved against a
 function on `Machine.Queue`; the lemmas tie those functions to the small steps of the machine and say
 what a whole pass does. A method runs without interleaving: the waits, and everything that happens
 between two instructions, are the machine's business.
 */
module QueueEngine {
  import opened Machine
  import opened Plays

  // ---------------------------------------------------------------- flag words

  const NEED_FETCH: bv32 := 1
  const NEED_COMMIT: bv32 := 2
  const IO_FREE: bv32 := 4
  const NEED_GET_DATA: bv32 := 8

  const STOPPING: bv32 := 1
  const IDLE: bv32 := 2

  function FlagsOf(f: bv32): Flags {
    Flags(f & NEED_FETCH != 0, f & NEED_COMMIT != 0, f & IO_FREE != 0, f & NEED_GET_DATA != 0)
  }

  /** The bits of a slot's flag word, by number. */
  lemma FlagNumbers(f: bv32)
    ensures FlagsOf(f).fetch <==> f & 1 == 1
    ensures FlagsOf(f).commit <==> f & 2 == 2
    ensures FlagsOf(f).free <==> f & 4 == 4
    ensures FlagsOf(f).getData <==> f & 8 == 8
  {
  }

  lemma MarkBits(f: bv32)
    ensures FlagsOf(f | (NEED_COMMIT | IO_FREE)) == FlagsOf(f).(commit := true, free := true)
  {
  }

  lemma GetDataBits(f: bv32)
    ensures FlagsOf(f | (NEED_GET_DATA | IO_FREE)) == FlagsOf(f).(getData := true, free := true)
  {
  }

  lemma FetchBits(f: bv32)
    ensures FlagsOf(f & !NEED_FETCH) == FlagsOf(f).(fetch := false)
  {
  }

  lemma NeedBits(f: bv32)
    ensures f & (NEED_FETCH | NEED_GET_DATA | NEED_COMMIT) == 0 <==>
              !(FlagsOf(f).fetch || FlagsOf(f).getData || FlagsOf(f).commit)
  {
  }

  lemma InitBits()
    ensures FlagsOf(NEED_FETCH | IO_FREE) == Flags(true, false, true, false)
  {
  }

  lemma StateBits(s: bv32)
    ensures (s | STOPPING) & STOPPING != 0 && (s | STOPPING) & !STOPPING == s & !STOPPING
    ensures (s | STOPPING) & IDLE == s & IDLE
    ensures (s | IDLE) & IDLE != 0 && (s | IDLE) & STOPPING == s & STOPPING
    ensures (s & !IDLE) & IDLE == 0 && (s & !IDLE) & STOPPING == s & STOPPING
  {
  }

  // ---------------------------------------------------------------- what the functions do to a queue

  datatype Outcome = Outcome(queue: Queue, ret: int)

  /** ublksrv_queue_io_cmd run by worker w from its lock to its return. */
  function Issue(u: Queue, entries: nat, w: nat, tag: nat): Outcome
    requires tag < |u.slots|
  {
    var sl := u.slots[tag];
    var op := IssueOp(sl.flags);
    if op.None? then Outcome(u.(lock := Some(w)), 0)
    else if |u.sq| >= entries then Outcome(u.(lock := Some(w)), -1)
    else Outcome(u.(sq := u.sq + [MakeCmd(op.value, tag, sl.result)],
                    slots := u.slots[tag := sl.(flags := NO_FLAGS)],
                    inflight := u.inflight - 1,
                    pc := if u.inflight == 1 && u.pc == QWaiting then QWoken else u.pc), 1)
  }

  function Complete(u: Queue, entries: nat, w: nat, tag: nat, res: int): Outcome
    requires tag < |u.slots|
  {
    Issue(u.(slots := u.slots[tag := MarkDone(u.slots[tag], res)]), entries, w, tag)
  }

  // A worker's call of ublksrv_complete_io.
  datatype Finished = Finished(tag: nat, res: int)

  // Such calls in order, each while the queue thread waits.
  function CompleteAll(u: Queue, ws: seq<Finished>, entries: nat): (r: Queue)
    requires forall w <- ws :: w.tag < |u.slots|
    ensures |r.slots| == |u.slots|
  {
    if ws == [] then u
    else
      var w := ws[|ws| - 1];
      Complete(CompleteAll(u, ws[..|ws| - 1], entries), entries, 0, w.tag, w.res).queue
  }

  /** A completion that finds the lock free and room in the ring prepares one command and counts down. */
  lemma CompleteCounts(u: Queue, entries: nat, w: nat, tag: nat, res: int)
    requires tag < |u.slots| && u.lock == None && |u.sq| < entries
    ensures var o := Complete(u, entries, w, tag, res);
            o.ret == 1 && o.queue.lock == None && |o.queue.sq| == |u.sq| + 1 && o.queue.inflight == u.inflight - 1
  {
  }

  lemma {:induction false} CompleteAllCounts(u: Queue, ws: seq<Finished>, entries: nat)
    requires (forall w <- ws :: w.tag < |u.slots|) && u.lock == None && |u.sq| + |ws| <= entries
    ensures var r := CompleteAll(u, ws, entries);
            r.lock == None && |r.sq| == |u.sq| + |ws| && r.inflight == u.inflight - |ws|
  {
    if ws != [] {
      var n := |ws| - 1;
      CompleteAllCounts(u, ws[..n], entries);
      assert ws[n] in ws;
      CompleteCounts(CompleteAll(u, ws[..n], entries), entries, 0, ws[n].tag, ws[n].res);
    }
  }

  predicate NoGetData(u: Queue) { forall t | 0 <= t < |u.slots| :: !u.slots[t].flags.getData }

  lemma CompletePrepares(u: Queue, entries: nat, w: nat, tag: nat, res: int)
    requires tag < |u.slots| && u.lock == None && |u.sq| < entries && NoGetData(u)
    ensures var r := Complete(u, entries, w, tag, res).queue;
            r.sq == u.sq + [Commit(tag, res)] && NoGetData(r) && r.lock == None && |r.slots| == |u.slots|
  {
  }

  /** On slots without NEED_GET_DATA the commands prepared while the thread waits are the commits of the finished
      requests, in the order they finished, each with its own tag and result. */
  lemma {:induction false} CompleteAllPrepares(u: Queue, ws: seq<Finished>, entries: nat)
    requires (forall w <- ws :: w.tag < |u.slots|) && u.lock == None && |u.sq| + |ws| <= entries && NoGetData(u)
    ensures var r := CompleteAll(u, ws, entries);
            && |r.sq| == |u.sq| + |ws| && r.sq[..|u.sq|] == u.sq && NoGetData(r) && r.lock == None
            && forall i | 0 <= i < |ws| :: r.sq[|u.sq| + i] == Commit(ws[i].tag, ws[i].res)
  {
    if ws != [] {
      var n := |ws| - 1;
      CompleteAllPrepares(u, ws[..n], entries);
      assert ws[n] in ws;
      CompletePrepares(CompleteAll(u, ws[..n], entries), entries, 0, ws[n].tag, ws[n].res);
      forall i | 0 <= i < |ws| ensures CompleteAll(u, ws, entries).sq[|u.sq| + i] == Commit(ws[i].tag, ws[i].res) {
        if i < n { assert ws[..n][i] == ws[i]; }
      }
    }
  }

  // ---------------------------------------------------------------- completions

  datatype Completion = Completion(target: bool, tag: nat, res: int)

  // An abort, or anything reaped after one, stops the queue and takes the fetch request off the slot.
  function Noted(u: Queue, e: Completion): Queue
    requires e.tag < |u.slots|
  {
    var sl := u.slots[e.tag];
    if e.res != RES_ABORT && !u.stopping then u
    else u.(stopping := true, slots := u.slots[e.tag := sl.(flags := sl.flags.(fetch := false))])
  }

  /** ublksrv_handle_cqe on one completion, the hand-over to Go included. */
  function Handle(u: Queue, e: Completion, entries: nat): Queue
    requires e.target || e.tag < |u.slots|
  {
    if e.target then u
    else
      var v := Noted(u, e);
      var sl := v.slots[e.tag];
      if e.res == RES_OK then
        v.(inflight := v.inflight + 1)
      else if e.res == RES_GET_DATA then
        Issue(v.(slots := v.slots[e.tag := sl.(flags := sl.flags.(getData := true, free := true))]), entries, 0, e.tag).queue
      else
        v.(slots := v.slots[e.tag := sl.(flags := FREE_ONLY)])
  }

  // Completions of commands the driver holds; NEED_GET_DATA is never posted to this device.
  predicate Expected(es: seq<Completion>, depth: nat) {
    forall e <- es :: !e.target ==> e.tag < depth && e.res != RES_GET_DATA
  }

  function ReapAll(u: Queue, es: seq<Completion>, entries: nat): (r: Queue)
    requires Expected(es, |u.slots|)
    ensures |r.slots| == |u.slots|
  {
    if es == [] then u
    else
      var es' := es[..|es| - 1];
      Handle(ReapAll(u, es', entries), es[|es| - 1], entries)
  }

  // The tags handed over to Go, in order.
  function Spawned(es: seq<Completion>): seq<nat> {
    if es == [] then []
    else
      var e := es[|es| - 1];
      Spawned(es[..|es| - 1]) + if !e.target && e.res == RES_OK then [e.tag] else []
  }

  // The discard loop of ublksrv_queue_discard_io_pages as the machine's steps take it.
  function DiscardFrom(u: Queue, i: nat): Queue
    requires i <= |u.slots|
    decreases |u.slots| - i
  {
    if i < |u.slots| then DiscardFrom(DiscardPage(u, i), i + 1) else u.(pc := QCheck, idle := true)
  }

  // The end of ublksrv_process_io, after the reap.
  function Settle(u: Queue): Queue {
    var v := AfterReap(u);
    if v.pc == QDiscard(0) then DiscardFrom(v, 0) else v
  }

  // `Settle` in the terms of the record's own fields.
  lemma SettleMeaning(u: Queue, etime: bool, reaped: nat)
    ensures Settle(u.(etime := etime, reaped := reaped)) ==
              (if u.stopping then u
               else if etime && reaped == 0 && u.sq == [] then
                 if u.idle then u else DiscardFrom(u, 0)
               else u.(idle := false)).(etime := etime, reaped := reaped, pc := QCheck)
  {
    DiscardMeaning(u.(etime := etime, reaped := reaped, pc := QDiscard(0)), 0);
    DiscardMeaning(u, 0);
    assert DiscardFrom(u, 0).slots == DiscardFrom(u.(etime := etime, reaped := reaped, pc := QDiscard(0)), 0).slots;
  }

  // One pass of ublksrv_process_io: everything submitted, es reaped.
  function Pass(u: Queue, es: seq<Completion>, etime: bool, entries: nat): Queue
    requires Expected(es, |u.slots|)
  {
    Settle(ReapAll(u.(sq := []), es, entries).(etime := etime, reaped := |es|))
  }

  // ---------------------------------------------------------------- the functions against the machine

  // n steps of one worker.
  function Steps(w: nat, n: nat): seq<Label> { seq(n, _ => WStep(w)) }

  lemma OneMore(c: Config, s: State, w: nat, n: nat)
    requires WEnabled(c, s, w) && n > 0
    ensures Play(c, s, Steps(w, n)) == Play(c, WNext(c, s, w), Steps(w, n - 1))
  {
    assert Steps(w, n)[1..] == Steps(w, n - 1);
  }

  lemma Overwrite(s: State, w: nat, k: Worker, k': Worker, q: nat, u: Queue, u': Queue)
    requires w < |s.workers| && q < |s.queues|
    ensures SetBoth(SetBoth(s, w, k, q, u), w, k', q, u') == SetBoth(s, w, k', q, u')
  {
    assert s.workers[w := k][w := k'] == s.workers[w := k'];
    assert s.queues[q := u][q := u'] == s.queues[q := u'];
  }

  // One instruction of ublksrv_complete_io, on the two records it touches.
  function Turn(k: Worker, u: Queue, w: nat, entries: nat): (Worker, Queue)
    requires k.tag < |u.slots|
  {
    var sl := u.slots[k.tag];
    var op := IssueOp(sl.flags);
    match k.pc
    case WMark => (k.(pc := WLock), u.(slots := u.slots[k.tag := MarkDone(sl, k.res)]))
    case WLock => (k.(pc := WPrep), u.(lock := Some(w)))
    case WPrep =>
      if op.None? || |u.sq| >= entries then (Returned(k), u)
      else (k.(pc := WDec), u.(sq := u.sq + [MakeCmd(op.value, k.tag, sl.result)], slots := u.slots[k.tag := sl.(flags := NO_FLAGS)]))
    case WDec => (k.(pc := if u.inflight == 1 then WSigLock else WUnlock), u.(inflight := u.inflight - 1))
    case WSigLock => (k.(pc := WSig), u.(mutex := Some(ByWorker(w))))
    case WSig => (k.(pc := WSigUnlock), if u.pc == QWaiting then u.(pc := QWoken) else u)
    case WSigUnlock => (k.(pc := WUnlock), u.(mutex := None))
    case WUnlock => (Returned(k), u.(lock := None))
    case _ => (k, u)
  }

  predicate CanTurn(k: Worker, u: Queue) {
    && k.tag < |u.slots|
    && (k.pc == WMark || k.pc == WPrep || k.pc == WDec || k.pc == WSig || k.pc == WSigUnlock || k.pc == WUnlock
        || (k.pc == WLock && u.lock == None) || (k.pc == WSigLock && u.mutex == None))
  }

  lemma TurnIsStep(c: Config, t: State, w: nat)
    requires w < |t.workers| && t.workers[w].q < |t.queues| && t.workers[w].m < |t.msgs|
    requires CanTurn(t.workers[w], t.queues[t.workers[w].q])
    ensures WEnabled(c, t, w)
    ensures var r := Turn(t.workers[w], t.queues[t.workers[w].q], w, c.entries);
            WNext(c, t, w) == SetBoth(t, w, r.0, t.workers[w].q, r.1)
  {
    assert t.queues[t.workers[w].q := t.queues[t.workers[w].q]] == t.queues;
  }

  // n instructions in a row, if none of them blocks.
  function Turns(k: Worker, u: Queue, w: nat, entries: nat, n: nat): Option<(Worker, Queue)>
    decreases n
  {
    if n == 0 then Some((k, u))
    else if CanTurn(k, u) then Turns(Turn(k, u, w, entries).0, Turn(k, u, w, entries).1, w, entries, n - 1)
    else None
  }

  lemma TurnIsPlayed(c: Config, s: State, w: nat, k: Worker, u: Queue, n: nat)
    requires w < |s.workers| && k.q < |s.queues| && k.m < |s.msgs| && n > 0 && CanTurn(k, u)
    ensures var r := Turn(k, u, w, c.entries);
            Play(c, SetBoth(s, w, k, k.q, u), Steps(w, n)) == Play(c, SetBoth(s, w, r.0, k.q, r.1), Steps(w, n - 1))
  {
    var t := SetBoth(s, w, k, k.q, u);
    var r := Turn(k, u, w, c.entries);
    TurnIsStep(c, t, w);
    OneMore(c, t, w, n);
    Overwrite(s, w, k, r.0, k.q, u, r.1);
  }

  lemma TurnKeeps(k: Worker, u: Queue, w: nat, entries: nat)
    requires k.tag < |u.slots|
    ensures var k' := Turn(k, u, w, entries).0; k'.q == k.q && k'.m == k.m
  {
  }

  lemma {:induction false} TurnsArePlayed(c: Config, s: State, w: nat, k: Worker, u: Queue, n: nat)
    requires w < |s.workers| && k.q < |s.queues| && k.m < |s.msgs| && Turns(k, u, w, c.entries, n).Some?
    ensures var r := Turns(k, u, w, c.entries, n).value;
            Play(c, SetBoth(s, w, k, k.q, u), Steps(w, n)) == Some(SetBoth(s, w, r.0, k.q, r.1))
    decreases n
  {
    if n == 0 {
      assert Steps(w, 0) == [];
    } else {
      var r := Turn(k, u, w, c.entries);
      OneTurn(k, u, w, c.entries, n);
      TurnKeeps(k, u, w, c.entries);
      TurnIsPlayed(c, s, w, k, u, n);
      TurnsArePlayed(c, s, w, r.0, r.1, n - 1);
    }
  }

  lemma OneTurn(k: Worker, u: Queue, w: nat, entries: nat, n: nat)
    requires n > 0 && CanTurn(k, u)
    ensures var r := Turn(k, u, w, entries); Turns(k, u, w, entries, n) == Turns(r.0, r.1, w, entries, n - 1)
  {
  }

  // The number of instructions ublksrv_complete_io takes.
  function Length(u: Queue, o: Outcome): nat {
    if o.ret != 1 then 3 else if u.inflight == 1 then 8 else 5
  }

  lemma LockIsTurns(k: Worker, u: Queue, w: nat, entries: nat, n: nat)
    requires k.tag < |u.slots| && k.pc == WMark && u.lock == None && n >= 2
    ensures var v := u.(slots := u.slots[k.tag := MarkDone(u.slots[k.tag], k.res)], lock := Some(w));
            Turns(k, u, w, entries, n) == Turns(k.(pc := WPrep), v, w, entries, n - 2)
  {
    var v := u.(slots := u.slots[k.tag := MarkDone(u.slots[k.tag], k.res)]);
    OneTurn(k, u, w, entries, n);
    OneTurn(k.(pc := WLock), v, w, entries, n - 1);
  }

  // From the guards on, with the lock held.
  lemma IssueIsTurns(k: Worker, v: Queue, w: nat, entries: nat)
    requires k.tag < |v.slots| && v.lock == None && v.mutex == None
    ensures var o := Issue(v, entries, w, k.tag);
            Turns(k.(pc := WPrep), v.(lock := Some(w)), w, entries, Length(v, o) - 2) == Some((Returned(k), o.queue))
  {
    var o := Issue(v, entries, w, k.tag);
    OneTurn(k.(pc := WPrep), v.(lock := Some(w)), w, entries, Length(v, o) - 2);
    if o.ret == 1 {
      SignalIsTurns(k, o.queue.(lock := Some(w), inflight := v.inflight, pc := v.pc), w, entries);
    }
  }

  lemma CompleteIsTurns(k: Worker, u: Queue, w: nat, entries: nat)
    requires k.tag < |u.slots| && k.pc == WMark && u.lock == None && u.mutex == None
    ensures var o := Complete(u, entries, w, k.tag, k.res);
            Turns(k, u, w, entries, Length(u, o)) == Some((Returned(k), o.queue))
  {
    var v := u.(slots := u.slots[k.tag := MarkDone(u.slots[k.tag], k.res)]);
    LockIsTurns(k, u, w, entries, Length(u, Complete(u, entries, w, k.tag, k.res)));
    IssueIsTurns(k, v, w, entries);
  }

  // From the decrement of the counter to the unlock.
  lemma SignalIsTurns(k: Worker, p: Queue, w: nat, entries: nat)
    requires k.tag < |p.slots| && p.mutex == None
    ensures var o := p.(lock := None, inflight := p.inflight - 1,
                        pc := if p.inflight == 1 && p.pc == QWaiting then QWoken else p.pc);
            Turns(k.(pc := WDec), p, w, entries, if p.inflight == 1 then 5 else 2) == Some((Returned(k), o))
  {
    var d := p.(inflight := p.inflight - 1);
    if p.inflight == 1 {
      OneTurn(k.(pc := WDec), p, w, entries, 5);
      OneTurn(k.(pc := WSigLock), d, w, entries, 4);
      WakeIsTurns(k, d.(mutex := Some(ByWorker(w))), w, entries);
    } else {
      OneTurn(k.(pc := WDec), p, w, entries, 2);
      OneTurn(k.(pc := WUnlock), d, w, entries, 1);
    }
  }

  // From the signal to the unlock.
  lemma WakeIsTurns(k: Worker, held: Queue, w: nat, entries: nat)
    requires k.tag < |held.slots|
    ensures var o := held.(lock := None, mutex := None, pc := if held.pc == QWaiting then QWoken else held.pc);
            Turns(k.(pc := WSig), held, w, entries, 3) == Some((Returned(k), o))
  {
    var woken := if held.pc == QWaiting then held.(pc := QWoken) else held;
    OneTurn(k.(pc := WSig), held, w, entries, 3);
    OneTurn(k.(pc := WSigUnlock), woken, w, entries, 2);
    OneTurn(k.(pc := WUnlock), woken.(mutex := None), w, entries, 1);
  }

  /** When nothing else runs, ublksrv_complete_io taken instruction by instruction does what `Complete`
      says, in three steps if it gives up, five if it prepares a command, eight if it also signals. */
  lemma CompleteIsWorkerSteps(c: Config, s: State, w: nat)
    requires w < |s.workers| && s.workers[w].q < |s.queues| && s.workers[w].m < |s.msgs| && s.workers[w].pc == WMark
    requires var u := s.queues[s.workers[w].q]; s.workers[w].tag < |u.slots| && u.lock == None && u.mutex == None
    ensures var k := s.workers[w];
            var u := s.queues[k.q];
            var o := Complete(u, c.entries, w, k.tag, k.res);
            Play(c, s, Steps(w, Length(u, o))) == Some(SetBoth(s, w, Returned(k), k.q, o.queue))
  {
    var k := s.workers[w];
    var u := s.queues[k.q];
    assert SetBoth(s, w, k, k.q, u) == s by {
      assert s.workers[w := k] == s.workers && s.queues[k.q := u] == s.queues;
    }
    CompleteIsTurns(k, u, w, c.entries);
    TurnsArePlayed(c, s, w, k, u, Length(u, Complete(u, c.entries, w, k.tag, k.res)));
  }

  // The reap step, and for a request the increment, on the record alone.
  lemma HandleOkIsLocal(u: Queue, e: Completion, entries: nat)
    requires u.pc == QReap && u.head < |u.cq| && !e.target && u.cq[u.head] == Cqe(e.tag, e.res)
    requires e.tag < |u.slots| && e.res == RES_OK
    ensures var h := HandleCqe(u);
            && h.slots[e.tag].iod == u.slots[e.tag].iod && |h.slots| == |u.slots| && h.pc == QDispatch(e.tag)
            && Local(h.(pc := QInc)) == Handle(u, e, entries).(head := u.head + 1)
  {
    var h := HandleCqe(u);
    var v := Noted(u, e);
    assert u.slots[e.tag := u.slots[e.tag]] == u.slots;
    assert h == v.(pc := QDispatch(e.tag), head := u.head + 1);
  }

  lemma HandleFailedIsLocal(u: Queue, e: Completion, entries: nat)
    requires u.pc == QReap && u.head < |u.cq| && !e.target && u.cq[u.head] == Cqe(e.tag, e.res)
    requires e.tag < |u.slots| && e.res != RES_OK && e.res != RES_GET_DATA
    ensures HandleCqe(u) == Handle(u, e, entries).(head := u.head + 1)
  {
    assert HandleCqe(u).slots == Handle(u, e, entries).slots;
  }

  // n steps of one queue thread.
  function Threads(q: nat, n: nat): seq<Label> { seq(n, _ => QStep(q)) }

  lemma OneThread(c: Config, s: State, q: nat, n: nat)
    requires QEnabled(c, s, q) && n > 0
    ensures Play(c, s, Threads(q, n)) == Play(c, QNext(c, s, q), Threads(q, n - 1))
  {
    assert Threads(q, n)[1..] == Threads(q, n - 1);
  }

  lemma SameQueue(s: State, q: nat, u: Queue, v: Queue)
    requires q < |s.queues|
    ensures s.queues[q := u][q := v] == s.queues[q := v]
  {
  }

  // The machine after the hand-over of slot t's request by queue q, whose record is then v.
  function HandedOn(s: State, q: nat, t: nat, v: Queue): State
    requires q < |s.queues| && t < |s.queues[q].slots| && s.free != [] && s.free[0] < |s.msgs|
  {
    var m, d := s.free[0], s.queues[q].slots[t].iod;
    s.(queues := s.queues[q := v], free := s.free[1..], msgs := s.msgs[m := Bind(s.msgs[m], q, t, d)],
       workers := s.workers + [Worker(q, t, m, KindOf(d), Len(d), WSend, false, 0)])
  }

  // Take and bind.
  lemma HandOverSteps(c: Config, s: State, q: nat, t: nat, h: Queue)
    requires q < |s.queues| && h.pc == QDispatch(t) && t < |h.slots| == |s.queues[q].slots| && s.free != [] && s.free[0] < |s.msgs|
    requires h.slots[t].iod == s.queues[q].slots[t].iod
    ensures Play(c, s.(queues := s.queues[q := h]), Threads(q, 3)) == Play(c, HandedOn(s, q, t, h.(pc := QInc)), Threads(q, 1))
  {
    var a := s.(queues := s.queues[q := h]);
    var b := s.(queues := s.queues[q := h.(pc := QBind(t, s.free[0]))], free := s.free[1..]);
    SameQueue(s, q, h, h.(pc := QBind(t, s.free[0])));
    SameQueue(s, q, h.(pc := QBind(t, s.free[0])), h.(pc := QInc));
    OneThread(c, a, q, 3);
    assert QNext(c, a, q) == b;
    OneThread(c, b, q, 2);
    assert QNext(c, b, q) == HandedOn(s, q, t, h.(pc := QInc));
  }

  lemma IncrementStep(c: Config, s: State, q: nat, u: Queue)
    requires q < |s.queues| && s.queues[q] == u && u.pc == QInc
    ensures Play(c, s, Threads(q, 1)) == Some(s.(queues := s.queues[q := Local(u)]))
  {
    OneThread(c, s, q, 1);
    assert Threads(q, 0) == [];
  }

  /** When nothing else runs, one completion taken instruction by instruction - reaped, and for a request
      handed a pooled message, bound, spawned and counted - leaves the queue as `Handle` says. */
  lemma HandleIsQueueSteps(c: Config, s: State, q: nat, e: Completion)
    requires q < |s.queues| && s.queues[q].pc == QReap && s.queues[q].head < |s.queues[q].cq|
    requires !e.target && s.queues[q].cq[s.queues[q].head] == Cqe(e.tag, e.res)
    requires e.tag < |s.queues[q].slots| && e.res != RES_GET_DATA
    requires e.res == RES_OK ==> s.free != [] && s.free[0] < |s.msgs|
    ensures var u := s.queues[q];
            var v := Handle(u, e, c.entries).(head := u.head + 1);
            if e.res == RES_OK then Play(c, s, Threads(q, 4)) == Some(HandedOn(s, q, e.tag, v))
            else Play(c, s, Threads(q, 1)) == Some(s.(queues := s.queues[q := v]))
  {
    var u := s.queues[q];
    var h := HandleCqe(u);
    if e.res == RES_OK { HandleOkIsLocal(u, e, c.entries); } else { HandleFailedIsLocal(u, e, c.entries); }
    OneThread(c, s, q, if e.res == RES_OK then 4 else 1);
    assert QNext(c, s, q) == s.(queues := s.queues[q := h]);
    if e.res == RES_OK {
      HandOverSteps(c, s, q, e.tag, h);
      var b := HandedOn(s, q, e.tag, h.(pc := QInc));
      IncrementStep(c, b, q, h.(pc := QInc));
      SameQueue(s, q, h.(pc := QInc), Local(h.(pc := QInc)));
    } else {
      assert Threads(q, 0) == [];
    }
  }

  /** A completion of the target's own io changes nothing. NEED_GET_DATA on a free lock with room prepares that
      command for the slot, clears its flag word and lowers the counter, although no worker was counted for it. */
  lemma OtherCompletions(u: Queue, e: Completion, entries: nat)
    ensures e.target ==> Handle(u, e, entries) == u
    ensures !e.target && e.tag < |u.slots| && e.res == 1 && u.lock == None && |u.sq| < entries ==>
              var r := Handle(u, e, entries);
              && r.sq == u.sq + [GetData(e.tag)] && r.inflight == u.inflight - 1 && r.lock == None
              && r.slots[e.tag].flags == Flags(false, false, false, false) && r.stopping == u.stopping
  {
  }

  // ---------------------------------------------------------------- a whole batch

  // The OK completions among es, by index, are exactly ks, in order.
  predicate OkIndices(es: seq<Completion>, ks: seq<nat>) {
    && (forall i | 0 <= i < |ks| :: ks[i] < |es| && !es[ks[i]].target && es[ks[i]].res == 0)
    && (forall i, j | 0 <= i < j < |ks| :: ks[i] < ks[j])
    && (forall k: nat | k < |es| && !es[k].target && es[k].res == 0 :: k in ks)
  }

  lemma OkAppend(es: seq<Completion>, ks: seq<nat>, e: Completion) returns (ks': seq<nat>)
    requires OkIndices(es, ks)
    ensures ks' == ks + (if !e.target && e.res == 0 then [|es|] else []) && OkIndices(es + [e], ks')
  {
    ks' := ks + if !e.target && e.res == 0 then [|es|] else [];
    var xs := es + [e];
    forall k: nat | k < |xs| && !xs[k].target && xs[k].res == 0 ensures k in ks' {
      if k < |es| {
        assert k in ks;
      } else {
        assert ks'[|ks|] == k;
      }
    }
  }

  lemma {:induction false} SpawnedIndices(es: seq<Completion>) returns (ks: seq<nat>)
    ensures OkIndices(es, ks) && |Spawned(es)| == |ks|
    ensures forall i | 0 <= i < |ks| :: Spawned(es)[i] == es[ks[i]].tag
  {
    if es == [] {
      ks := [];
    } else {
      var n := |es| - 1;
      var ks' := SpawnedIndices(es[..n]);
      ks := OkAppend(es[..n], ks', es[n]);
      assert es[..n] + [es[n]] == es;
    }
  }

  /** The tags handed over are the tags of the OK completions that are not the target's own, all of them, in the
      order of their completion. */
  lemma SpawnedMeaning(es: seq<Completion>) returns (ks: seq<nat>)
    ensures OkIndices(es, ks) && |Spawned(es)| == |ks|
    ensures forall i | 0 <= i < |ks| :: Spawned(es)[i] == es[ks[i]].tag
    ensures forall t :: t in Spawned(es) <==> exists e <- es :: !e.target && e.res == 0 && e.tag == t
  {
    ks := SpawnedIndices(es);
    SpawnedTags(es, ks);
  }

  lemma SpawnedTags(es: seq<Completion>, ks: seq<nat>)
    requires OkIndices(es, ks) && |Spawned(es)| == |ks| && forall i | 0 <= i < |ks| :: Spawned(es)[i] == es[ks[i]].tag
    ensures forall t :: t in Spawned(es) <==> exists e <- es :: !e.target && e.res == 0 && e.tag == t
  {
    forall e | e in es && !e.target && e.res == 0 ensures e.tag in Spawned(es) {
      var k :| 0 <= k < |es| && es[k] == e;
      var i :| 0 <= i < |ks| && ks[i] == k;
      assert Spawned(es)[i] == e.tag;
    }
    forall t | t in Spawned(es) ensures exists e <- es :: !e.target && e.res == 0 && e.tag == t {
      var i :| 0 <= i < |ks| && Spawned(es)[i] == t;
      assert es[ks[i]] in es;
    }
  }

  // The completions still to be reaped are es.
  predicate Awaits(u: Queue, es: seq<Completion>) {
    && u.pc == QReap && |u.cq| == u.head + |es|
    && (forall i | 0 <= i < |es| :: !es[i].target && u.cq[u.head + i] == Cqe(es[i].tag, es[i].res))
  }

  // Every message in the free channel exists, and there are enough for the requests of es.
  predicate Enough(s: State, es: seq<Completion>) {
    |s.free| >= |Spawned(es)| && forall i | 0 <= i < |s.free| :: s.free[i] < |s.msgs|
  }

  predicate IsNew(k: Worker, q: nat, t: nat, m: nat) { k.q == q && k.tag == t && k.m == m && k.pc == WSend }

  // s' follows s when the requests of es have been handed over by queue q.
  predicate HandedAll(s: State, s': State, q: nat, es: seq<Completion>) {
    && |s'.workers| == |s.workers| + |Spawned(es)| && s'.workers[..|s.workers|] == s.workers
    && |s.free| >= |Spawned(es)|
    && (forall j | |s.workers| <= j < |s'.workers| ::
          IsNew(s'.workers[j], q, Spawned(es)[j - |s.workers|], s.free[j - |s.workers|]))
    && s'.free == s.free[|Spawned(es)|..] && |s'.msgs| == |s.msgs|
  }

  // The first n of es have been reaped by queue q and handed over.
  ghost predicate ReapedTo(c: Config, s: State, t: State, q: nat, es: seq<Completion>, n: nat)
    requires q < |s.queues| && Expected(es, |s.queues[q].slots|) && n <= |es|
  {
    && |t.queues| == |s.queues| && HandedAll(s, t, q, es[..n])
    && t.queues[q] == ReapAll(s.queues[q], es[..n], c.entries).(head := s.queues[q].head + n)
  }

  lemma HandedMore(s: State, t: State, s': State, q: nat, es: seq<Completion>, n: nat)
    requires 0 < n <= |es| && HandedAll(s, t, q, es[..n - 1]) && |s.free| >= |Spawned(es[..n])|
    requires var e := es[n - 1];
             if !e.target && e.res == RES_OK then
               && |t.free| > 0 && s'.free == t.free[1..] && |s'.msgs| == |t.msgs| && |s'.workers| == |t.workers| + 1
               && s'.workers[..|t.workers|] == t.workers
               && IsNew(s'.workers[|t.workers|], q, e.tag, t.free[0])
             else s'.free == t.free && s'.workers == t.workers && |s'.msgs| == |t.msgs|
    ensures HandedAll(s, s', q, es[..n])
  {
    SpawnedGrows(es, n);
    var m := |Spawned(es[..n - 1])|;
    assert s'.workers[..|s.workers|] == t.workers[..|s.workers|];
    forall j | |s.workers| <= j < |s'.workers|
      ensures IsNew(s'.workers[j], q, Spawned(es[..n])[j - |s.workers|], s.free[j - |s.workers|])
    {
      if j < |t.workers| { assert s'.workers[j] == t.workers[j]; }
    }
  }

  // The state after one more completion.
  function AfterOne(c: Config, t: State, q: nat, e: Completion): State
    requires q < |t.queues| && !e.target && e.tag < |t.queues[q].slots|
    requires e.res == RES_OK ==> t.free != [] && t.free[0] < |t.msgs|
  {
    var v := Handle(t.queues[q], e, c.entries).(head := t.queues[q].head + 1);
    if e.res == RES_OK then HandedOn(t, q, e.tag, v) else t.(queues := t.queues[q := v])
  }

  // The next completion is in place.
  lemma ReapReady(c: Config, s: State, t: State, q: nat, es: seq<Completion>, n: nat)
    requires q < |s.queues| && Awaits(s.queues[q], es) && Enough(s, es) && Expected(es, |s.queues[q].slots|) && 0 < n <= |es|
    requires ReapedTo(c, s, t, q, es, n - 1)
    ensures var u, e := t.queues[q], es[n - 1];
            && u.pc == QReap && u.head < |u.cq| && u.cq[u.head] == Cqe(e.tag, e.res) && !e.target && e.tag < |u.slots|
            && e.res != RES_GET_DATA && (e.res == RES_OK ==> t.free != [] && t.free[0] < |t.msgs|)
  {
    assert es[n - 1] in es;
    ReapKeepsRing(s.queues[q], es[..n - 1], c.entries);
    SpawnedGrows(es, n);
  }

  lemma ReapQueue(c: Config, s: State, t: State, q: nat, es: seq<Completion>, n: nat)
    requires q < |s.queues| && Expected(es, |s.queues[q].slots|) && 0 < n <= |es| && !es[n - 1].target
    requires ReapedTo(c, s, t, q, es, n - 1)
    ensures Handle(t.queues[q], es[n - 1], c.entries).(head := t.queues[q].head + 1) ==
              ReapAll(s.queues[q], es[..n], c.entries).(head := s.queues[q].head + n)
  {
    var v, h := ReapAll(s.queues[q], es[..n - 1], c.entries), s.queues[q].head + n - 1;
    ReapAllNext(s.queues[q], es, n, c.entries);
    HandleFrom(t.queues[q], v, es[n - 1], c.entries, h);
  }

  lemma HandleFrom(u: Queue, v: Queue, e: Completion, entries: nat, h: nat)
    requires !e.target && e.tag < |v.slots| && e.res != RES_GET_DATA && u == v.(head := h)
    ensures Handle(u, e, entries).(head := h + 1) == Handle(v, e, entries).(head := h + 1)
  {
    assert Noted(u, e) == Noted(v, e).(head := h);
  }

  lemma ReapAllNext(u: Queue, es: seq<Completion>, n: nat, entries: nat)
    requires Expected(es, |u.slots|) && 0 < n <= |es|
    ensures es[n - 1] in es && (es[n - 1].target || es[n - 1].tag < |u.slots|)
    ensures !es[n - 1].target ==> es[n - 1].res != RES_GET_DATA
    ensures ReapAll(u, es[..n], entries) == Handle(ReapAll(u, es[..n - 1], entries), es[n - 1], entries)
  {
    assert es[..n][..n - 1] == es[..n - 1];
  }

  lemma ReapOne(c: Config, s: State, t: State, q: nat, es: seq<Completion>, n: nat) returns (s': State)
    requires q < |s.queues| && Awaits(s.queues[q], es) && Enough(s, es) && Expected(es, |s.queues[q].slots|) && 0 < n <= |es|
    requires ReapedTo(c, s, t, q, es, n - 1)
    ensures Play(c, t, Threads(q, if es[n - 1].res == RES_OK then 4 else 1)) == Some(s')
    ensures ReapedTo(c, s, s', q, es, n)
  {
    ReapReady(c, s, t, q, es, n);
    ReapQueue(c, s, t, q, es, n);
    s' := AfterOne(c, t, q, es[n - 1]);
    HandleIsQueueSteps(c, t, q, es[n - 1]);
    SpawnedGrows(es, n);
    HandedMore(s, t, s', q, es, n);
  }

  /** When nothing else runs, reaping a batch instruction by instruction leaves the queue as `ReapAll` says and
      spawns one worker for each handed-over tag, in order, with the pooled requests in order. */
  lemma {:induction false} ReapIsQueueSteps(c: Config, s: State, q: nat, es: seq<Completion>, n: nat)
    returns (ls: seq<Label>, s': State)
    requires q < |s.queues| && Awaits(s.queues[q], es) && Enough(s, es) && Expected(es, |s.queues[q].slots|) && n <= |es|
    ensures Play(c, s, ls) == Some(s') && (forall l <- ls :: l == QStep(q))
    ensures ReapedTo(c, s, s', q, es, n)
    decreases n
  {
    if n == 0 {
      ls, s' := [], s;
      assert s.workers[..|s.workers|] == s.workers && s.free[0..] == s.free;
    } else {
      var ms, t := ReapIsQueueSteps(c, s, q, es, n - 1);
      s' := ReapOne(c, s, t, q, es, n);
      var k := if es[n - 1].res == RES_OK then 4 else 1;
      PlayAppend(c, s, ms, Threads(q, k));
      ls := ms + Threads(q, k);
    }
  }

  lemma {:induction false} ReapKeepsRing(u: Queue, es: seq<Completion>, entries: nat)
    requires Expected(es, |u.slots|)
    ensures var r := ReapAll(u, es, entries); r.cq == u.cq && r.head == u.head && r.pc == u.pc
  {
    if es != [] {
      assert es[|es| - 1] in es;
      ReapKeepsRing(u, es[..|es| - 1], entries);
    }
  }

  lemma {:induction false} SpawnedGrows(es: seq<Completion>, n: nat)
    requires 0 < n <= |es|
    ensures var e := es[n - 1];
            Spawned(es[..n]) == Spawned(es[..n - 1]) + if !e.target && e.res == RES_OK then [e.tag] else []
    ensures |Spawned(es[..n])| <= |Spawned(es)|
    decreases |es| - n
  {
    assert es[..n][..n - 1] == es[..n - 1];
    if n < |es| {
      SpawnedGrows(es, n + 1);
    } else {
      assert es[..n] == es;
    }
  }

  // ---------------------------------------------------------------- what a pass does

  predicate Aborts(es: seq<Completion>, u: Queue) {
    u.stopping || exists e <- es :: !e.target && e.res == -19
  }

  predicate DistinctCompletions(es: seq<Completion>) {
    forall i, j | 0 <= i < j < |es| :: !es[i].target && !es[j].target ==> es[i].tag != es[j].tag
  }

  // What completion i leaves in its slot.
  function Reaped(sl: Slot, es: seq<Completion>, i: nat, u: Queue): Slot
    requires i < |es|
  {
    if es[i].res != RES_OK then sl.(flags := FREE_ONLY)
    else if Aborts(es[..i], u) then sl.(flags := sl.flags.(fetch := false))
    else sl
  }

  predicate Mentions(es: seq<Completion>, t: nat) { exists e <- es :: !e.target && e.tag == t }

  lemma HandleMeaning(p: Queue, e: Completion, entries: nat)
    requires !e.target ==> e.tag < |p.slots| && e.res != RES_GET_DATA
    ensures var r := Handle(p, e, entries);
            && r == p.(stopping := Aborts([e], p), inflight := p.inflight + |Spawned([e])|, slots := r.slots)
            && r.slots == if e.target then p.slots else p.slots[e.tag := Reaped(p.slots[e.tag], [e], 0, p)]
  {
    assert [e][..0] == [];
    assert e in [e];
  }

  lemma AbortsAppend(es: seq<Completion>, e: Completion, u: Queue)
    ensures Aborts(es + [e], u) == (Aborts(es, u) || (!e.target && e.res == RES_ABORT))
  {
    if !e.target && e.res == RES_ABORT { assert e in es + [e]; }
    if Aborts(es, u) && !u.stopping {
      var x :| x in es && !x.target && x.res == RES_ABORT;
      assert x in es + [e];
    }
  }

  lemma {:induction false} ReapCounts(u: Queue, es: seq<Completion>, entries: nat)
    requires Expected(es, |u.slots|)
    ensures var r := ReapAll(u, es, entries);
            r == u.(stopping := Aborts(es, u), inflight := u.inflight + |Spawned(es)|, slots := r.slots)
  {
    if es != [] {
      var n := |es| - 1;
      var e, es' := es[n], es[..n];
      assert e in es && es == es' + [e];
      ReapCounts(u, es', entries);
      HandleMeaning(ReapAll(u, es', entries), e, entries);
      AbortsAppend(es', e, u);
      AbortsAppend([], e, ReapAll(u, es', entries));
    }
  }

  // The slots after a reap, one completion later.
  lemma ReapNext(u: Queue, es: seq<Completion>, entries: nat)
    requires es != [] && Expected(es, |u.slots|)
    ensures var n := |es| - 1;
            var e, p := es[n], ReapAll(u, es[..n], entries);
            ReapAll(u, es, entries).slots ==
              if e.target then p.slots else p.slots[e.tag := Reaped(p.slots[e.tag], es, n, u)]
  {
    var n := |es| - 1;
    var e, p := es[n], ReapAll(u, es[..n], entries);
    assert e in es;
    ReapCounts(u, es[..n], entries);
    HandleMeaning(p, e, entries);
    AbortsAppend([], e, p);
    assert [e][..0] == [];
  }

  /** A reap stops the queue exactly when it meets an abort and counts up by the requests handed over
      (`ReapCounts`); it frees the slots of failed commands and no other, and leaves every slot it does not
      mention alone. */
  lemma {:induction false} ReapMeaning(u: Queue, es: seq<Completion>, entries: nat)
    requires Expected(es, |u.slots|) && DistinctCompletions(es)
    ensures var r := ReapAll(u, es, entries);
            && (forall i | 0 <= i < |es| && !es[i].target :: r.slots[es[i].tag] == Reaped(u.slots[es[i].tag], es, i, u))
            && (forall t | 0 <= t < |u.slots| && !Mentions(es, t) :: r.slots[t] == u.slots[t])
  {
    if es != [] {
      var n := |es| - 1;
      var e, es' := es[n], es[..n];
      assert e in es;
      ReapMeaning(u, es', entries);
      ReapNext(u, es, entries);
      forall i | 0 <= i < n ensures es'[i] == es[i] && es'[..i] == es[..i] {
      }
      assert e.target || !Mentions(es', e.tag);
      forall t | 0 <= t < |u.slots| && !Mentions(es, t) ensures !Mentions(es', t) && (e.target || e.tag != t) {
      }
    }
  }

  lemma {:induction false} DiscardMeaning(u: Queue, i: nat)
    requires i <= |u.slots|
    ensures var r := DiscardFrom(u, i);
            && r == u.(pc := QCheck, idle := true, slots := r.slots) && |r.slots| == |u.slots|
            && (forall t | 0 <= t < |u.slots| ::
                  r.slots[t] == if t < i then u.slots[t] else u.slots[t].(buf := Zeros(|u.slots[t].buf|)))
    decreases |u.slots| - i
  {
    if i < |u.slots| { DiscardMeaning(DiscardPage(u, i), i + 1); }
  }

  // The condition under which the pages are given back.
  predicate GoesIdle(u: Queue, es: seq<Completion>, etime: bool) {
    etime && es == [] && !u.stopping && !u.idle
  }

  /** A pass gives the io pages back exactly when it timed out, reaped nothing, and the queue was neither
      stopping nor already idle; it ends idle exactly when it timed out with nothing reaped, except that a
      stopping queue keeps its mark. */
  lemma PassMeaning(u: Queue, es: seq<Completion>, etime: bool, entries: nat)
    requires Expected(es, |u.slots|) && DistinctCompletions(es)
    ensures var r := Pass(u, es, etime, entries);
            && r.sq == [] && r.pc == QCheck && r.lock == u.lock
            && r.stopping == Aborts(es, u)
            && r.inflight == u.inflight + |Spawned(es)|
            && r.idle == (if Aborts(es, u) then u.idle else etime && es == [])
            && |r.slots| == |u.slots|
            && (GoesIdle(u, es, etime) ==>
                  forall t | 0 <= t < |u.slots| :: r.slots[t] == u.slots[t].(buf := Zeros(|u.slots[t].buf|)))
            && (!GoesIdle(u, es, etime) ==> forall t | 0 <= t < |u.slots| :: r.slots[t].buf == u.slots[t].buf)
  {
    var v := u.(sq := []);
    ReapCounts(v, es, entries);
    ReapMeaning(v, es, entries);
    var p := ReapAll(v, es, entries).(etime := etime, reaped := |es|);
    if AfterReap(p).pc == QDiscard(0) { DiscardMeaning(AfterReap(p), 0); }
    forall t | 0 <= t < |u.slots| ensures p.slots[t].buf == u.slots[t].buf {
      if Mentions(es, t) {
        var e :| e in es && !e.target && e.tag == t;
        var i :| 0 <= i < |es| && es[i] == e;
      }
    }
  }

  // ---------------------------------------------------------------- the record itself

  datatype Io = Io(flags: bv32, result: int, buf: seq<bv8>)

  const RET_ENODEV := -19
  const RET_ETIME := -62

  class UblkQueue {
    const depth: nat
    const entries: nat          // of the submission ring
    const ios: array<Io>
    const iods: array<Desc>     // mapped from the driver, which alone writes it
    var state: bv32
    var sq: seq<Cmd>
    var cq: seq<Completion>
    var submitted: seq<Cmd>     // commands the driver has been given
    var handed: seq<nat>        // tags passed to onRequestAsync
    var inflight: int
    var locked: bool
    var signals: nat            // signals sent on the condition variable

    ghost predicate Valid()
      reads this
    {
      ios.Length == iods.Length == depth && depth <= entries
    }

    ghost function Slots(): (r: seq<Slot>)
      requires Valid()
      reads this, ios, iods
      ensures |r| == depth
      ensures forall i | 0 <= i < depth :: r[i] == Slot(FlagsOf(ios[i].flags), ios[i].result, iods[i], ios[i].buf)
    {
      seq(depth, i requires Valid() && 0 <= i < depth reads this, ios, iods =>
        Slot(FlagsOf(ios[i].flags), ios[i].result, iods[i], ios[i].buf))
    }

    // The record as the machine sees it between two calls, with the driver's side left out.
    ghost function View(): Queue
      requires Valid()
      reads this, ios, iods
    {
      Queue(QReap, state & STOPPING != 0, state & IDLE != 0, false, 0, Slots(), sq, {}, [], 0,
            inflight, if locked then Some(0) else None, None, false)
    }

    /** ublksrv_queue_init: whatever the counter held before, the record ends as the machine starts, because
        the counter is reset after the fetch commands have lowered it. */
    constructor (c: Config, uninit: int)
      requires c.depth <= c.entries
      ensures Valid() && fresh(ios) && fresh(iods) && depth == c.depth && entries == c.entries
      ensures View() == InitQueue(c).(pc := QReap)
      ensures cq == [] && submitted == [] && handed == [] && signals == 0
    {
      depth, entries := c.depth, c.entries;
      ios := new Io[c.depth](_ => Io(0, 0, Zeros(c.bufBytes)));
      iods := new Desc[c.depth](_ => Desc(0, 0, 0));
      state, sq, cq, submitted, handed := 0, [], [], [], [];
      inflight, locked, signals := uninit, false, 0;
      new;
      MarkForFetch();
      SubmitFetchCommands();
      inflight, locked, signals := 0, false, 0;
      assert Slots() == InitQueue(c).slots;
    }

    // The flag words ublksrv_queue_init gives the slots.
    method MarkForFetch()
      requires Valid()
      modifies ios
      ensures forall t | 0 <= t < depth :: Slots()[t] == old(Slots()[t]).(flags := Flags(true, false, true, false))
    {
      InitBits();
      for i := 0 to depth
        invariant forall t | 0 <= t < depth :: ios[t] == if t < i then old(ios[t]).(flags := NEED_FETCH | IO_FREE) else old(ios[t])
      {
        ios[i] := ios[i].(flags := NEED_FETCH | IO_FREE);
      }
    }

    // The two guards and the choice of opcode, on the bits of the flag word.
    static method ChooseOp(flags: bv32) returns (op: Option<CmdOp>)
      ensures op == IssueOp(FlagsOf(flags))
    {
      NeedBits(flags);
      if flags & IO_FREE == 0 {
        return None;
      }
      if flags & (NEED_FETCH | NEED_GET_DATA | NEED_COMMIT) == 0 {
        return None;
      }
      if flags & NEED_GET_DATA != 0 {
        op := Some(OpGetData);
      } else if flags & NEED_COMMIT != 0 {
        op := Some(OpCommit);
      } else {
        op := Some(OpFetch);
      }
    }

    method QueueIoCmd(tag: nat) returns (ret: int)
      requires Valid() && tag < depth && !locked
      modifies this`sq, this`inflight, this`locked, this`signals, ios
      ensures Valid()
      ensures var o := Issue(old(View()), entries, 0, tag); View() == o.queue && ret == o.ret
      ensures ret == 1 <==> !locked
      ensures signals == old(signals) + if ret == 1 && old(inflight) == 1 then 1 else 0
    {
      ghost var before := Slots();
      locked := true;
      var op := ChooseOp(ios[tag].flags);
      if op.None? {
        ret := 0;
      } else if |sq| >= entries {
        ret := -1;
      } else {
        sq := sq + [MakeCmd(op.value, tag, ios[tag].result)];
        ios[tag] := ios[tag].(flags := 0);
        inflight := inflight - 1;
        if inflight + 1 == 1 {
          signals := signals + 1;
        }
        locked := false;
        ret := 1;
      }
      assert Slots() == if ret == 1 then before[tag := before[tag].(flags := NO_FLAGS)] else before;
    }

    method MarkIoDone(tag: nat, res: int)
      requires Valid() && tag < depth
      modifies ios
      ensures Valid()
      ensures Slots() == old(Slots())[tag := MarkDone(old(Slots())[tag], res)]
    {
      MarkBits(ios[tag].flags);
      ios[tag] := ios[tag].(flags := ios[tag].flags | (NEED_COMMIT | IO_FREE));
      ios[tag] := ios[tag].(result := res);
      assert Slots() == old(Slots())[tag := Slot(FlagsOf(ios[tag].flags), ios[tag].result, iods[tag], ios[tag].buf)];
    }

    method CompleteIo(tag: nat, res: int) returns (ret: int)
      requires Valid() && tag < depth && !locked
      modifies this`sq, this`inflight, this`locked, this`signals, ios
      ensures Valid()
      ensures var o := Complete(old(View()), entries, 0, tag, res); View() == o.queue && ret == o.ret
      ensures ret == 1 <==> !locked
      ensures signals == old(signals) + if ret == 1 && old(inflight) == 1 then 1 else 0
    {
      MarkIoDone(tag, res);
      ret := QueueIoCmd(tag);
    }

    // Every slot in turn; a refused slot does not stop the loop, and none is refused here.
    method SubmitFetchCommands()
      requires Valid() && !locked && sq == []
      requires forall i | 0 <= i < depth :: Slots()[i].flags == Flags(true, false, true, false)
      modifies this`sq, this`inflight, this`locked, this`signals, ios
      ensures Valid() && !locked
      ensures sq == seq(depth, t requires 0 <= t => Fetch(t))
      ensures Slots() == seq(depth, i requires 0 <= i < depth => old(Slots())[i].(flags := NO_FLAGS))
      ensures inflight == old(inflight) - depth
      ensures signals == old(signals) + if 1 <= old(inflight) <= depth then 1 else 0
    {
      ghost var before := Slots();
      for i := 0 to depth
        invariant Valid() && !locked && |sq| == i && inflight == old(inflight) - i
        invariant forall t | 0 <= t < i :: sq[t] == Fetch(t)
        invariant forall t | 0 <= t < depth :: Slots()[t] == if t < i then before[t].(flags := NO_FLAGS) else before[t]
        invariant signals == old(signals) + if 1 <= old(inflight) <= i then 1 else 0
      {
        var ret := QueueIoCmd(i);
      }
    }

    static method WithoutFetch(flags: bv32) returns (r: bv32)
      ensures FlagsOf(r) == FlagsOf(flags).(fetch := false)
    {
      FetchBits(flags);
      r := flags & !NEED_FETCH;
    }

    // The stores to one slot's flag word.
    method ClearFetch(tag: nat)
      requires Valid() && tag < depth
      modifies ios
      ensures var u := old(View());
              View() == u.(slots := u.slots[tag := u.slots[tag].(flags := u.slots[tag].flags.(fetch := false))])
    {
      var flags := WithoutFetch(ios[tag].flags);
      ios[tag] := ios[tag].(flags := flags);
    }

    method MarkGetData(tag: nat)
      requires Valid() && tag < depth
      modifies ios
      ensures var u := old(View());
              var sl := u.slots[tag];
              View() == u.(slots := u.slots[tag := sl.(flags := sl.flags.(getData := true, free := true))])
    {
      GetDataBits(ios[tag].flags);
      ios[tag] := ios[tag].(flags := ios[tag].flags | (NEED_GET_DATA | IO_FREE));
    }

    method FreeOnly(tag: nat)
      requires Valid() && tag < depth
      modifies ios
      ensures var u := old(View());
              View() == u.(slots := u.slots[tag := u.slots[tag].(flags := FREE_ONLY)])
    {
      ios[tag] := ios[tag].(flags := IO_FREE);
    }

    method Stop()
      requires Valid()
      modifies this`state
      ensures View() == old(View()).(stopping := true)
    {
      StateBits(state);
      state := state | STOPPING;
    }

    method NoteStop(e: Completion)
      requires Valid() && e.tag < depth
      modifies this`state, ios
      ensures View() == Noted(old(View()), e)
    {
      var fetch := e.res != RES_ABORT && state & STOPPING == 0;
      if !fetch {
        Stop();
        ClearFetch(e.tag);
      }
    }

    // demo_handle_io_async: the hand-over to Go, then the increment.
    method HandleIo(tag: nat)
      requires Valid() && tag < depth
      modifies this`handed, this`inflight
      ensures handed == old(handed) + [tag] && View() == old(View()).(inflight := old(inflight) + 1)
    {
      handed := handed + [tag];
      inflight := inflight + 1;
      assert Slots() == old(Slots());
    }

    method HandleCqe(e: Completion)
      requires Valid() && (e.target || (e.tag < depth && (e.res == RES_GET_DATA ==> !locked)))
      modifies this`state, this`sq, this`inflight, this`locked, this`signals, this`handed, ios
      ensures Valid()
      ensures View() == Handle(old(View()), e, entries)
      ensures handed == old(handed) + Spawned([e])
      ensures e.target || e.res != RES_GET_DATA ==> signals == old(signals)
    {
      assert Spawned([e]) == if !e.target && e.res == RES_OK then [e.tag] else [] by { assert [e][..0] == []; }
      if e.target {
        return;
      }
      NoteStop(e);
      if e.res == RES_OK {
        HandleIo(e.tag);
      } else if e.res == RES_GET_DATA {
        MarkGetData(e.tag);
        var _ := QueueIoCmd(e.tag);
      } else {
        FreeOnly(e.tag);
      }
    }

    method ReapEvents() returns (count: nat)
      requires Valid() && Expected(cq, depth)
      modifies this, ios
      ensures Valid() && count == |old(cq)| && cq == []
      ensures View() == ReapAll(old(View()), old(cq), entries)
      ensures handed == old(handed) + Spawned(old(cq))
      ensures signals == old(signals) && submitted == old(submitted)
    {
      count := 0;
      while count < |cq|
        invariant Valid() && count <= |cq| && cq == old(cq)
        invariant View() == ReapAll(old(View()), cq[..count], entries)
        invariant handed == old(handed) + Spawned(cq[..count])
        invariant signals == old(signals) && submitted == old(submitted)
      {
        assert cq[..count + 1][..count] == cq[..count];
        assert cq[count] in cq;
        HandleCqe(cq[count]);
        count := count + 1;
      }
      assert cq[..count] == cq;
      cq := [];
    }

    method QueueIsDone() returns (done: bool)
      requires Valid()
      ensures done <==> View().stopping && sq == []
    {
      done := state & STOPPING != 0 && |sq| == 0;
    }

    method DiscardIoPages()
      requires Valid()
      modifies ios
      ensures Valid()
      ensures Slots() == DiscardFrom(old(View()), 0).slots
    {
      ghost var u := View();
      for i := 0 to depth
        invariant Valid()
        invariant DiscardFrom(View(), i).slots == DiscardFrom(u, 0).slots
      {
        ghost var v := View();
        ios[i] := ios[i].(buf := Zeros(|ios[i].buf|));
        assert DiscardPage(v, i).slots == Slots();
      }
    }

    method IdleEnter()
      requires Valid()
      modifies this`state, ios
      ensures Valid()
      ensures View() == if old(View()).idle then old(View()) else DiscardFrom(old(View()), 0).(pc := QReap)
    {
      if state & IDLE != 0 {
        return;
      }
      DiscardMeaning(View(), 0);
      DiscardIoPages();
      StateBits(state);
      state := state | IDLE;
    }

    method IdleExit()
      requires Valid()
      modifies this`state
      ensures Valid()
      ensures View() == old(View()).(idle := false)
    {
      StateBits(state);
      if state & IDLE != 0 {
        state := state & !IDLE;
      }
    }

    // The end of ublksrv_process_io.
    method FinishPass(ret: int, reaped: nat)
      requires Valid()
      modifies this`state, ios
      ensures Valid()
      ensures View() == Settle(old(View()).(etime := ret == RET_ETIME, reaped := reaped)).(pc := QReap, etime := false, reaped := 0)
    {
      SettleMeaning(View(), ret == RET_ETIME, reaped);
      if state & STOPPING == 0 {
        if ret == RET_ETIME && reaped == 0 && |sq| == 0 {
          IdleEnter();
        } else {
          IdleExit();
        }
      }
    }

    /** The barrier: while the counter is positive the thread sleeps and a worker finishes; ws are their calls
        in order. The wait ends after exactly as many as the counter showed, and leaves the lock free. */
    method AwaitDrained(ws: seq<Finished>)
      requires Valid() && !locked && (forall w <- ws :: w.tag < depth)
      requires |ws| == (if inflight > 0 then inflight else 0) && |sq| + |ws| <= entries
      modifies this`sq, this`inflight, this`locked, this`signals, ios
      ensures Valid() && !locked && inflight <= 0
      ensures View() == CompleteAll(old(View()), ws, entries)
      ensures signals == old(signals) + if ws != [] then 1 else 0
    {
      ghost var u := View();
      var i := 0;
      while inflight > 0
        invariant Valid() && !locked && i <= |ws| && inflight == old(inflight) - i
        invariant View() == CompleteAll(u, ws[..i], entries)
        invariant signals == old(signals) + if i > 0 && i == |ws| then 1 else 0
        decreases inflight
      {
        assert ws[i] in ws;
        CompleteAllCounts(u, ws[..i], entries);
        CompleteCounts(View(), entries, 0, ws[i].tag, ws[i].res);
        var _ := CompleteIo(ws[i].tag, ws[i].res);
        assert ws[..i + 1][..i] == ws[..i];
        i := i + 1;
      }
      assert ws[..i] == ws;
    }

    // The submission, the driver's completions es, and the reap.
    method SubmitAndReap(es: seq<Completion>) returns (reaped: nat)
      requires Valid() && cq == [] && Expected(es, depth)
      modifies this, ios
      ensures Valid() && cq == [] && reaped == |es|
      ensures View() == ReapAll(old(View()).(sq := []), es, entries)
      ensures handed == old(handed) + Spawned(es) && submitted == old(submitted) + old(sq)
    {
      submitted, sq, cq := submitted + sq, [], es;
      assert View() == old(View()).(sq := []);
      reaped := ReapEvents();
    }

    /** One call of ublksrv_process_io: the workers still at work finish as ws, the driver takes every prepared
        command, the wait ends with ret, and es are in the completion ring. */
    method ProcessIo(ws: seq<Finished>, ret: int, es: seq<Completion>) returns (r: int)
      requires Valid() && !locked && cq == [] && Expected(es, depth) && (forall w <- ws :: w.tag < depth)
      requires |ws| == (if inflight > 0 then inflight else 0) && |sq| + |ws| <= entries
      modifies this, ios
      ensures Valid()
      ensures if old(View()).stopping && old(sq) == [] then
                r == -19 && View() == old(View()) && handed == old(handed) && submitted == old(submitted)
              else
                var v := CompleteAll(old(View()), ws, entries);
                && r == |es| && View() == Pass(v, es, ret == -62, entries).(pc := QReap, etime := false, reaped := 0)
                && handed == old(handed) + Spawned(es) && submitted == old(submitted) + v.sq
    {
      var done := QueueIsDone();
      if done {
        return RET_ENODEV;
      }
      AwaitDrained(ws);
      r := SubmitAndReap(es);
      FinishPass(ret, r);
    }
  }
}
