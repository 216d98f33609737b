/** A write lost to an idle discard and committed as done: no run of the array device looks like this run. */
module LostWrite {
  import opened Machine
  import opened PreserveThread
  import opened Device
  import opened Refine
  import opened Runs
  import opened Plays
  import opened Witness

  // ---------------------------------------------------------------- the run

  // A write of sector 0 posted after the reap and before the idle pages are discarded.
  const STORE := Desc(1, 1, 0)

  const POSTED := Req(Write, 0, 512, Ones())

  function Idle(p: QPc, etime: bool): Queue { InitQueue(DEMO).(pc := p, sq := [], kern := {0, 1}, etime := etime) }

  lemma IdleReap() returns (ls: seq<Label>)
    ensures At(ls, With(Init(DEMO), Idle(QPost, true)), FETCHED)
  {
    ls := Boot();
    InitShape();
    var a := With(Init(DEMO), Idle(QReap, true));
    assert Next(DEMO, Booted(), KReturn(0, true)).queues == a.queues;
    Go(ls, Booted(), FETCHED, KReturn(0, true), a);
    ls := ls + [KReturn(0, true)];
    GoThread(ls, a, FETCHED, Idle(QReap, true), Idle(QPost, true));
    ls := ls + [QStep(0)];
    assert a.(queues := [Idle(QPost, true)]) == With(Init(DEMO), Idle(QPost, true));
  }

  // The driver filled slot 0's buffer for the write; its completion is still unreaped.
  function Filled(p: QPc): Queue {
    Idle(p, true).(kern := {1}, cq := [Cqe(0, RES_OK)], slots := [Slot(NO_FLAGS, 0, STORE, Ones()), Blank()])
  }

  lemma IdleFilled() returns (ls: seq<Label>)
    ensures At(ls, With(Init(DEMO), Filled(QPost)), SHOWN)
  {
    ls := IdleReap();
    StoreWords();
    var l := KPost(0, 0, STORE, Ones());
    var u := Idle(QPost, true);
    assert u.slots == [Blank(), Blank()] && Blit(Zeros(512), Ones(), 512) == Ones();
    assert u.slots[0 := Slot(NO_FLAGS, 0, STORE, Ones())] == Filled(QPost).slots;
    assert {0, 1} - {0} == {1} && u.cq + [Cqe(0, RES_OK)] == [Cqe(0, RES_OK)];
    assert Next(DEMO, With(Init(DEMO), u), l).queues == [Filled(QPost)];
    Go(ls, With(Init(DEMO), u), FETCHED, l, With(Init(DEMO), Filled(QPost)));
    ls := ls + [l];
  }

  // A step of the only worker on its own and its queue's records.
  lemma GoWorker(ls: seq<Label>, s: State, tr: seq<Event>, u: Queue, k: Worker, u': Queue, k': Worker)
    requires At(ls, s, tr) && s.queues == [u] && s.workers == [k] && WEnabled(DEMO, s, 0)
    requires WNext(DEMO, s, 0) == SetBoth(s, 0, k', 0, u')
    ensures At(ls + [WStep(0)], s.(queues := [u'], workers := [k']), tr)
  {
    Go(ls, s, tr, WStep(0), s.(queues := [u'], workers := [k']));
  }

  const SHOWN: seq<Event> := FETCHED + [EArrive(0, 0, POSTED)]

  function StoreSlot(f: Flags, res: int): Slot { Slot(f, res, STORE, Zeros(512)) }

  // The queue after its pages are gone, with slot 0 as given.
  function Emptied(p: QPc, sl: Slot): Queue { Filled(p).(slots := [sl, Blank()], idle := true, etime := false) }

  function Bare(): Slot { StoreSlot(NO_FLAGS, 0) }

  lemma Discarded() returns (ls: seq<Label>)
    ensures At(ls, With(Init(DEMO), Emptied(QCheck, Bare()).(etime := true)), SHOWN)
  {
    ls := IdleFilled();
    var s := With(Init(DEMO), Filled(QDiscard(0)));
    GoThread(ls, With(Init(DEMO), Filled(QPost)), SHOWN, Filled(QPost), Filled(QDiscard(0)));
    ls := ls + [QStep(0)];
    assert With(Init(DEMO), Filled(QPost)).(queues := [Filled(QDiscard(0))]) == s;
    var u1 := Emptied(QDiscard(1), Bare()).(idle := false, etime := true);
    assert Filled(QDiscard(0)).slots[0 := Bare()] == u1.slots;
    GoThread(ls, s, SHOWN, Filled(QDiscard(0)), u1);
    ls := ls + [QStep(0)];
    assert u1.slots[1 := Blank()] == u1.slots;
    GoThread(ls, With(s, u1), SHOWN, u1, u1.(pc := QDiscard(2)));
    ls := ls + [QStep(0)];
    GoThread(ls, With(s, u1.(pc := QDiscard(2))), SHOWN, u1.(pc := QDiscard(2)), Emptied(QCheck, Bare()).(etime := true));
    ls := ls + [QStep(0)];
  }

  // The write has been reaped; its request is about to be bound.
  function StoreReaped(p: QPc, sl: Slot): Queue { Emptied(p, sl).(head := 1) }

  lemma BackFromDriver() returns (ls: seq<Label>)
    ensures At(ls, With(Init(DEMO), Emptied(QReap, Bare())), SHOWN)
  {
    ls := Discarded();
    var i := Init(DEMO);
    var u := Emptied(QSubmit, Bare()).(etime := true);
    ls := Through(ls, With(i, u.(pc := QCheck)), SHOWN, u.(pc := QCheck));
    var a := With(i, Emptied(QReap, Bare()));
    assert With(i, u.(pc := QCheck)).(queues := [u]) == With(i, u);
    assert Next(DEMO, With(i, u), KReturn(0, false)).queues == a.queues;
    Go(ls, With(i, u), SHOWN, KReturn(0, false), a);
    ls := ls + [KReturn(0, false)];
  }

  lemma Reap() returns (ls: seq<Label>)
    ensures At(ls, With(Init(DEMO), StoreReaped(QBind(0, 0), Bare())).(free := []), SHOWN)
  {
    ls := BackFromDriver();
    InitShape();
    var i := Init(DEMO);
    var a := With(i, Emptied(QReap, Bare()));
    assert Emptied(QReap, Bare()).slots[0 := Bare()] == Emptied(QReap, Bare()).slots;
    GoThread(ls, a, SHOWN, Emptied(QReap, Bare()), StoreReaped(QDispatch(0), Bare()));
    ls := ls + [QStep(0)];
    var b := With(i, StoreReaped(QDispatch(0), Bare()));
    var d := With(i, StoreReaped(QBind(0, 0), Bare())).(free := []);
    assert a.(queues := [StoreReaped(QDispatch(0), Bare())]) == b;
    assert Next(DEMO, b, QStep(0)).queues == d.queues && Next(DEMO, b, QStep(0)).free == [];
    Go(ls, b, SHOWN, QStep(0), d);
    ls := ls + [QStep(0)];
  }

  function StoreMsg(): Msg { Bind(InitMsg(DEMO, 0), 0, 0, STORE) }

  function StoreWorker(p: WPc): Worker { Worker(0, 0, 0, Write, 512, p, false, 0) }

  // The request is out: queue, worker, message and handlers as given.
  function Out(u: Queue, k: Worker, m: Msg, hs: seq<Handler>): State {
    With(Init(DEMO), u).(workers := [k], msgs := [m], free := [], handlers := hs)
  }

  lemma StoreWords()
    ensures KindOf(STORE) == Write && Len(STORE) == 512 && Off(STORE) == 0 && DescOk(DEMO, STORE)
  {
  }

  lemma StoreBound() returns (ls: seq<Label>)
    ensures At(ls, Out(StoreReaped(QInc, Bare()), StoreWorker(WSend), StoreMsg(), []), SHOWN)
  {
    ls := Reap();
    StoreWords();
    InitShape();
    var b := With(Init(DEMO), StoreReaped(QBind(0, 0), Bare())).(free := []);
    var d := Out(StoreReaped(QInc, Bare()), StoreWorker(WSend), StoreMsg(), []);
    var b' := Next(DEMO, b, QStep(0));
    assert b'.queues == d.queues && b'.msgs == d.msgs && b'.workers == d.workers;
    Go(ls, b, SHOWN, QStep(0), d);
    ls := ls + [QStep(0)];
  }

  lemma StoreLaunched() returns (ls: seq<Label>)
    ensures At(ls, Out(StoreReaped(QReap, Bare()).(inflight := 1), StoreWorker(WSend), StoreMsg(), []), SHOWN)
  {
    ls := StoreBound();
    var d := Out(StoreReaped(QInc, Bare()), StoreWorker(WSend), StoreMsg(), []);
    var u := StoreReaped(QReap, Bare()).(inflight := 1);
    GoThread(ls, d, SHOWN, StoreReaped(QInc, Bare()), u);
    ls := ls + [QStep(0)];
    assert d.(queues := [u]) == Out(u, StoreWorker(WSend), StoreMsg(), []);
  }

  lemma StoreHandedOn() returns (ls: seq<Label>)
    ensures At(ls, Out(StoreReaped(QReap, Bare()).(inflight := 1), StoreWorker(WWait), StoreMsg(), [Handler(0, HCall)]), SHOWN)
  {
    ls := StoreLaunched();
    StoreWords();
    var u := StoreReaped(QReap, Bare()).(inflight := 1);
    var s := Out(u, StoreWorker(WSend), StoreMsg(), []);
    var a := Out(u, StoreWorker(WWait), StoreMsg(), []);
    assert Next(DEMO, s, WStep(0)).workers == a.workers && Next(DEMO, s, WStep(0)).req == [0];
    Go(ls, s, SHOWN, WStep(0), a.(req := [0]));
    ls := ls + [WStep(0)];
    assert [0][1..] == [];
    Go(ls, a.(req := [0]), SHOWN, DStep, a.(disp := Some(0)));
    ls := ls + [DStep];
    var h := Out(u, StoreWorker(WWait), StoreMsg(), [Handler(0, HCall)]);
    assert Next(DEMO, a.(disp := Some(0)), DStep).handlers == h.handlers;
    Go(ls, a.(disp := Some(0)), SHOWN, DStep, h);
    ls := ls + [DStep];
  }

  // The handler writes what the slot buffer holds now: zeros.
  lemma StoreCalled() returns (ls: seq<Label>)
    ensures At(ls, Out(StoreReaped(QReap, Bare()).(inflight := 1), StoreWorker(WWait), StoreMsg(), [Handler(0, HSignal)]), SHOWN)
  {
    ls := StoreHandedOn();
    StoreWords();
    var u := StoreReaped(QReap, Bare()).(inflight := 1);
    var a := Out(u, StoreWorker(WWait), StoreMsg(), [Handler(0, HCall)]);
    var b := Out(u, StoreWorker(WWait), StoreMsg(), [Handler(0, HSignal)]);
    var l := HStep(0, false, []);
    assert Aliased(a, Alias(0, 0, 512)) == Zeros(512) by { assert Zeros(512)[..512] == Zeros(512); }
    assert WriteAt(Zeros(512), 0, Zeros(512)) == Zeros(512);
    assert Next(DEMO, a, l).handlers == b.handlers && Next(DEMO, a, l).disk == b.disk;
    Go(ls, a, SHOWN, l, b);
    ls := ls + [l];
  }

  lemma StoreHandled() returns (ls: seq<Label>)
    ensures At(ls, Out(StoreReaped(QReap, Bare()).(inflight := 1), StoreWorker(WCopy), StoreMsg(), [Handler(0, HDone)]), SHOWN)
  {
    ls := StoreCalled();
    StoreWords();
    var u := StoreReaped(QReap, Bare()).(inflight := 1);
    var b := Out(u, StoreWorker(WWait), StoreMsg(), [Handler(0, HSignal)]);
    var d := Out(u, StoreWorker(WWait), StoreMsg().(complete := 1), [Handler(0, HDone)]);
    var l := HStep(0, false, []);
    assert Next(DEMO, b, l).handlers == d.handlers && Next(DEMO, b, l).msgs == d.msgs;
    Go(ls, b, SHOWN, l, d);
    ls := ls + [l];
    var e := Out(u, StoreWorker(WCopy), StoreMsg(), [Handler(0, HDone)]);
    assert Next(DEMO, d, WStep(0)).msgs == e.msgs && Next(DEMO, d, WStep(0)).workers == e.workers;
    Go(ls, d, SHOWN, WStep(0), e);
    ls := ls + [WStep(0)];
  }

  // The state from here on: only the queue and the worker move.
  function LateStore(u: Queue, k: Worker): State { Out(u, k, StoreMsg(), [Handler(0, HDone)]) }

  function Ending(p: WPc): Worker { StoreWorker(p).(res := 512) }

  function ReadySlot(res: int): Slot { StoreSlot(COMMIT_FREE, res) }

  lemma Marked() returns (ls: seq<Label>)
    ensures At(ls, LateStore(StoreReaped(QReap, ReadySlot(512)).(inflight := 1, lock := Some(0)), Ending(WPrep)), SHOWN)
  {
    ls := StoreHandled();
    StoreWords();
    var u, v := StoreReaped(QReap, Bare()).(inflight := 1), StoreReaped(QReap, ReadySlot(512)).(inflight := 1);
    assert u.slots[0 := Bare()] == u.slots;
    GoWorker(ls, LateStore(u, StoreWorker(WCopy)), SHOWN, u, StoreWorker(WCopy), u, Ending(WMark));
    ls := ls + [WStep(0)];
    assert u.slots[0 := ReadySlot(512)] == v.slots;
    GoWorker(ls, LateStore(u, Ending(WMark)), SHOWN, u, Ending(WMark), v, Ending(WLock));
    ls := ls + [WStep(0)];
    GoWorker(ls, LateStore(v, Ending(WLock)), SHOWN, v, Ending(WLock), v.(lock := Some(0)), Ending(WPrep));
    ls := ls + [WStep(0)];
  }

  function Done0(): Slot { StoreSlot(NO_FLAGS, 512) }

  // The commit is in the ring.
  function Prepared(p: QPc): Queue { StoreReaped(p, Done0()).(sq := [Commit(0, 512)]) }

  lemma CommitCounted() returns (ls: seq<Label>)
    ensures At(ls, LateStore(Prepared(QReap).(lock := Some(0)), Ending(WSigLock)), SHOWN)
  {
    ls := Marked();
    var v := StoreReaped(QReap, ReadySlot(512)).(inflight := 1, lock := Some(0));
    var p := Prepared(QReap).(lock := Some(0));
    assert v.slots[0 := Done0()] == p.slots && v.sq + [Commit(0, 512)] == [Commit(0, 512)];
    GoWorker(ls, LateStore(v, Ending(WPrep)), SHOWN, v, Ending(WPrep), p.(inflight := 1), Ending(WDec));
    ls := ls + [WStep(0)];
    GoWorker(ls, LateStore(p.(inflight := 1), Ending(WDec)), SHOWN, p.(inflight := 1), Ending(WDec), p, Ending(WSigLock));
    ls := ls + [WStep(0)];
  }

  lemma Signalled() returns (ls: seq<Label>)
    ensures At(ls, LateStore(Prepared(QReap), Ending(WReturn)), SHOWN)
  {
    ls := CommitCounted();
    var p := Prepared(QReap).(lock := Some(0));
    var m := p.(mutex := Some(ByWorker(0)));
    GoWorker(ls, LateStore(p, Ending(WSigLock)), SHOWN, p, Ending(WSigLock), m, Ending(WSig));
    ls := ls + [WStep(0)];
    GoWorker(ls, LateStore(m, Ending(WSig)), SHOWN, m, Ending(WSig), m, Ending(WSigUnlock));
    ls := ls + [WStep(0)];
    GoWorker(ls, LateStore(m, Ending(WSigUnlock)), SHOWN, m, Ending(WSigUnlock), p, Ending(WUnlock));
    ls := ls + [WStep(0)];
    GoWorker(ls, LateStore(p, Ending(WUnlock)), SHOWN, p, Ending(WUnlock), Prepared(QReap), Ending(WReturn));
    ls := ls + [WStep(0)];
  }

  const COMMITTED: seq<Event> := SHOWN + [ECommit(0, 0, Resp(512, []))]

  lemma Submitted() returns (ls: seq<Label>, s: State)
    ensures At(ls, s, COMMITTED) && s.disk == Zeros(512)
  {
    ls := Signalled();
    StoreWords();
    var k := Ending(WReturn);
    var b := Prepared(QPost).(reaped := 1, cq := [], head := 0);
    GoThread(ls, LateStore(Prepared(QReap), k), SHOWN, Prepared(QReap), b);
    ls := ls + [QStep(0)];
    var e := b.(pc := QCheck, idle := false);
    GoThread(ls, LateStore(b, k), SHOWN, b, e);
    ls := ls + [QStep(0)];
    ls := Through(ls, LateStore(e, k), SHOWN, e);
    s := LateStore(e.(pc := QSubmit), k);
    assert LateStore(e, k).(queues := [e.(pc := QSubmit)]) == s;
    assert EventOf(DEMO, s, KTake(0)) == Some(ECommit(0, 0, Resp(512, [])));
    Go(ls, s, SHOWN, KTake(0), Next(DEMO, s, KTake(0)));
    s := Next(DEMO, s, KTake(0));
    ls := ls + [KTake(0)];
  }

  // ---------------------------------------------------------------- what the array device does with these events

  // Where the array device stands once n of the events have been seen.
  ghost predicate Stage(d: Dev, n: nat) {
    && |d.slots| == 1 && |d.slots[0]| == 2
    && d.slots[0][0] == (match n
                         case 0 => Unfetched
                         case 3 => if d.disk == Ones() then Done(POSTED, Resp(512, [])) else Pending(POSTED)
                         case _ => Armed)
    && d.slots[0][1] == (if n < 2 then Unfetched else Armed)
    && d.disk == (if n < 3 then Zeros(512) else if n == 3 && d.slots[0][0].Pending? then Zeros(512) else Ones())
  }

  lemma Distinguished()
    ensures Ones() != Zeros(512) && |COMMITTED| == 4
    ensures forall disk: seq<bv8> | |disk| == 512 :: Spliced(disk, 0, Ones()) == Ones()
  {
    assert Ones()[0] != Zeros(512)[0];
    forall disk: seq<bv8> | |disk| == 512 ensures Spliced(disk, 0, Ones()) == Ones() {
    }
  }

  lemma StageStep(d: Dev, m: Move, n: nat)
    requires Stage(d, n) && DevEnabled(d, m) && !m.Lose?
    requires n + |Shown1(m)| <= 4 && Shown1(m) == COMMITTED[n..n + |Shown1(m)|]
    ensures Stage(DevNext(d, m), n + |Shown1(m)|)
  {
    Distinguished();
    match m {
      case Apply(q, t, fill) => assert n == 3 && d.slots[0][0] == Pending(POSTED);
      case External(e) => assert e == COMMITTED[n];
    }
  }

  lemma {:induction false} ShownGrows(moves: seq<Move>, k: nat)
    requires k <= |moves|
    ensures |Shown(moves[..k])| <= |Shown(moves)| && Shown(moves[..k]) == Shown(moves)[..|Shown(moves[..k])|]
  {
    if k < |moves| {
      var n := |moves| - 1;
      ShownGrows(moves[..n], k);
      assert moves[..n][..k] == moves[..k];
    } else {
      assert moves[..k] == moves;
    }
  }

  lemma {:induction false} Stages(d: DevRun, k: nat)
    requires IsDevRun(DEMO, d) && Shown(d.moves) == COMMITTED && k <= |d.moves|
    ensures |Shown(d.moves[..k])| <= 4 && Stage(d.devs[k], |Shown(d.moves[..k])|)
  {
    ShownGrows(d.moves, k);
    if k == 0 {
      Distinguished();
    } else {
      Stages(d, k - 1);
      assert MoveAt(d, k - 1);
      assert d.moves[..k][..k - 1] == d.moves[..k - 1];
      assert Shown(d.moves[..k]) == Shown(d.moves[..k - 1]) + Shown1(d.moves[k - 1]);
      assert d.moves[k - 1] in d.moves;
      StageStep(d.devs[k - 1], d.moves[k - 1], |Shown(d.moves[..k - 1])|);
    }
  }

  /** Outside quiet runs linearizability fails: this errorless run commits a write of ones as done and leaves
      the array zero, while every run of the array device with the same trace leaves it written. */
  lemma LostWriteIsNoArray() returns (r: Run)
    ensures ValidConfig(DEMO) && IsRun(DEMO, r) && Errorless(r) && !Quiet(r)
    ensures forall d | IsDevRun(DEMO, d) && Shown(d.moves) == Trace(DEMO, r, |r.labels|) :: Last(d.devs).disk != Last(r.states).disk
  {
    var ls, s := Submitted();
    r := PlayedRun(DEMO, ls);
    forall i | 0 <= i < |r.labels| ensures NoError(r.labels[i]) {
      assert r.labels[i] in ls;
    }
    forall d | IsDevRun(DEMO, d) && Shown(d.moves) == Trace(DEMO, r, |r.labels|)
      ensures Last(d.devs).disk != Last(r.states).disk
    {
      Stages(d, |d.moves|);
      assert d.moves[..|d.moves|] == d.moves;
      Distinguished();
    }
    var e := Linearizable(DEMO, r);
  }
}
