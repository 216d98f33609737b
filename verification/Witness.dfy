/** Concrete runs that leave the guarded territory: a handler error, an early abort. */
module Witness {
  import opened Machine
  import opened Ledger
  import opened PreserveThread
  import opened Device
  import opened Refine
  import opened Runs
  import opened Plays

  // ---------------------------------------------------------------- one queue, two slots, one request

  const DEMO := Config(1, 2, 2, 1, 1, 1, 512, 512, 1, Zeros(512))

  // A discard of the first sector.
  const TRIM := Desc(3, 1, 0)

  function Ones(): seq<bv8> { seq(512, _ => 1) }

  function With(s: State, u: Queue): State { s.(queues := [u]) }

  const FETCHED: seq<Event> := [EFetch(0, 0), EFetch(0, 1)]

  // The start-up commands have been submitted and the thread is in the driver.
  function Booted(): State {
    With(Init(DEMO), InitQueue(DEMO).(pc := QSubmit, sq := [], kern := {0, 1}))
  }

  lemma InitShape()
    ensures Init(DEMO) == With(Init(DEMO), InitQueue(DEMO))
    ensures InitQueue(DEMO).sq == [Fetch(0), Fetch(1)]
    ensures Init(DEMO).free == [0] && Init(DEMO).msgs == [InitMsg(DEMO, 0)]
  {
  }

  // ---------------------------------------------------------------- playing

  // Played to s without a failing call, showing tr.
  ghost predicate At(ls: seq<Label>, s: State, tr: seq<Event>) {
    && Play(DEMO, Init(DEMO), ls) == Some(s) && Shows(DEMO, Init(DEMO), ls) == tr
    && forall l <- ls :: NoError(l)
  }

  lemma Go(ls: seq<Label>, s: State, tr: seq<Event>, l: Label, s': State)
    requires At(ls, s, tr) && Enabled(DEMO, s, l) && Next(DEMO, s, l) == s' && NoError(l)
    ensures At(ls + [l], s', tr + Visible(EventOf(DEMO, s, l)))
  {
    Then(DEMO, ls, l);
    ThenShows(DEMO, ls, l);
  }

  // A step of the queue thread on its own record.
  lemma GoThread(ls: seq<Label>, s: State, tr: seq<Event>, u: Queue, u': Queue)
    requires At(ls, s, tr) && s.queues == [u] && QEnabled(DEMO, s, 0) && !u.pc.QDispatch? && !u.pc.QBind? && Local(u) == u'
    ensures At(ls + [QStep(0)], s.(queues := [u']), tr)
  {
    assert Next(DEMO, s, QStep(0)).queues == [u'];
    Go(ls, s, tr, QStep(0), s.(queues := [u']));
  }

  // From the head of the loop through the barrier.
  lemma Through(ls: seq<Label>, s: State, tr: seq<Event>, u: Queue) returns (ls': seq<Label>)
    requires At(ls, s, tr) && s.queues == [u] && u.pc == QCheck && !u.stopping && u.mutex == None && u.inflight <= 0
    ensures At(ls', s.(queues := [u.(pc := QSubmit)]), tr)
  {
    var t, v := u.(pc := QTest, mutex := Some(ByQueueThread)), u.(pc := QRelease, mutex := Some(ByQueueThread));
    GoThread(ls, s, tr, u, u.(pc := QLock));
    ls' := ls + [QStep(0)];
    GoThread(ls', s.(queues := [u.(pc := QLock)]), tr, u.(pc := QLock), t);
    ls' := ls' + [QStep(0)];
    GoThread(ls', s.(queues := [t]), tr, t, v);
    ls' := ls' + [QStep(0)];
    GoThread(ls', s.(queues := [v]), tr, v, u.(pc := QSubmit));
    ls' := ls' + [QStep(0)];
  }

  lemma Boot() returns (ls: seq<Label>)
    ensures At(ls, Booted(), FETCHED)
  {
    InitShape();
    var u := InitQueue(DEMO).(pc := QSubmit);
    ls := Through([], Init(DEMO), [], InitQueue(DEMO));
    var s := With(Init(DEMO), u);
    var a := With(Init(DEMO), u.(sq := [Fetch(1)], kern := {0}));
    assert u.sq[1..] == [Fetch(1)] && u.kern + {0} == {0};
    assert Next(DEMO, s, KTake(0)).queues == a.queues;
    Go(ls, s, [], KTake(0), a);
    ls := ls + [KTake(0)];
    assert [Fetch(1)][1..] == [] && {0} + {1} == {0, 1};
    assert Next(DEMO, a, KTake(0)).queues == Booted().queues;
    Go(ls, a, [EFetch(0, 0)], KTake(0), Booted());
    ls := ls + [KTake(0)];
  }

  // ---------------------------------------------------------------- a discard request in flight

  function TrimSlot(): Slot { Slot(NO_FLAGS, 0, TRIM, Zeros(512)) }

  function Blank(): Slot { Slot(NO_FLAGS, 0, Desc(0, 0, 0), Zeros(512)) }

  function TrimWorker(p: WPc): Worker { Worker(0, 0, 0, Unmap, 512, p, false, 0) }

  function TrimMsg(): Msg { Bind(InitMsg(DEMO, 0), 0, 0, TRIM) }

  // The queue while slot 0's request is out and slot 1's command is with the driver.
  function Busy1(p: QPc, sl: Slot, inflight: int): Queue {
    InitQueue(DEMO).(pc := p, slots := [sl, Blank()], sq := [], kern := {1}, cq := [Cqe(0, RES_OK)], head := 1, inflight := inflight)
  }

  function Shot(u: Queue, k: Worker, m: Msg): State {
    With(Init(DEMO), u).(workers := [k], msgs := [m], free := [])
  }

  function Launched(): State { Shot(Busy1(QReap, TrimSlot(), 1), TrimWorker(WSend), TrimMsg()) }

  lemma TrimWords()
    ensures KindOf(TRIM) == Unmap && Len(TRIM) == 512 && Off(TRIM) == 0 && DescOk(DEMO, TRIM)
  {
  }

  lemma Posted() returns (ls: seq<Label>)
    ensures Reached(ls, With(Init(DEMO), Busy1(QSubmit, TrimSlot(), 0).(head := 0)))
  {
    ls := Boot();
    TrimWords();
    var l := KPost(0, 0, TRIM, []);
    var a := With(Init(DEMO), Busy1(QSubmit, TrimSlot(), 0).(head := 0));
    var b := Booted().queues[0];
    assert b.slots == [Blank(), Blank()] && b.slots[0 := TrimSlot()] == [TrimSlot(), Blank()];
    assert Blit(Zeros(512), [], 0) == Zeros(512);
    assert {0, 1} - {0} == {1} && b.cq + [Cqe(0, RES_OK)] == [Cqe(0, RES_OK)];
    assert Next(DEMO, Booted(), l).queues == a.queues;
    Onward(ls, Booted(), l, a);
    ls := ls + [l];
  }

  lemma Post() returns (ls: seq<Label>)
    ensures Reached(ls, With(Init(DEMO), Busy1(QReap, TrimSlot(), 0).(head := 0)))
  {
    ls := Posted();
    var u := Busy1(QSubmit, TrimSlot(), 0).(head := 0);
    assert Next(DEMO, With(Init(DEMO), u), KReturn(0, false)).queues == [u.(pc := QReap)];
    Onward(ls, With(Init(DEMO), u), KReturn(0, false), With(Init(DEMO), u.(pc := QReap)));
    ls := ls + [KReturn(0, false)];
  }

  // Reached by a list of labels without a failing call.
  ghost predicate Reached(ls: seq<Label>, s: State) {
    Play(DEMO, Init(DEMO), ls) == Some(s) && forall l <- ls :: NoError(l)
  }

  lemma Onward(ls: seq<Label>, s: State, l: Label, s': State)
    requires Reached(ls, s) && Enabled(DEMO, s, l) && Next(DEMO, s, l) == s' && NoError(l)
    ensures Reached(ls + [l], s')
  {
    Then(DEMO, ls, l);
  }

  lemma Take() returns (ls: seq<Label>)
    ensures Reached(ls, With(Init(DEMO), Busy1(QBind(0, 0), TrimSlot(), 0)).(free := []))
  {
    ls := Post();
    InitShape();
    var s := With(Init(DEMO), Busy1(QReap, TrimSlot(), 0).(head := 0));
    var a := With(Init(DEMO), Busy1(QDispatch(0), TrimSlot(), 0));
    var b := With(Init(DEMO), Busy1(QBind(0, 0), TrimSlot(), 0)).(free := []);
    assert s.queues[0].slots[0 := TrimSlot()] == s.queues[0].slots;
    assert Next(DEMO, s, QStep(0)).queues == a.queues;
    Onward(ls, s, QStep(0), a);
    ls := ls + [QStep(0)];
    assert Next(DEMO, a, QStep(0)).queues == b.queues && Next(DEMO, a, QStep(0)).free == [];
    Onward(ls, a, QStep(0), b);
    ls := ls + [QStep(0)];
  }

  lemma Launch() returns (ls: seq<Label>)
    ensures Reached(ls, Launched())
  {
    ls := Take();
    TrimWords();
    InitShape();
    var b := With(Init(DEMO), Busy1(QBind(0, 0), TrimSlot(), 0)).(free := []);
    var d := Shot(Busy1(QInc, TrimSlot(), 0), TrimWorker(WSend), TrimMsg());
    assert Next(DEMO, b, QStep(0)).queues == d.queues && Next(DEMO, b, QStep(0)).msgs == d.msgs;
    assert Next(DEMO, b, QStep(0)).workers == d.workers;
    Onward(ls, b, QStep(0), d);
    ls := ls + [QStep(0)];
    assert Next(DEMO, d, QStep(0)).queues == Launched().queues;
    Onward(ls, d, QStep(0), Launched());
    ls := ls + [QStep(0)];
  }

  // ---------------------------------------------------------------- an abort before the request drained

  // The queue after reaping an abort of slot 1 while slot 0's worker is still at work.
  function Aborted(p: QPc): Queue {
    Busy1(p, TrimSlot(), 1).(kern := {}, closed := true, stopping := true, slots := [TrimSlot(), Blank().(flags := FREE_ONLY)],
                             cq := [Cqe(0, RES_OK), Cqe(1, RES_ABORT)], head := 2)
  }

  lemma AbortReaped() returns (ls: seq<Label>)
    ensures Reached(ls, Shot(Aborted(QReap), TrimWorker(WSend), TrimMsg()))
  {
    ls := Launch();
    var k, m := TrimWorker(WSend), TrimMsg();
    var u := Busy1(QReap, TrimSlot(), 1);
    var a := u.(kern := {}, cq := [Cqe(0, RES_OK), Cqe(1, RES_ABORT)], closed := true);
    var l := KFail(0, 1, RES_ABORT);
    assert {1} - {1} == {} && u.cq + [Cqe(1, RES_ABORT)] == a.cq;
    assert Next(DEMO, Launched(), l).queues == [a];
    Onward(ls, Launched(), l, Shot(a, k, m));
    ls := ls + [l];
    assert a.slots[1 := Blank().(flags := FREE_ONLY)] == Aborted(QReap).slots;
    assert Next(DEMO, Shot(a, k, m), QStep(0)).queues == [Aborted(QReap)];
    Onward(ls, Shot(a, k, m), QStep(0), Shot(Aborted(QReap), k, m));
    ls := ls + [QStep(0)];
  }

  lemma Leave() returns (ls: seq<Label>)
    ensures Reached(ls, Shot(Aborted(QExit).(reaped := 2, cq := [], head := 0), TrimWorker(WSend), TrimMsg()))
  {
    ls := AbortReaped();
    var k, m := TrimWorker(WSend), TrimMsg();
    var d := Aborted(QPost).(reaped := 2, cq := [], head := 0);
    assert Next(DEMO, Shot(Aborted(QReap), k, m), QStep(0)).queues == [d];
    Onward(ls, Shot(Aborted(QReap), k, m), QStep(0), Shot(d, k, m));
    ls := ls + [QStep(0)];
    assert Next(DEMO, Shot(d, k, m), QStep(0)).queues == [d.(pc := QCheck)];
    Onward(ls, Shot(d, k, m), QStep(0), Shot(d.(pc := QCheck), k, m));
    ls := ls + [QStep(0)];
    assert Next(DEMO, Shot(d.(pc := QCheck), k, m), QStep(0)).queues == [d.(pc := QExit)];
    Onward(ls, Shot(d.(pc := QCheck), k, m), QStep(0), Shot(d.(pc := QExit), k, m));
    ls := ls + [QStep(0)];
  }

  /** Without orderly aborts a queue thread can leave its loop while a worker has yet to prepare its
      commit: that commit will never be submitted. */
  lemma EarlyAbortLosesACommit() returns (r: Run)
    ensures ValidConfig(DEMO) && IsRun(DEMO, r) && Errorless(r)
    ensures var s := Last(r.states);
            && |s.queues| == 1 && |s.workers| == 1 && s.queues[0].pc == QExit
            && s.workers[0].q == 0 && Counts(s.workers[0].pc)
  {
    var ls := Leave();
    r := PlayedRun(DEMO, ls);
    forall i | 0 <= i < |r.labels| ensures NoError(r.labels[i]) {
      assert r.labels[i] in ls;
    }
  }

  // ---------------------------------------------------------------- a handler error

  // Reached by any labels.
  ghost predicate Got(ls: seq<Label>, s: State) { Play(DEMO, Init(DEMO), ls) == Some(s) }

  lemma Any(ls: seq<Label>, s: State, l: Label, s': State)
    requires Got(ls, s) && Enabled(DEMO, s, l) && Next(DEMO, s, l) == s'
    ensures Got(ls + [l], s')
  {
    Then(DEMO, ls, l);
  }

  lemma Handed() returns (ls: seq<Label>)
    ensures Got(ls, Shot(Busy1(QReap, TrimSlot(), 1), TrimWorker(WWait), TrimMsg()).(handlers := [Handler(0, HCall)]))
  {
    ls := Launch();
    TrimWords();
    var a := Shot(Busy1(QReap, TrimSlot(), 1), TrimWorker(WWait), TrimMsg());
    assert Next(DEMO, Launched(), WStep(0)).workers == a.workers;
    Any(ls, Launched(), WStep(0), a.(req := [0]));
    ls := ls + [WStep(0)];
    assert [0][1..] == [];
    Any(ls, a.(req := [0]), DStep, a.(disp := Some(0)));
    ls := ls + [DStep];
    Any(ls, a.(disp := Some(0)), DStep, a.(handlers := [Handler(0, HCall)]));
    ls := ls + [DStep];
  }

  function BadMsg(): Msg { TrimMsg().(result := -1) }

  // The error path and the second pass, with the handler gone.
  function Late(u: Queue, k: Worker): State { Shot(u, k, BadMsg()).(handlers := [Handler(0, HDone)]) }

  function EioWorker(p: WPc): Worker { TrimWorker(p).(eio := true, res := -5) }

  lemma Failed() returns (ls: seq<Label>)
    ensures Got(ls, Late(Busy1(QReap, TrimSlot(), 1), EioWorker(WMark)))
  {
    ls := Handed();
    TrimWords();
    var u, k := Busy1(QReap, TrimSlot(), 1), TrimWorker(WWait);
    var a := Shot(u, k, TrimMsg()).(handlers := [Handler(0, HCall)]);
    var b := Shot(u, k, BadMsg()).(handlers := [Handler(0, HSignal)]);
    var d := Shot(u, k, BadMsg().(complete := 1)).(handlers := [Handler(0, HDone)]);
    var l := HStep(0, true, []);
    assert Next(DEMO, a, l).msgs == b.msgs && Next(DEMO, a, l).handlers == b.handlers;
    Any(ls, a, l, b);
    ls := ls + [l];
    assert Next(DEMO, b, l).msgs == d.msgs && Next(DEMO, b, l).handlers == d.handlers;
    Any(ls, b, l, d);
    ls := ls + [l];
    var e := Late(u, EioWorker(WMark));
    assert Next(DEMO, d, WStep(0)).msgs == e.msgs && Next(DEMO, d, WStep(0)).workers == e.workers;
    Any(ls, d, WStep(0), e);
    ls := ls + [WStep(0)];
  }

  function MarkedSlot(res: int): Slot { TrimSlot().(flags := COMMIT_FREE, result := res) }

  function After1(): Slot { TrimSlot().(result := -5) }

  // Onward worker step between two such states.
  lemma Work(ls: seq<Label>, u: Queue, k: Worker, u': Queue, k': Worker) returns (ls': seq<Label>)
    requires Got(ls, Late(u, k)) && Enabled(DEMO, Late(u, k), WStep(0))
    requires Next(DEMO, Late(u, k), WStep(0)).queues == [u'] && Next(DEMO, Late(u, k), WStep(0)).workers == [k']
    requires k.pc != WSend && k.pc != WWait && k.pc != WReturn
    ensures Got(ls', Late(u', k'))
  {
    Any(ls, Late(u, k), WStep(0), Late(u', k'));
    ls' := ls + [WStep(0)];
  }

  lemma FirstPrepared() returns (ls: seq<Label>)
    ensures Got(ls, Late(Busy1(QReap, After1(), 1).(sq := [Commit(0, -5)], lock := Some(0)), EioWorker(WDec)))
  {
    ls := Failed();
    var u := Busy1(QReap, TrimSlot(), 1);
    var v := Busy1(QReap, MarkedSlot(-5), 1);
    assert u.slots[0 := MarkedSlot(-5)] == v.slots;
    ls := Work(ls, u, EioWorker(WMark), v, EioWorker(WLock));
    ls := Work(ls, v, EioWorker(WLock), v.(lock := Some(0)), EioWorker(WPrep));
    assert v.slots[0 := After1()] == Busy1(QReap, After1(), 1).slots && v.sq + [Commit(0, -5)] == [Commit(0, -5)];
    ls := Work(ls, v.(lock := Some(0)), EioWorker(WPrep),
               Busy1(QReap, After1(), 1).(sq := [Commit(0, -5)], lock := Some(0)), EioWorker(WDec));
  }

  // The queue after the first commit.
  function Once(p: QPc, sl: Slot): Queue { Busy1(p, sl, 0).(sq := [Commit(0, -5)]) }

  lemma FirstReleased() returns (ls: seq<Label>)
    ensures Got(ls, Late(Once(QReap, After1()), TrimWorker(WCopy).(res := -5)))
  {
    ls := FirstPrepared();
    var u := Busy1(QReap, After1(), 1).(sq := [Commit(0, -5)], lock := Some(0));
    var v := u.(inflight := 0);
    ls := Work(ls, u, EioWorker(WDec), v, EioWorker(WSigLock));
    ls := Work(ls, v, EioWorker(WSigLock), v.(mutex := Some(ByWorker(0))), EioWorker(WSig));
    ls := Work(ls, v.(mutex := Some(ByWorker(0))), EioWorker(WSig), v.(mutex := Some(ByWorker(0))), EioWorker(WSigUnlock));
    ls := Work(ls, v.(mutex := Some(ByWorker(0))), EioWorker(WSigUnlock), v, EioWorker(WUnlock));
    ls := Work(ls, v, EioWorker(WUnlock), Once(QReap, After1()), TrimWorker(WCopy).(res := -5));
  }

  // The queue with both commits prepared, before and after the second decrement.
  function Twice(inflight: int): Queue {
    Busy1(QReap, TrimSlot(), inflight).(sq := [Commit(0, -5), Commit(0, 0)], lock := Some(0))
  }

  lemma SecondMarked() returns (ls: seq<Label>)
    ensures Got(ls, Late(Once(QReap, MarkedSlot(0)), TrimWorker(WLock)))
  {
    ls := FirstReleased();
    TrimWords();
    var u, v := Once(QReap, After1()), Once(QReap, MarkedSlot(0));
    assert u.slots[0 := After1()] == u.slots;
    ls := Work(ls, u, TrimWorker(WCopy).(res := -5), u, TrimWorker(WMark));
    assert u.slots[0 := MarkedSlot(0)] == v.slots;
    ls := Work(ls, u, TrimWorker(WMark), v, TrimWorker(WLock));
  }

  lemma SecondPrepared() returns (ls: seq<Label>)
    ensures Got(ls, Late(Twice(0), TrimWorker(WDec)))
  {
    ls := SecondMarked();
    var v := Once(QReap, MarkedSlot(0));
    ls := Work(ls, v, TrimWorker(WLock), v.(lock := Some(0)), TrimWorker(WPrep));
    assert v.slots[0 := TrimSlot()] == Twice(0).slots && [Commit(0, -5)] + [Commit(0, 0)] == Twice(0).sq;
    ls := Work(ls, v.(lock := Some(0)), TrimWorker(WPrep), Twice(0), TrimWorker(WDec));
  }

  /** Onward handler error on a device of two slots: two commits are prepared for one tag, -EIO
      and then success, and the counter goes below zero with no dispatch in progress. */
  lemma ErrorCommitsTwice() returns (r: Run)
    ensures ValidConfig(DEMO) && IsRun(DEMO, r)
    ensures var s := Last(r.states);
            && |s.queues| == 1 && s.queues[0].sq == [Commit(0, -5), Commit(0, 0)]
            && s.queues[0].inflight == -1 && s.queues[0].pc == QReap
  {
    var ls := SecondPrepared();
    ls := Work(ls, Twice(0), TrimWorker(WDec), Twice(-1), TrimWorker(WUnlock));
    r := PlayedRun(DEMO, ls);
  }
}
