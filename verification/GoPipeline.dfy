/**
 The Go side of one device, updated in place: the pool of requests, the binding of a request to a slot,
 the handlers and the worker's tail. Each method runs without interleaving; channels are sequences, and a
 method requires what keeps its channel operations from blocking.
 */
module GoPipeline {
  import opened Words
  import opened Machine
  import opened Params
  import opened QueueEngine
  import opened Plays
  import Device
  import Refine
  import RefineWork

  class Request {
    const rdata: array<bv8>     // the array behind RData
    var ty: nat
    var seqNo: nat
    var off: int
    var size: nat
    var rlen: nat               // the current length of RData
    var wdata: Option<Alias>
    var result: int
    var complete: nat           // tokens in the one-slot Complete channel

    ghost function View(): Msg
      reads this, rdata
    {
      Msg(ty, seqNo, off, size, rdata[..], rlen, wdata, result, complete)
    }

    constructor (i: nat, cap: nat)
      ensures fresh(rdata) && rdata.Length == cap
      ensures View() == Msg(100, i, 0, 0, Zeros(cap), cap, None, 0, 0)
    {
      rdata := new bv8[cap](_ => 0);
      ty, seqNo, off, size, rlen, wdata, result, complete := 100, i, 0, 0, cap, None, 0, 0;
      new;
      assert rdata[..] == Zeros(cap);
    }
  }

  // A request as Start makes it.
  function NewMsg(i: nat): Msg { Msg(100, i, 0, 0, Zeros(READ_BUFFER), READ_BUFFER, None, 0, 0) }

  // A byte array and a queue's slots are different storage.
  ghost predicate Apart(bytes: array<bv8>, u: UblkQueue) { (bytes as object) != u.ios && (bytes as object) != u.iods }

  // What the caller's IOHandler answers. A failing call leaves any bytes in what it was given: a read's
  // buffer up to its size, or the array.
  datatype CallResult = Success | Failure(left: seq<bv8>)

  // ---------------------------------------------------------------- what the methods do

  predicate CallFits(m: Msg, data: seq<bv8>, fill: seq<bv8>, disk: nat) {
    && (m.ty == TYPE_READ ==> m.size <= |m.rbuf| && 0 <= m.off && m.off + m.size <= disk)
    && (m.ty == TYPE_WRITE ==> 0 <= m.off && m.off + |data| <= disk)
    && (m.ty == TYPE_UNMAP ==> |fill| == m.size && 0 <= m.off && m.off + m.size <= disk)
  }

  function Served(m: Msg, disk: seq<bv8>, answer: CallResult): Msg
    requires m.ty == TYPE_READ ==> m.size <= |m.rbuf| && 0 <= m.off && m.off + m.size <= |disk|
  {
    if answer.Failure? && (m.ty == TYPE_READ || m.ty == TYPE_WRITE || m.ty == TYPE_UNMAP) then
      FailedMsg(m, answer.left).(complete := 1)
    else if m.ty == TYPE_READ then
      m.(rlen := m.size, complete := 1, rbuf := disk[m.off..m.off + m.size] + m.rbuf[m.size..])
    else m.(complete := 1)
  }

  function Written(m: Msg, disk: seq<bv8>, data: seq<bv8>, fill: seq<bv8>, answer: CallResult): seq<bv8>
    requires CallFits(m, data, fill, |disk|)
  {
    if answer.Failure? then FailedDisk(disk, m, answer.left)
    else if m.ty == TYPE_WRITE then WriteAt(disk, m.off, data)
    else if m.ty == TYPE_UNMAP then WriteAt(disk, m.off, fill)
    else disk
  }

  // What a worker copies back: nothing but for a read.
  function CopiedBack(u: Queue, m: Msg, tag: nat, kind: Kind, len: nat): Queue
    requires tag < |u.slots| && m.rlen <= |m.rbuf|
  {
    if kind == Read then u.(slots := u.slots[tag := u.slots[tag].(buf := Blit(u.slots[tag].buf, m.rbuf[..m.rlen], len))])
    else u
  }

  function Final(u: Queue, tag: nat, kind: Kind): int
    requires tag < |u.slots|
  {
    if kind == Unmap then 0 else ToI32(Len(u.slots[tag].iod))
  }

  function AfterError(u: Queue, m: Msg, entries: nat, tag: nat): Queue
    requires tag < |u.slots|
  {
    if m.result == -1 then Complete(u, entries, 0, tag, -5).queue else u
  }

  datatype Tailed = Tailed(queue: Queue, stuck: bool)

  // The worker's tail, run alone.
  function Tail(u: Queue, m: Msg, entries: nat, tag: nat, kind: Kind, len: nat): Tailed
    requires tag < |u.slots| && m.rlen <= |m.rbuf|
  {
    var v := AfterError(u, m, entries, tag);
    if v.lock.Some? then Tailed(v, true)
    else
      var x := CopiedBack(v, m, tag, kind, len);
      Tailed(Complete(x, entries, 0, tag, Final(x, tag, kind)).queue, false)
  }

  lemma CompleteMeaning(u: Queue, entries: nat, tag: nat, res: int)
    requires tag < |u.slots| && u.lock == None && !u.slots[tag].flags.getData
    ensures var r := Complete(u, entries, 0, tag, res).queue;
            && |r.slots| == |u.slots| && r.slots[tag].iod == u.slots[tag].iod && r.slots[tag].buf == u.slots[tag].buf
            && !r.slots[tag].flags.getData
            && (r.lock == None <==> |u.sq| < entries)
            && r.sq == u.sq + (if |u.sq| < entries then [Commit(tag, res)] else [])
            && r.inflight == u.inflight - (|r.sq| - |u.sq|)
  {
  }

  lemma SecondMeaning(v: Queue, m: Msg, entries: nat, tag: nat, kind: Kind, len: nat)
    requires tag < |v.slots| && m.rlen <= |m.rbuf| && v.lock == None && !v.slots[tag].flags.getData
    ensures var x := CopiedBack(v, m, tag, kind, len);
            var r := Complete(x, entries, 0, tag, Final(x, tag, kind)).queue;
            && (r.lock == None <==> |v.sq| < entries)
            && r.sq == v.sq + (if |v.sq| < entries then [Commit(tag, Final(v, tag, kind))] else [])
            && r.inflight == v.inflight - (|r.sq| - |v.sq|)
  {
    var x := CopiedBack(v, m, tag, kind, len);
    CompleteMeaning(x, entries, tag, Final(x, tag, kind));
  }

  /** One request's tail run alone, on a slot whose NEED_GET_DATA bit is clear. */
  lemma TailMeaning(u: Queue, m: Msg, entries: nat, tag: nat, kind: Kind, len: nat)
    requires tag < |u.slots| && m.rlen <= |m.rbuf| && u.lock == None && !u.slots[tag].flags.getData
    ensures var t := Tail(u, m, entries, tag, kind, len);
            var room := entries - |u.sq|;
            var reply := Commit(tag, Final(u, tag, kind));
            // the request commits once and leaves the lock free exactly when it never failed and finds room
            && (t.queue.lock == None && |t.queue.sq| == |u.sq| + 1 <==> m.result != -1 && room > 0)
            && t.queue.sq == u.sq + (if room <= 0 then []
                                     else if m.result != -1 then [reply]
                                     else if room == 1 then [Commit(tag, -5)]
                                     else [Commit(tag, -5), reply])
            && t.queue.inflight == u.inflight - (|t.queue.sq| - |u.sq|)
            && (t.stuck <==> m.result == -1 && room <= 0)
  {
    CompleteMeaning(u, entries, tag, -5);
    var v := AfterError(u, m, entries, tag);
    if v.lock == None { SecondMeaning(v, m, entries, tag, kind, len); }
  }

  // Data requests and discards lie inside the array, and data fits the slot buffer.
  predicate Fits(sl: Slot, disk: nat) {
    var d := sl.iod;
    && (KindOf(d) != Unknown ==> 0 <= Off(d) && Off(d) + Len(d) <= disk)
    && (KindOf(d) == Read || KindOf(d) == Write ==> Len(d) <= |sl.buf| < 0x8000_0000)
  }

  // What WData shows the handler.
  function ShownData(sl: Slot): seq<bv8> {
    if KindOf(sl.iod) == Write && Len(sl.iod) <= |sl.buf| then sl.buf[..Len(sl.iod)] else []
  }

  // A discard's handler leaves as many bytes as the range holds.
  predicate Fills(sl: Slot, fill: seq<bv8>) { KindOf(sl.iod) == Unmap ==> |fill| == Len(sl.iod) }

  predicate Roomy(m: Msg, sl: Slot) { m.rlen <= |m.rbuf| && (KindOf(sl.iod) == Read ==> Len(sl.iod) <= |m.rbuf|) }

  lemma BoundFits(m: Msg, q: nat, tag: nat, sl: Slot, fill: seq<bv8>, disk: nat)
    requires Fits(sl, disk) && Fills(sl, fill) && Roomy(m, sl)
    ensures CallFits(Bind(m, q, tag, sl.iod), ShownData(sl), fill, disk)
  {
  }

  datatype Round = Round(disk: seq<bv8>, msg: Msg, queue: Queue, stuck: bool)

  // One request alone, from its completion entry to the return of the pooled request.
  function Alone(u: Queue, m: Msg, q: nat, tag: nat, entries: nat, disk: seq<bv8>, fill: seq<bv8>, answer: CallResult): Round
    requires tag < |u.slots| && Fits(u.slots[tag], |disk|) && Fills(u.slots[tag], fill) && Roomy(m, u.slots[tag])
  {
    var sl := u.slots[tag];
    BoundFits(m, q, tag, sl, fill, |disk|);
    var m1 := Bind(m, q, tag, sl.iod);
    var m2 := Served(m1, disk, answer);
    var t := Tail(u, m2.(complete := 0), entries, tag, KindOf(sl.iod), Len(sl.iod));
    Round(Written(m1, disk, ShownData(sl), fill, answer), m2.(complete := 0), t.queue, t.stuck)
  }

  lemma HandlerIsDevice(m: Msg, q: nat, tag: nat, sl: Slot, disk: seq<bv8>, fill: seq<bv8>)
    requires Fits(sl, |disk|) && Fills(sl, fill) && Roomy(m, sl)
    ensures var r := Refine.ReqOf(sl);
            var m1 := Bind(m, q, tag, sl.iod);
            && Device.Applicable(disk, r, fill) && CallFits(m1, ShownData(sl), fill, |disk|)
            && Written(m1, disk, ShownData(sl), fill, Success) == Device.Effect(disk, r, fill)
            && Served(m1, disk, Success).result == m.result
            && (KindOf(sl.iod) == Read ==>
                  var m2 := Served(m1, disk, Success);
                  m2.rlen == r.len <= |m2.rbuf| && m2.rbuf[..m2.rlen] == disk[r.off..r.off + r.len])
  {
    var r := Refine.ReqOf(sl);
    BoundFits(m, q, tag, sl, fill, |disk|);
    if KindOf(sl.iod) == Write { RefineWork.SplicedIsWriteAt(disk, r.off, r.data); }
    if KindOf(sl.iod) == Unmap { RefineWork.SplicedIsWriteAt(disk, r.off, fill); }
  }

  // What the copy-back leaves for the driver to read.
  lemma CopiedBackShows(u: Queue, m: Msg, tag: nat)
    requires tag < |u.slots| && m.rlen <= |m.rbuf|
    requires KindOf(u.slots[tag].iod) == Read ==> m.rlen == Len(u.slots[tag].iod) <= |u.slots[tag].buf|
    ensures var sl := CopiedBack(u, m, tag, KindOf(u.slots[tag].iod), Len(u.slots[tag].iod)).slots[tag];
            Refine.Copied(sl) == if KindOf(sl.iod) == Read then m.rbuf[..m.rlen] else []
  {
  }

  /** End to end: a request that has never failed, whose handler succeeds, and that finds a free ring entry
      does to the array what the device specification says, and commits that answer's result with that
      answer's data in the slot buffer. */
  lemma RoundIsDevice(u: Queue, m: Msg, q: nat, tag: nat, entries: nat, disk: seq<bv8>, fill: seq<bv8>)
    requires tag < |u.slots| && Fits(u.slots[tag], |disk|) && Fills(u.slots[tag], fill) && Roomy(m, u.slots[tag])
    requires u.lock == None && !u.slots[tag].flags.getData && |u.sq| < entries && m.result != -1
    ensures var r := Refine.ReqOf(u.slots[tag]);
            var o := Alone(u, m, q, tag, entries, disk, fill, Success);
            && Device.Applicable(disk, r, fill)
            && o.disk == Device.Effect(disk, r, fill)
            && o.queue.sq == u.sq + [Commit(tag, Device.Answer(disk, r, fill).result)]
            && Refine.Copied(o.queue.slots[tag]) == Device.Answer(disk, r, fill).data
            && o.queue.lock == None && !o.stuck
  {
    var sl := u.slots[tag];
    var k, len := KindOf(sl.iod), Len(sl.iod);
    var m2 := Served(Bind(m, q, tag, sl.iod), disk, Success).(complete := 0);
    HandlerIsDevice(m, q, tag, sl, disk, fill);
    TailMeaning(u, m2, entries, tag, k, len);
    CopiedBackShows(u, m2, tag);
    var x := CopiedBack(u, m2, tag, k, len);
    CompleteMeaning(x, entries, tag, Final(x, tag, k));
  }

  // ---------------------------------------------------------------- the pool against the machine

  /** What Start fills in is the machine's initial pool: request i of its messages, and the free channel in that order. */
  lemma FilledIsInit(size: int, queues: int, depth: int, entries: nat, bytes: seq<bv8>)
    requires -0x8000_0000_0000_0000 <= size < 0x8000_0000_0000_0000
    ensures var s := Init(StartConfig(size, queues, depth, entries, bytes));
            && |s.msgs| == |s.free| == 512 && POOL_SIZE == 512
            && (forall i | 0 <= i < 512 :: NewMsg(i) == s.msgs[i] && s.free[i] == i)
            && (forall i | 0 <= i < 512 ::
                  |s.msgs[i].rbuf| == s.msgs[i].rlen == 524288 && s.msgs[i].result == 0 && s.msgs[i].complete == 0)
  {
  }

  /** A filled request has room for every request the driver may post to a started device. */
  lemma FilledHasRoom(size: int, queues: int, depth: int, entries: nat, bytes: seq<bv8>, i: nat, sl: Slot)
    requires 0 <= size < 0x8000_0000_0000_0000
    requires Honours(Advertised(StartConfig(size, queues, depth, entries, bytes)), sl.iod)
    ensures Roomy(NewMsg(i), sl) && |NewMsg(i).rbuf| == 524288
  {
  }

  // ---------------------------------------------------------------- the worker's tail against the machine

  // The worker's record, its request and its queue before and after its tail.
  function AfterTail(s: State, w: nat, u: Queue, k: Worker): State
    requires w < |s.workers| && k.q < |s.queues| && k.m < |s.msgs| && s.msgs[k.m].complete > 0
  {
    var m := s.msgs[k.m];
    SetBoth(s, w, k, k.q, u).(msgs := s.msgs[k.m := m.(complete := m.complete - 1)])
  }

  /** When nothing else runs, a worker that has its token, whose request never failed, and that finds room: receiving,
      copying back, completing and returning, instruction by instruction, do what `Tail` says. */
  lemma TailIsWorkerSteps(c: Config, s: State, w: nat) returns (n: nat)
    requires w < |s.workers| && s.workers[w].pc == WWait && !s.workers[w].eio
    requires var k := s.workers[w];
             && k.q < |s.queues| && k.m < |s.msgs| && k.tag < |s.queues[k.q].slots|
             && s.msgs[k.m].complete > 0 && s.msgs[k.m].result != -1 && s.msgs[k.m].rlen <= |s.msgs[k.m].rbuf|
             && s.queues[k.q].lock == None && s.queues[k.q].mutex == None
             && |s.queues[k.q].sq| < c.entries && |s.free| < c.freeCap
    ensures var k := s.workers[w];
            var u := s.queues[k.q];
            var t := Tail(u, s.msgs[k.m], c.entries, k.tag, k.kind, k.len);
            && !t.stuck
            && Play(c, s, Steps(w, n)) ==
                 Some(AfterTail(s, w, t.queue, k.(pc := WDone, res := Final(u, k.tag, k.kind))).(free := s.free + [k.m]))
  {
    var k := s.workers[w];
    var u := s.queues[k.q];
    var x := CopiedBack(u, s.msgs[k.m], k.tag, k.kind, k.len);
    var k2 := k.(pc := WMark, res := Final(u, k.tag, k.kind));
    var a := AfterTail(s, w, u, k.(pc := WCopy));
    var b := AfterTail(s, w, x, k2);
    ReceiveStep(c, s, w);
    CopyBackStep(c, s, w);
    CompleteIsWorkerSteps(c, b, w);
    var o := Complete(x, c.entries, w, k.tag, k2.res);
    var l := Length(x, o);
    assert o.ret == 1 && o.queue == Complete(x, c.entries, 0, k.tag, k2.res).queue;
    var d := AfterTail(s, w, o.queue, k2.(pc := WReturn));
    assert SetBoth(b, w, k2.(pc := WReturn), k.q, o.queue) == d by {
      Overwrite(s, w, k2, k2.(pc := WReturn), k.q, x, o.queue);
    }
    n := l + 3;
    OneMore(c, s, w, n);
    OneMore(c, a, w, n - 1);
    RecycleStep(c, s, w, o.queue, k2);
    OneMore(c, d, w, 1);
    assert Steps(w, 0) == [];
    assert Steps(w, n - 2) == Steps(w, l) + Steps(w, 1);
    PlayAppend(c, b, Steps(w, l), Steps(w, 1));
  }

  lemma ReceiveStep(c: Config, s: State, w: nat)
    requires w < |s.workers| && s.workers[w].pc == WWait
    requires var k := s.workers[w];
             && k.q < |s.queues| && k.m < |s.msgs| && k.tag < |s.queues[k.q].slots|
             && s.msgs[k.m].complete > 0 && s.msgs[k.m].result != -1
    ensures WEnabled(c, s, w)
    ensures WNext(c, s, w) == AfterTail(s, w, s.queues[s.workers[w].q], s.workers[w].(pc := WCopy))
  {
    var k := s.workers[w];
    assert s.queues[k.q := s.queues[k.q]] == s.queues;
  }

  lemma CopyBackStep(c: Config, s: State, w: nat)
    requires w < |s.workers| && s.workers[w].pc == WWait
    requires var k := s.workers[w];
             && k.q < |s.queues| && k.m < |s.msgs| && k.tag < |s.queues[k.q].slots|
             && s.msgs[k.m].complete > 0 && s.msgs[k.m].rlen <= |s.msgs[k.m].rbuf|
    ensures var k := s.workers[w];
            var u := s.queues[k.q];
            var a := AfterTail(s, w, u, k.(pc := WCopy));
            && WEnabled(c, a, w)
            && WNext(c, a, w) == AfterTail(s, w, CopiedBack(u, s.msgs[k.m], k.tag, k.kind, k.len), k.(pc := WMark, res := Final(u, k.tag, k.kind)))
  {
    var k := s.workers[w];
    var u := s.queues[k.q];
    var x := CopiedBack(u, s.msgs[k.m], k.tag, k.kind, k.len);
    Overwrite(s, w, k.(pc := WCopy), k.(pc := WMark, res := Final(u, k.tag, k.kind)), k.q, u, x);
    assert u.slots[k.tag := u.slots[k.tag]] == u.slots;
  }

  lemma RecycleStep(c: Config, s: State, w: nat, u: Queue, k: Worker)
    requires w < |s.workers| && k.q < |s.queues| && k.m < |s.msgs| && s.msgs[k.m].complete > 0
    requires k.tag < |u.slots| && |s.free| < c.freeCap
    ensures var d := AfterTail(s, w, u, k.(pc := WReturn));
            && WEnabled(c, d, w)
            && WNext(c, d, w) == AfterTail(s, w, u, k.(pc := WDone)).(free := s.free + [k.m])
  {
    Overwrite(s, w, k.(pc := WReturn), k.(pc := WDone), k.q, u, u);
  }

  // ---------------------------------------------------------------- the handlers against the machine

  // The label of a handler call with this outcome.
  function CallLabel(h: nat, answer: CallResult, fill: seq<bv8>): Label {
    match answer
    case Success => HStep(h, false, fill)
    case Failure(left) => HStep(h, true, left)
  }

  /** For every request type and both outcomes, a handler method does to the request and to the array what the
      machine's handler goroutine does in its two steps. */
  lemma HandlerIsMachineSteps(c: Config, s: State, h: nat, answer: CallResult, fill: seq<bv8>)
    requires h < |s.handlers| && s.handlers[h].pc == HCall && s.handlers[h].m < |s.msgs|
    requires var m := s.msgs[s.handlers[h].m];
             && m.complete == 0 && KnownType(m.ty) && (m.ty == TYPE_WRITE ==> m.wdata.Some?)
             && (m.ty == TYPE_PING ==> answer.Success?)
             && CallFits(m, if m.ty == TYPE_WRITE then Aliased(s, m.wdata.value) else [], fill, |s.disk|)
    ensures var x := s.handlers[h].m;
            var m := s.msgs[x];
            var l := CallLabel(h, answer, fill);
            Play(c, s, [l, l]) ==
              Some(s.(handlers := s.handlers[h := Handler(x, HDone)], msgs := s.msgs[x := Served(m, s.disk, answer)],
                      disk := Written(m, s.disk, if m.ty == TYPE_WRITE then Aliased(s, m.wdata.value) else [], fill, answer)))
  {
    var x := s.handlers[h].m;
    var m := s.msgs[x];
    var l := CallLabel(h, answer, fill);
    var data := if m.ty == TYPE_WRITE then Aliased(s, m.wdata.value) else [];
    var a := s.(handlers := s.handlers[h := Handler(x, HSignal)], msgs := s.msgs[x := Served(m, s.disk, answer).(complete := 0)],
                disk := Written(m, s.disk, data, fill, answer));
    CallIsMachineStep(c, s, h, answer, fill);
    var z := s.(handlers := s.handlers[h := Handler(x, HDone)], msgs := s.msgs[x := Served(m, s.disk, answer)],
                disk := Written(m, s.disk, data, fill, answer));
    assert a.handlers[h := Handler(x, HDone)] == z.handlers && a.msgs[x := Served(m, s.disk, answer)] == z.msgs;
    SignalIsMachineStep(c, a, h, l);
    assert Next(c, a, l) == z;
    assert [l, l][1..] == [l];
    ShowsOne(c, a, l);
  }

  lemma SignalIsMachineStep(c: Config, a: State, h: nat, l: Label)
    requires h < |a.handlers| && a.handlers[h].pc == HSignal && a.handlers[h].m < |a.msgs| && l.HStep? && l.h == h
    requires a.msgs[a.handlers[h].m].complete == 0
    ensures var x := a.handlers[h].m;
            && Enabled(c, a, l)
            && Next(c, a, l) == a.(handlers := a.handlers[h := Handler(x, HDone)], msgs := a.msgs[x := a.msgs[x].(complete := 1)])
  {
  }

  /** Any other type is completed by the dispatcher, as the machine's dispatcher does it. */
  lemma DefaultIsMachineStep(c: Config, s: State, answer: CallResult)
    requires s.disp.Some? && s.disp.value < |s.msgs| && s.msgs[s.disp.value].complete == 0 && !KnownType(s.msgs[s.disp.value].ty)
    ensures var x := s.disp.value;
            && DEnabled(c, s) && CallFits(s.msgs[x], [], [], |s.disk|)
            && DNext(c, s) == s.(disp := None, msgs := s.msgs[x := Served(s.msgs[x], s.disk, answer)])
            && Written(s.msgs[x], s.disk, [], [], answer) == s.disk
  {
  }

  lemma CallIsMachineStep(c: Config, s: State, h: nat, answer: CallResult, fill: seq<bv8>)
    requires h < |s.handlers| && s.handlers[h].pc == HCall && s.handlers[h].m < |s.msgs|
    requires var m := s.msgs[s.handlers[h].m];
             && m.complete == 0 && KnownType(m.ty) && (m.ty == TYPE_WRITE ==> m.wdata.Some?)
             && (m.ty == TYPE_PING ==> answer.Success?)
             && CallFits(m, if m.ty == TYPE_WRITE then Aliased(s, m.wdata.value) else [], fill, |s.disk|)
    ensures var x := s.handlers[h].m;
            var m := s.msgs[x];
            var l := CallLabel(h, answer, fill);
            && Enabled(c, s, l)
            && Next(c, s, l) ==
                 s.(handlers := s.handlers[h := Handler(x, HSignal)], msgs := s.msgs[x := Served(m, s.disk, answer).(complete := 0)],
                    disk := Written(m, s.disk, if m.ty == TYPE_WRITE then Aliased(s, m.wdata.value) else [], fill, answer))
  {
    var x := s.handlers[h].m;
    assert s.msgs[x := s.msgs[x]] == s.msgs;
  }

  /** A read, write or discard whose call fails leaves Result -1; alone, and given room, it commits -EIO first and
      then the ordinary reply, and with room for one entry only it keeps the lock. */
  lemma FailureIsReported(u: Queue, m: Msg, q: nat, tag: nat, entries: nat, bytes: seq<bv8>, fill: seq<bv8>, left: seq<bv8>)
    requires tag < |u.slots| && Fits(u.slots[tag], |bytes|) && Fills(u.slots[tag], fill) && Roomy(m, u.slots[tag])
    requires u.lock == None && !u.slots[tag].flags.getData && u.slots[tag].iod.opFlags % 256 in [0, 1, 3]
    ensures var o := Alone(u, m, q, tag, entries, bytes, fill, Failure(left));
            var room := entries - |u.sq|;
            && o.msg.result == -1
            && (room >= 1 ==> |o.queue.sq| > |u.sq| && o.queue.sq[|u.sq|] == Commit(tag, -5))
            && (room >= 2 ==> o.queue.sq == u.sq + [Commit(tag, -5), Commit(tag, Reply(u.slots[tag].iod))] && o.queue.lock == None)
            && (room == 1 ==> o.queue.sq == u.sq + [Commit(tag, -5)] && o.queue.lock != None && !o.stuck)
            && (room <= 0 ==> o.queue.sq == u.sq && o.stuck)
  {
    var sl := u.slots[tag];
    var m2 := Served(Bind(m, q, tag, sl.iod), bytes, Failure(left)).(complete := 0);
    BoundFits(m, q, tag, sl, fill, |bytes|);
    FailedResult(m, q, tag, sl, bytes, left);
    TailMeaning(u, m2, entries, tag, KindOf(sl.iod), Len(sl.iod));
    TailLock(u, m2, entries, tag, KindOf(sl.iod), Len(sl.iod));
  }

  lemma FailedResult(m: Msg, q: nat, tag: nat, sl: Slot, bytes: seq<bv8>, left: seq<bv8>)
    requires Fits(sl, |bytes|) && Roomy(m, sl) && sl.iod.opFlags % 256 in [0, 1, 3]
    ensures var m2 := Served(Bind(m, q, tag, sl.iod), bytes, Failure(left)); m2.result == -1 && m2.rlen <= |m2.rbuf|
  {
  }

  // When the tail of a failed request leaves the lock free.
  lemma TailLock(u: Queue, m: Msg, entries: nat, tag: nat, kind: Kind, len: nat)
    requires tag < |u.slots| && m.rlen <= |m.rbuf| && u.lock == None && !u.slots[tag].flags.getData && m.result == -1
    ensures Tail(u, m, entries, tag, kind, len).queue.lock == None <==> entries - |u.sq| >= 2
  {
    CompleteMeaning(u, entries, tag, -5);
    var v := AfterError(u, m, entries, tag);
    if v.lock == None { SecondMeaning(v, m, entries, tag, kind, len); }
  }

  class UblkDevice {
    const disk: array<bv8>      // the array behind the handler
    const capacity: nat         // of the msgChan channel
    var msgChan: seq<Request>

    ghost predicate Valid()
      reads this
    {
      && |msgChan| <= capacity
      && (forall i, j | 0 <= i < j < |msgChan| :: msgChan[i] != msgChan[j] && msgChan[i].rdata != msgChan[j].rdata)
      && (forall i | 0 <= i < |msgChan| :: msgChan[i].rdata != disk)
    }

    constructor (size: nat)
      ensures Valid() && msgChan == [] && capacity == CHANNEL_SIZE && fresh(disk) && disk.Length == size
    {
      disk := new bv8[size];
      capacity := CHANNEL_SIZE;
      msgChan := [];
    }

    /** The pool filling of Start: 512 new requests, no two of them sharing a buffer, and room for each send. */
    method FillPool()
      requires Valid() && |msgChan| + POOL_SIZE <= capacity
      modifies this`msgChan
      ensures Valid() && |msgChan| == |old(msgChan)| + POOL_SIZE && old(msgChan) <= msgChan
      ensures forall j | |old(msgChan)| <= j < |msgChan| ::
                fresh(msgChan[j]) && fresh(msgChan[j].rdata) && msgChan[j].View() == NewMsg(j - |old(msgChan)|)
    {
      ghost var n := |msgChan|;
      for i := 0 to POOL_SIZE
        invariant Valid() && |msgChan| == n + i && old(msgChan) <= msgChan
        invariant forall j | n <= j < n + i :: fresh(msgChan[j]) && fresh(msgChan[j].rdata)
        invariant forall j | n <= j < n + i :: msgChan[j].View() == NewMsg(j - n)
      {
        var msg := new Request(i, READ_BUFFER);
        msgChan := msgChan + [msg];
      }
    }

    /** onRequestAsync up to the spawn: the oldest pooled request is taken and bound to the slot. */
    method OnRequest(q: nat, tag: nat, iod: Desc) returns (msg: Request)
      requires Valid() && msgChan != []
      modifies this`msgChan, msgChan[0]
      ensures Valid() && msg == old(msgChan[0]) && msgChan == old(msgChan[1..])
      ensures msg.View() == Bind(old(msgChan[0].View()), q, tag, iod)
    {
      var kind := KindOf(iod);
      msg := msgChan[0];
      msgChan := msgChan[1..];
      msg.size := Len(iod);
      msg.seqNo := tag;
      msg.ty := TypeWord(kind);
      msg.off := Off(iod);
      if kind == Write {
        msg.wdata := Some(Alias(q, tag, Len(iod)));
      }
    }

    method HandleRead(msg: Request, answer: CallResult)
      requires msg.size <= msg.rdata.Length && 0 <= msg.off && msg.off + msg.size <= disk.Length
      requires msg.rdata != disk && msg.complete < 1
      modifies msg, msg.rdata
      ensures msg.View() ==
                var m := old(msg.View());
                var shown := if answer.Failure? then Left(m.rbuf[..m.size], answer.left) else old(disk[msg.off..msg.off + msg.size]);
                m.(rlen := m.size, complete := 1, result := if answer.Failure? then -1 else m.result,
                   rbuf := shown + m.rbuf[m.size..])
    {
      ghost var m := msg.View();
      ghost var shown := if answer.Failure? then Left(m.rbuf[..m.size], answer.left) else disk[msg.off..msg.off + msg.size];
      msg.rlen := msg.size;
      if answer.Success? {
        forall i | 0 <= i < msg.size {
          msg.rdata[i] := disk[msg.off + i];
        }
      } else {
        if |answer.left| == msg.size {
          forall i | 0 <= i < msg.size {
            msg.rdata[i] := answer.left[i];
          }
        }
        msg.result := -1;
      }
      assert msg.rdata[..] == shown + m.rbuf[m.size..];
      msg.complete := msg.complete + 1;
    }

    // What a failing call leaves in the array.
    method Spoil(left: seq<bv8>)
      modifies disk
      ensures disk[..] == Left(old(disk[..]), left)
    {
      if |left| == disk.Length {
        forall i | 0 <= i < disk.Length {
          disk[i] := left[i];
        }
      }
    }

    method HandleWrite(msg: Request, data: seq<bv8>, answer: CallResult)
      requires 0 <= msg.off && msg.off + |data| <= disk.Length && msg.rdata != disk && msg.complete < 1
      modifies msg, disk
      ensures msg.View() == old(msg.View()).(complete := 1, result := if answer.Failure? then -1 else old(msg.result))
      ensures disk[..] == if answer.Failure? then Left(old(disk[..]), answer.left) else WriteAt(old(disk[..]), old(msg.off), data)
    {
      if answer.Failure? {
        Spoil(answer.left);
        msg.result := -1;
      } else {
        forall i | 0 <= i < |data| {
          disk[msg.off + i] := data[i];
        }
      }
      msg.complete := msg.complete + 1;
    }

    // fill is what the handler leaves in the unmapped range.
    method HandleUnmap(msg: Request, fill: seq<bv8>, answer: CallResult)
      requires |fill| == msg.size && 0 <= msg.off && msg.off + msg.size <= disk.Length && msg.rdata != disk && msg.complete < 1
      modifies msg, disk
      ensures msg.View() == old(msg.View()).(complete := 1, result := if answer.Failure? then -1 else old(msg.result))
      ensures disk[..] == if answer.Failure? then Left(old(disk[..]), answer.left) else WriteAt(old(disk[..]), old(msg.off), fill)
    {
      if answer.Failure? {
        Spoil(answer.left);
        msg.result := -1;
      } else {
        forall i | 0 <= i < |fill| {
          disk[msg.off + i] := fill[i];
        }
      }
      msg.complete := msg.complete + 1;
    }

    /** One round of handleRequests and the handler it starts. data is what WData shows of the slot buffer. */
    method HandleRequest(msg: Request, data: seq<bv8>, fill: seq<bv8>, answer: CallResult)
      requires msg.rdata != disk && msg.complete < 1
      requires CallFits(msg.View(), data, fill, disk.Length)
      modifies msg, msg.rdata, disk
      ensures disk[..] == Written(old(msg.View()), old(disk[..]), data, fill, answer)
      ensures msg.View() == Served(old(msg.View()), old(disk[..]), answer)
    {
      if msg.ty == TYPE_READ {
        HandleRead(msg, answer);
      } else if msg.ty == TYPE_WRITE {
        HandleWrite(msg, data, answer);
      } else if msg.ty == TYPE_UNMAP {
        HandleUnmap(msg, fill, answer);
      } else {
        msg.complete := msg.complete + 1;
      }
    }

    // The completion a failed request gets first.
    method CompleteError(msg: Request, u: UblkQueue, tag: nat)
      requires u.Valid() && tag < u.depth && !u.locked && Apart(msg.rdata, u)
      modifies u`sq, u`inflight, u`locked, u`signals, u.ios
      ensures u.Valid() && msg.View() == old(msg.View())
      ensures u.View() == AfterError(old(u.View()), msg.View(), u.entries, tag)
    {
      if msg.result == -1 {
        var _ := u.CompleteIo(tag, -5);
      }
    }

    method CopyBack(msg: Request, u: UblkQueue, tag: nat, kind: Kind, len: nat)
      requires u.Valid() && tag < u.depth && msg.rlen <= msg.rdata.Length && Apart(msg.rdata, u)
      modifies u.ios
      ensures u.View() == CopiedBack(old(u.View()), msg.View(), tag, kind, len)
      ensures msg.View() == old(msg.View())
    {
      ghost var before := u.Slots();
      if kind == Read {
        var io := u.ios[tag];
        u.ios[tag] := io.(buf := Blit(io.buf, msg.rdata[..msg.rlen], len));
        assert msg.rdata[..] == old(msg.rdata[..]) && msg.rdata[..][..msg.rlen] == msg.rdata[..msg.rlen];
        assert u.Slots() == before[tag := before[tag].(buf := Blit(before[tag].buf, msg.rdata[..msg.rlen], len))];
      }
    }

    // The copy-back and the completion every request gets.
    method FinishOnce(msg: Request, u: UblkQueue, tag: nat, kind: Kind, len: nat)
      requires u.Valid() && tag < u.depth && !u.locked && msg.rlen <= msg.rdata.Length && Apart(msg.rdata, u)
      modifies u`sq, u`inflight, u`locked, u`signals, u.ios
      ensures u.Valid() && msg.View() == old(msg.View())
      ensures var x := CopiedBack(old(u.View()), msg.View(), tag, kind, len);
              u.View() == Complete(x, u.entries, 0, tag, Final(x, tag, kind)).queue
    {
      CopyBack(msg, u, tag, kind, len);
      if kind == Unmap {
        var _ := u.CompleteIo(tag, 0);
      } else {
        var _ := u.CompleteIo(tag, ToI32(Len(u.iods[tag])));
      }
    }

    method Return(msg: Request)
      requires Valid() && |msgChan| < capacity && msg.rdata != disk
      requires forall m <- msgChan :: m != msg && m.rdata != msg.rdata
      modifies this`msgChan
      ensures Valid() && msgChan == old(msgChan) + [msg]
    {
      msgChan := msgChan + [msg];
    }

    /** The goroutine of onRequestAsync from its receive on. It gets stuck when its first completion kept the
        queue's lock: the second one then waits for it for ever, and the request is not returned. */
    method Finish(msg: Request, u: UblkQueue, tag: nat, kind: Kind, len: nat) returns (stuck: bool)
      requires Valid() && |msgChan| < capacity && u.Valid() && tag < u.depth && !u.locked
      requires msg.complete == 1 && msg.rlen <= msg.rdata.Length
      requires forall m <- msgChan :: m != msg && m.rdata != msg.rdata
      requires msg.rdata != disk && Apart(msg.rdata, u)
      modifies this`msgChan, msg`complete, u`sq, u`inflight, u`locked, u`signals, u.ios
      ensures Valid() && u.Valid()
      ensures var t := Tail(old(u.View()), old(msg.View()), u.entries, tag, kind, len);
              && u.View() == t.queue && stuck == t.stuck
              && msgChan == if stuck then old(msgChan) else old(msgChan) + [msg]
      ensures msg.View() == old(msg.View()).(complete := 0)
    {
      msg.complete := msg.complete - 1;
      CompleteError(msg, u, tag);
      if u.locked {
        return true;
      }
      FinishOnce(msg, u, tag, kind, len);
      Return(msg);
      stuck := false;
    }

    // Bound and handled.
    method Begin(u: UblkQueue, q: nat, tag: nat, fill: seq<bv8>, answer: CallResult) returns (msg: Request)
      requires Valid() && msgChan != [] && u.Valid() && tag < u.depth
      requires Apart(msgChan[0].rdata, u) && Apart(disk, u) && msgChan[0].complete == 0
      requires Fits(u.Slots()[tag], disk.Length) && Fills(u.Slots()[tag], fill) && Roomy(msgChan[0].View(), u.Slots()[tag])
      modifies this`msgChan, msgChan[0], msgChan[0].rdata, disk
      ensures Valid() && msg == old(msgChan[0]) && msgChan == old(msgChan[1..])
      ensures u.Valid() && u.View() == old(u.View())
      ensures var sl := old(u.Slots()[tag]);
              var m1 := Bind(old(msgChan[0].View()), q, tag, sl.iod);
              && CallFits(m1, ShownData(sl), fill, disk.Length)
              && disk[..] == Written(m1, old(disk[..]), ShownData(sl), fill, answer)
              && msg.View() == Served(m1, old(disk[..]), answer)
    {
      BoundFits(msgChan[0].View(), q, tag, u.Slots()[tag], fill, disk.Length);
      var iod := u.iods[tag];
      var data := if KindOf(iod) == Write then u.ios[tag].buf[..Len(iod)] else [];
      msg := OnRequest(q, tag, iod);
      HandleRequest(msg, data, fill, answer);
      assert u.Slots() == old(u.Slots());
    }

    /** One request alone: bound, handled and finished, in that order. */
    method Serve(u: UblkQueue, q: nat, tag: nat, fill: seq<bv8>, answer: CallResult) returns (msg: Request, stuck: bool)
      requires Valid() && msgChan != [] && u.Valid() && tag < u.depth && !u.locked
      requires Apart(msgChan[0].rdata, u) && Apart(disk, u) && msgChan[0].complete == 0
      requires Fits(u.Slots()[tag], disk.Length) && Fills(u.Slots()[tag], fill) && Roomy(msgChan[0].View(), u.Slots()[tag])
      modifies this`msgChan, msgChan[0], msgChan[0].rdata, disk, u`sq, u`inflight, u`locked, u`signals, u.ios
      ensures Valid() && u.Valid() && msg == old(msgChan[0])
      ensures var o := Alone(old(u.View()), old(msgChan[0].View()), q, tag, u.entries, old(disk[..]), fill, answer);
              disk[..] == o.disk && msg.View() == o.msg && u.View() == o.queue && stuck == o.stuck
      ensures msgChan == old(msgChan[1..]) + if stuck then [] else [msg]
    {
      var iod := u.iods[tag];
      msg := Begin(u, q, tag, fill, answer);
      stuck := Finish(msg, u, tag, KindOf(iod), Len(iod));
    }
  }
}
