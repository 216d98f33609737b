/** The pipeline refines the array device: every step is one device move or none. */
module Refine {
  import opened Machine
  import opened Ledger
  import opened Device

  // ---------------------------------------------------------------- descriptors in numbers

  // Nothing wraps for a data request the driver may send.
  lemma DescBounds(c: Config, d: Desc)
    requires ValidConfig(c) && DescOk(c, d)
    ensures KindOf(d) != Unknown ==> 0 <= Off(d) == d.start * 512 && Len(d) == d.nsec * 512 && Off(d) + Len(d) <= |c.disk0|
    ensures KindOf(d) == Read || KindOf(d) == Write ==> Len(d) <= c.bufBytes && Reply(d) == Len(d)
  {
  }

  function ReqOf(sl: Slot): Req {
    var d := sl.iod;
    Req(KindOf(d), Off(d), Len(d), if KindOf(d) == Write && Len(d) <= |sl.buf| then sl.buf[..Len(d)] else [])
  }

  // The bytes the driver copies to the client when it accepts the commit.
  function Copied(sl: Slot): seq<bv8> {
    if KindOf(sl.iod) == Read && Len(sl.iod) <= |sl.buf| then sl.buf[..Len(sl.iod)] else []
  }

  // ---------------------------------------------------------------- the relation

  ghost predicate CmdRel(cmd: Cmd, sl: Slot, st: Status) {
    match cmd
    case Fetch(t) => st.Unfetched?
    case Commit(t, r) => st.Done? && st.resp == Resp(r, Copied(sl))
    case GetData(t) => false
  }

  ghost predicate CqeRel(e: Cqe, sl: Slot, st: Status) {
    if e.res == RES_OK then st == Pending(ReqOf(sl)) else st.Failed?
  }

  // A slot that is with the driver, with the queue thread, or retired.
  ghost predicate RestRel(o: SlotOwner, sl: Slot, st: Status) {
    match o
    case Driver => st.Armed?
    case Thread => st == Pending(ReqOf(sl))
    case Retired => st.Failed?
    case _ => true
  }

  // Has the handler run for the request this token stands for?
  predicate Applied(token: Token, handlers: seq<Handler>) {
    token.Signalled? || (token.AtHandler? && token.h < |handlers| && handlers[token.h].pc.HSignal?)
  }

  // The read data has reached the message.
  predicate InMsg(m: Msg, k: Kind, len: nat, resp: Resp) {
    if k == Read then m.rlen == len && len <= |m.rbuf| && m.rbuf[..len] == resp.data else resp.data == []
  }

  ghost predicate WorkRel(k: Worker, sl: Slot, m: Msg, applied: bool, st: Status) {
    match k.pc
    case WSend => st == Pending(ReqOf(sl))
    case WWait =>
      if applied then st.Done? && st.resp.result == Reply(sl.iod) && InMsg(m, k.kind, k.len, st.resp)
      else st == Pending(ReqOf(sl))
    case WCopy => st.Done? && st.resp.result == Reply(sl.iod) && InMsg(m, k.kind, k.len, st.resp)
    case WMark => st.Done? && st.resp == Resp(k.res, Copied(sl))
    case WLock => st.Done? && st.resp == Resp(sl.result, Copied(sl))
    case WPrep => st.Done? && st.resp == Resp(sl.result, Copied(sl))
    case _ => true
  }

  ghost predicate QueueRel(slots: seq<Slot>, own: seq<SlotOwner>, sq: seq<Cmd>, cq: seq<Cqe>, head: nat, sts: seq<Status>) {
    && |slots| == |own| == |sts|
    && (forall t | 0 <= t < |own| :: RestRel(own[t], slots[t], sts[t]))
    && (forall i | 0 <= i < |sq| :: sq[i].tag < |own| && CmdRel(sq[i], slots[sq[i].tag], sts[sq[i].tag]))
    && (forall i | head <= i < |cq| :: cq[i].tag < |own| && CqeRel(cq[i], slots[cq[i].tag], sts[cq[i].tag]))
  }

  ghost predicate WorkerRel(s: State, token: seq<Token>, slots: seq<seq<Status>>, k: Worker) {
    && k.q < |s.queues| == |slots| && k.tag < |s.queues[k.q].slots| == |slots[k.q]| && k.m < |s.msgs| == |token|
    && WorkRel(k, s.queues[k.q].slots[k.tag], s.msgs[k.m], Applied(token[k.m], s.handlers), slots[k.q][k.tag])
  }

  ghost predicate Rel(c: Config, s: State, g: Book, d: Dev) {
    && d.disk == s.disk && |d.disk| == |c.disk0| && |d.slots| == |s.queues| == |g.slot|
    && (forall q | 0 <= q < |s.queues| ::
          QueueRel(s.queues[q].slots, g.slot[q], s.queues[q].sq, s.queues[q].cq, s.queues[q].head, d.slots[q]))
    && (forall w | 0 <= w < |s.workers| :: WorkerRel(s, g.token, d.slots, s.workers[w]))
  }

  // ---------------------------------------------------------------- which move a step is

  /** The event a step shows at the border with the driver. */
  function EventOf(c: Config, s: State, l: Label): Option<Event>
    requires Enabled(c, s, l)
  {
    match l
    case KTake(q) =>
      (var u := s.queues[q];
       match u.sq[0]
       case Fetch(t) => Some(EFetch(q, t))
       case Commit(t, r) => Some(ECommit(q, t, Resp(r, if t < |u.slots| then Copied(u.slots[t]) else [])))
       case GetData(t) => None)
    case KPost(q, t, d, payload) => Some(EArrive(q, t, Req(KindOf(d), Off(d), Len(d), payload)))
    case KFail(q, t, res) => Some(EFail(q, t))
    case _ => None
  }

  // The handler call, or the dispatcher's answer to an unsupported type, is the moment of effect.
  function MoveOf(c: Config, s: State, g: Book, l: Label): Option<Move>
    requires Enabled(c, s, l)
  {
    match EventOf(c, s, l)
    case Some(e) => Some(External(e))
    case None =>
      match l
      case HStep(h, err, fill) => if s.handlers[h].pc.HCall? then ApplyTo(s, g, s.handlers[h].m, fill) else None
      case DStep =>
        if s.disp.Some? && !KnownType(s.msgs[s.disp.value].ty) then ApplyTo(s, g, s.disp.value, []) else None
      case QStep(q) => if Loses(s.queues[q]) then Some(Lose(q, s.queues[q].pc.page)) else None
      case _ => None
  }

  // The discard that loses a posted write.
  predicate Loses(u: Queue) { u.pc.QDiscard? && u.pc.page < |u.slots| && Unreaped(u, u.pc.page) }

  function ApplyTo(s: State, g: Book, m: nat, fill: seq<bv8>): Option<Move> {
    if m < |g.msg| && g.msg[m].WithWorker? && g.msg[m].w < |s.workers|
    then Some(Apply(s.workers[g.msg[m].w].q, s.workers[g.msg[m].w].tag, fill)) else None
  }

  /** An idle discard of page t loses data when the driver has already filled the slot's buffer for a
      write the queue thread has not reaped, and that data is not all zero. */
  predicate Unreaped(u: Queue, t: nat) {
    exists i :: u.head <= i < |u.cq| && u.cq[i] == Cqe(t, RES_OK) && Payload(u, t)
  }

  predicate Payload(u: Queue, t: nat) {
    && t < |u.slots| && KindOf(u.slots[t].iod) == Write && Len(u.slots[t].iod) <= |u.slots[t].buf|
    && u.slots[t].buf[..Len(u.slots[t].iod)] != Zeros(Len(u.slots[t].iod))
  }

  predicate QuietDiscard(s: State, l: Label) { l.QStep? && l.q < |s.queues| ==> !Loses(s.queues[l.q]) }

  function After(d: Dev, m: Option<Move>): Dev
    requires m.Some? ==> DevEnabled(d, m.value)
  {
    if m.Some? then DevNext(d, m.value) else d
  }

  ghost predicate Simulates(c: Config, s: State, g: Book, d: Dev, l: Label)
    requires Enabled(c, s, l)
  {
    && (MoveOf(c, s, g, l).Some? ==> DevEnabled(d, MoveOf(c, s, g, l).value))
    && Rel(c, Next(c, s, l), Advance(c, s, g, l), After(d, MoveOf(c, s, g, l)))
  }
}
