/** The commands of one slot over a whole run: what the driver takes, posts and fails. */
module Language {
  import opened Machine
  import opened Ledger
  import opened PreserveThread
  import opened Device
  import opened Refine
  import opened Runs

  // ---------------------------------------------------------------- the driver's steps at one slot

  // The driver accepts a command of slot (q, t).
  predicate Takes(s: State, l: Label, q: nat, t: nat) {
    l == KTake(q) && q < |s.queues| && s.queues[q].sq != [] && s.queues[q].sq[0].tag == t
  }

  predicate Posts(l: Label, q: nat, t: nat) { l.KPost? && l.q == q && l.t == t }

  predicate Fails(l: Label, q: nat, t: nat) { l.KFail? && l.q == q && l.t == t }

  predicate Touches(s: State, l: Label, q: nat, t: nat) { Takes(s, l, q, t) || Posts(l, q, t) || Fails(l, q, t) }

  ghost predicate Untouched(r: Run, lo: nat, hi: nat, q: nat, t: nat) {
    forall n {:trigger r.labels[n]} | lo <= n < hi && n < |r.labels| && n < |r.states| :: !Touches(r.states[n], r.labels[n], q, t)
  }

  // Step i is the driver's last one at the slot before step n.
  ghost predicate LastAt(r: Run, i: nat, n: nat, q: nat, t: nat) {
    i < n <= |r.labels| < |r.states| && Touches(r.states[i], r.labels[i], q, t) && Untouched(r, i + 1, n, q, t)
  }

  ghost predicate TakenAt(r: Run, i: nat, n: nat, q: nat, t: nat) {
    LastAt(r, i, n, q, t) && Takes(r.states[i], r.labels[i], q, t)
  }

  ghost predicate PostedAs(r: Run, i: nat, n: nat, q: nat, t: nat, d: Desc) {
    LastAt(r, i, n, q, t) && Posts(r.labels[i], q, t) && r.labels[i].d == d
  }

  ghost predicate FailedAt(r: Run, i: nat, n: nat, q: nat, t: nat) {
    LastAt(r, i, n, q, t) && Fails(r.labels[i], q, t)
  }

  lemma LastIsOne(r: Run, i: nat, j: nat, n: nat, q: nat, t: nat)
    requires LastAt(r, i, n, q, t) && LastAt(r, j, n, q, t)
    ensures i == j
  {
  }

  // ---------------------------------------------------------------- what a slot's status remembers

  // The request comes from the descriptor posted at i, with its payload unless a discard lost it.
  ghost predicate ServedFrom(c: Config, r: Run, i: nat, n: nat, q: nat, t: nat, d: Desc, req: Req) {
    && PostedAs(r, i, n, q, t, d) && DescOk(c, d)
    && req.kind == KindOf(d) && req.off == Off(d) && req.len == Len(d)
    && |req.data| == |r.labels[i].payload| && (QuietUpTo(r, n) ==> req.data == r.labels[i].payload)
  }

  // Step j of the run is the request's moment of effect on the array.
  ghost predicate EffectAt(r: Run, j: nat, req: Req, resp: Resp) {
    && j < |r.labels| && j + 1 < |r.states|
    && Effects(r.states[j].disk, r.states[j + 1].disk, req, resp, FillOf(r.labels[j]))
  }

  // What a discard's handler leaves in its range.
  function FillOf(l: Label): seq<bv8> { if l.HStep? then l.fill else [] }

  predicate Effects(disk: seq<bv8>, disk': seq<bv8>, req: Req, resp: Resp, fill: seq<bv8>) {
    Applicable(disk, req, fill) && resp == Answer(disk, req, fill) && disk' == Effect(disk, req, fill)
  }

  ghost predicate DoneFrom(c: Config, r: Run, i: nat, j: nat, n: nat, q: nat, t: nat, d: Desc, req: Req, resp: Resp) {
    ServedFrom(c, r, i, n, q, t, d, req) && i < j < n && EffectAt(r, j, req, resp)
  }

  ghost predicate Story(c: Config, r: Run, n: nat, q: nat, t: nat, st: Status) {
    match st
    case Unfetched => Untouched(r, 0, n, q, t)
    case Armed => exists i :: TakenAt(r, i, n, q, t)
    case Pending(req) => exists i, d :: ServedFrom(c, r, i, n, q, t, d, req)
    case Done(req, resp) => exists i, j, d :: DoneFrom(c, r, i, j, n, q, t, d, req, resp)
    case Failed => exists i :: FailedAt(r, i, n, q, t)
  }

  // How one step of the pipeline, from one array to the next, moves the status of one slot.
  ghost predicate StatusStep(s: State, disk': seq<bv8>, l: Label, q: nat, t: nat, st: Status, st': Status) {
    if Takes(s, l, q, t) then st' == Armed
    else if Posts(l, q, t) then st' == Pending(Req(KindOf(l.d), Off(l.d), Len(l.d), l.payload))
    else if Fails(l, q, t) then st' == Failed
    else
      || st' == st
      || (st.Pending? && st' == Pending(Blanked(st.req)) && !QuietDiscard(s, l))
      || (st.Pending? && st'.Done? && st'.req == st.req && Effects(s.disk, disk', st.req, st'.resp, FillOf(l)))
  }

  lemma ApplyStatus(d: Dev, m: Move, q: nat, t: nat)
    requires DevEnabled(d, m) && m.Apply? && HasSlot(d, q, t)
    ensures var st, st' := d.slots[q][t], DevNext(d, m).slots[q][t];
            st' == st || (st.Pending? && st'.Done? && st'.req == st.req && Effects(d.disk, DevNext(d, m).disk, st.req, st'.resp, m.fill))
  {
  }

  lemma MoveStatus(c: Config, s: State, g: Book, d: Dev, l: Label, q: nat, t: nat)
    requires Enabled(c, s, l) && HasSlot(d, q, t) && d.disk == s.disk
    requires l.KTake? ==> !s.queues[l.q].sq[0].GetData?
    requires var m := MoveOf(c, s, g, l); (m.Some? ==> DevEnabled(d, m.value)) && After(d, m).disk == Next(c, s, l).disk
    ensures var d' := After(d, MoveOf(c, s, g, l));
            HasSlot(d', q, t) && StatusStep(s, Next(c, s, l).disk, l, q, t, d.slots[q][t], d'.slots[q][t])
  {
    var m := MoveOf(c, s, g, l);
    if m.Some? && m.value.Apply? {
      ApplyStatus(d, m.value, q, t);
    } else {
      MoveLoses(c, s, g, l);
      match l {
        case KTake(a) =>
        case KPost(a, b, e, payload) =>
        case KFail(a, b, res) =>
        case _ =>
      }
    }
  }

  lemma Extends(r: Run, i: nat, n: nat, q: nat, t: nat)
    requires LastAt(r, i, n, q, t) && n < |r.labels| && !Touches(r.states[n], r.labels[n], q, t)
    ensures LastAt(r, i, n + 1, q, t)
  {
  }

  lemma ServedKept(c: Config, r: Run, i: nat, n: nat, q: nat, t: nat, d: Desc, req: Req, req': Req)
    requires ServedFrom(c, r, i, n, q, t, d, req) && n < |r.labels| && !Touches(r.states[n], r.labels[n], q, t)
    requires req' == req || (req' == Blanked(req) && !QuietDiscard(r.states[n], r.labels[n]))
    ensures ServedFrom(c, r, i, n + 1, q, t, d, req')
  {
    Extends(r, i, n, q, t);
    QuietNext(r, n);
  }

  lemma StoryKept(c: Config, r: Run, n: nat, q: nat, t: nat, st: Status, st': Status)
    requires n < |r.labels| && |r.states| == |r.labels| + 1 && Story(c, r, n, q, t, st)
    requires !Touches(r.states[n], r.labels[n], q, t)
    requires StatusStep(r.states[n], r.states[n + 1].disk, r.labels[n], q, t, st, st')
    ensures Story(c, r, n + 1, q, t, st')
  {
    match st {
      case Unfetched =>
      case Armed =>
        var i :| TakenAt(r, i, n, q, t);
        Extends(r, i, n, q, t);
        assert TakenAt(r, i, n + 1, q, t);
      case Failed =>
        var i :| FailedAt(r, i, n, q, t);
        Extends(r, i, n, q, t);
        assert FailedAt(r, i, n + 1, q, t);
      case Pending(req) =>
        var i, d :| ServedFrom(c, r, i, n, q, t, d, req);
        ServedKept(c, r, i, n, q, t, d, req, st'.req);
        if st'.Done? {
          assert EffectAt(r, n, req, st'.resp);
          assert DoneFrom(c, r, i, n, n + 1, q, t, d, req, st'.resp);
        }
      case Done(req, resp) =>
        var i, j, d :| DoneFrom(c, r, i, j, n, q, t, d, req, resp);
        ServedKept(c, r, i, n, q, t, d, req, req);
        assert DoneFrom(c, r, i, j, n + 1, q, t, d, req, resp);
    }
  }

  lemma StoryNext(c: Config, r: Run, n: nat, q: nat, t: nat, st: Status, st': Status)
    requires IsRun(c, r) && n < |r.labels| && Story(c, r, n, q, t, st)
    requires StatusStep(r.states[n], r.states[n + 1].disk, r.labels[n], q, t, st, st')
    ensures Story(c, r, n + 1, q, t, st')
  {
    var s, l := r.states[n], r.labels[n];
    if !Touches(s, l, q, t) {
      StoryKept(c, r, n, q, t, st, st');
    } else {
      assert LastAt(r, n, n + 1, q, t);
      assert StepAt(c, r, n);
      if Takes(s, l, q, t) {
        assert TakenAt(r, n, n + 1, q, t);
      } else if Posts(l, q, t) {
        assert ServedFrom(c, r, n, n + 1, q, t, l.d, st'.req);
      } else {
        assert FailedAt(r, n, n + 1, q, t);
      }
    }
  }

  ghost predicate Stories(c: Config, r: Run, n: nat, d: Dev) {
    forall q, t | 0 <= q < c.queues && 0 <= t < c.depth :: HasSlot(d, q, t) && Story(c, r, n, q, t, d.slots[q][t])
  }

  ghost predicate Told(c: Config, r: Run, n: nat, g: Book, d: Dev) {
    n < |r.states| && InStep(c, r.states[n], g, d) && Stories(c, r, n, d)
  }

  lemma ToldNext(c: Config, r: Run, n: nat, g: Book, d: Dev) returns (g': Book, d': Dev)
    requires ValidConfig(c) && IsRun(c, r) && n < |r.labels| && NoError(r.labels[n]) && Told(c, r, n, g, d)
    ensures Told(c, r, n + 1, g', d')
  {
    assert StepAt(c, r, n);
    var s, l := r.states[n], r.labels[n];
    StepInStep(c, s, g, d, l);
    g', d' := Advance(c, s, g, l), After(d, MoveOf(c, s, g, l));
    if l.KTake? { assert QueueInv(c, s.queues[l.q], g.slot[l.q], l.q, s.workers); }
    forall q, t | 0 <= q < c.queues && 0 <= t < c.depth ensures HasSlot(d', q, t) && Story(c, r, n + 1, q, t, d'.slots[q][t]) {
      MoveStatus(c, s, g, d, l, q, t);
      StoryNext(c, r, n, q, t, d.slots[q][t], d'.slots[q][t]);
    }
  }

  lemma ToldInit(c: Config, r: Run)
    requires ValidConfig(c) && IsRun(c, r)
    ensures Told(c, r, 0, InitBook(c), InitDev(c))
  {
    InStepInit(c);
  }

  lemma {:induction false} Chronicle(c: Config, r: Run, n: nat) returns (g: Book, d: Dev)
    requires ValidConfig(c) && IsRun(c, r) && Errorless(r) && n < |r.states|
    ensures Told(c, r, n, g, d)
  {
    if n == 0 {
      g, d := InitBook(c), InitDev(c);
      ToldInit(c, r);
    } else {
      var h, e := Chronicle(c, r, n - 1);
      g, d := ToldNext(c, r, n - 1, h, e);
    }
  }

  // ---------------------------------------------------------------- the language

  // The answer of a driver's request is the reply of its descriptor.
  lemma ReplyOf(c: Config, d: Desc, disk: seq<bv8>, req: Req, fill: seq<bv8>)
    requires ValidConfig(c) && DescOk(c, d) && req.kind == KindOf(d) && req.len == Len(d) && Applicable(disk, req, fill)
    ensures Answer(disk, req, fill).result == Reply(d)
  {
    DescBounds(c, d);
  }

  lemma StatusAtTake(c: Config, s: State, g: Book, d: Dev, l: Label, q: nat, t: nat)
    requires InStep(c, s, g, d) && Enabled(c, s, l) && Takes(s, l, q, t)
    ensures q < c.queues && t < c.depth && HasSlot(d, q, t) && t < |s.queues[q].slots|
    ensures var cmd, st := s.queues[q].sq[0], d.slots[q][t];
            || (cmd == Fetch(t) && st.Unfetched?)
            || (cmd.Commit? && st.Done? && cmd.tag == t && st.resp == Resp(cmd.result, Copied(s.queues[q].slots[t])))
  {
    assert QueueInv(c, s.queues[q], g.slot[q], q, s.workers);
    assert CmdRel(s.queues[q].sq[0], s.queues[q].slots[t], d.slots[q][t]);
  }

  /** What a command means: FETCH if nothing touched the slot before; otherwise the commit of the request req
      posted at i for descriptor d, whose effect on the array was step j, with that moment's answer. */
  lemma Meaning(c: Config, r: Run, k: nat, q: nat, t: nat) returns (i: nat, j: nat, d: Desc, req: Req)
    requires ValidConfig(c) && IsRun(c, r) && Errorless(r) && k < |r.labels| && Takes(r.states[k], r.labels[k], q, t)
    ensures t < |r.states[k].queues[q].slots|
    ensures var u := r.states[k].queues[q];
            if Untouched(r, 0, k, q, t) then u.sq[0] == Fetch(t)
            else u.sq[0].Commit? && u.sq[0].tag == t && DoneFrom(c, r, i, j, k, q, t, d, req, Resp(u.sq[0].result, Copied(u.slots[t])))
  {
    var g, e := Chronicle(c, r, k);
    assert StepAt(c, r, k);
    StatusAtTake(c, r.states[k], g, e, r.labels[k], q, t);
    var st := e.slots[q][t];
    i, j, d, req := 0, 0, Desc(0, 0, 0), Req(Read, 0, 0, []);
    assert Story(c, r, k, q, t, st);
    if st.Done? {
      req := st.req;
      i, j, d :| DoneFrom(c, r, i, j, k, q, t, d, req, st.resp);
      assert Touches(r.states[i], r.labels[i], q, t);
    }
  }

  /** A slot's first command is its FETCH. Every later one is a COMMIT that answers the driver's last step
      at the slot, a posted request, with the reply of that request's descriptor: nr_sectors * 512, or 0 for
      a discard. */
  lemma CommandLanguage(c: Config, r: Run, k: nat, q: nat, t: nat) returns (i: nat, d: Desc)
    requires ValidConfig(c) && IsRun(c, r) && Errorless(r) && k < |r.labels| && Takes(r.states[k], r.labels[k], q, t)
    ensures var cmd := r.states[k].queues[q].sq[0];
            if Untouched(r, 0, k, q, t) then cmd == Fetch(t)
            else cmd == Commit(t, Reply(d)) && PostedAs(r, i, k, q, t, d)
  {
    var j, req;
    i, j, d, req := Meaning(c, r, k, q, t);
    if !Untouched(r, 0, k, q, t) {
      var u := r.states[k].queues[q];
      ReplyOf(c, d, r.states[j].disk, req, FillOf(r.labels[j]));
    }
  }

  /** Two commits of a slot answer two different requests, each posted after the previous command. */
  lemma CommitsAnswerDistinct(c: Config, r: Run, k: nat, k': nat, q: nat, t: nat)
    returns (i: nat, d: Desc, i': nat, d': Desc)
    requires ValidConfig(c) && IsRun(c, r) && Errorless(r) && k < k' < |r.labels|
    requires Takes(r.states[k], r.labels[k], q, t) && Takes(r.states[k'], r.labels[k'], q, t)
    requires r.states[k].queues[q].sq[0].Commit?
    ensures PostedAs(r, i, k, q, t, d) && PostedAs(r, i', k', q, t, d') && i < k < i' < k'
    ensures r.states[k].queues[q].sq[0] == Commit(t, Reply(d)) && r.states[k'].queues[q].sq[0] == Commit(t, Reply(d'))
  {
    i, d := CommandLanguage(c, r, k, q, t);
    i', d' := CommandLanguage(c, r, k', q, t);
    assert Touches(r.states[k], r.labels[k], q, t);
  }

  lemma StatusAtPost(c: Config, s: State, g: Book, d: Dev, l: Label, q: nat, t: nat)
    requires InStep(c, s, g, d) && Enabled(c, s, l) && (Posts(l, q, t) || Fails(l, q, t))
    ensures q < c.queues && t < c.depth && HasSlot(d, q, t) && d.slots[q][t].Armed?
  {
    var u := s.queues[q];
    assert QueueInv(c, u, g.slot[q], q, s.workers);
    assert SlotInv(t, u.slots[t].flags, g.slot[q][t], u.kern, Busy(u.pc));
    assert RestRel(g.slot[q][t], u.slots[t], d.slots[q][t]);
  }

  /** The driver posts or fails only a command it has taken, once: its last step at the slot was the take. */
  lemma PostsFollowTakes(c: Config, r: Run, k: nat, q: nat, t: nat) returns (i: nat)
    requires ValidConfig(c) && IsRun(c, r) && Errorless(r) && k < |r.labels|
    requires Posts(r.labels[k], q, t) || Fails(r.labels[k], q, t)
    ensures TakenAt(r, i, k, q, t)
  {
    var g, e := Chronicle(c, r, k);
    assert StepAt(c, r, k);
    StatusAtPost(c, r.states[k], g, e, r.labels[k], q, t);
    assert Story(c, r, k, q, t, e.slots[q][t]);
    i :| TakenAt(r, i, k, q, t);
  }

  /** After a failed command the driver never touches the slot again. */
  lemma {:induction false} FailureIsLast(c: Config, r: Run, i: nat, k: nat, q: nat, t: nat)
    requires ValidConfig(c) && IsRun(c, r) && Errorless(r) && i < k <= |r.labels| && Fails(r.labels[i], q, t)
    ensures Untouched(r, i + 1, k, q, t)
  {
    if k > i + 1 {
      FailureIsLast(c, r, i, k - 1, q, t);
      var s, l := r.states[k - 1], r.labels[k - 1];
      assert LastAt(r, i, k - 1, q, t);
      if Takes(s, l, q, t) {
        var j, d := CommandLanguage(c, r, k - 1, q, t);
        assert Touches(r.states[i], r.labels[i], q, t);
        LastIsOne(r, i, j, k - 1, q, t);
      } else if Posts(l, q, t) || Fails(l, q, t) {
        var j := PostsFollowTakes(c, r, k - 1, q, t);
        LastIsOne(r, i, j, k - 1, q, t);
      }
    }
  }
}
