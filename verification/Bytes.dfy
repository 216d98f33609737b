/** What every request does to the array and to its slot, in the driver's own numbers: opcodes, sectors, bytes. */
module Bytes {
  import opened Words
  import opened Machine
  import opened Device
  import opened Refine
  import opened Binding
  import opened Runs
  import opened Theorems
  import opened Language

  // The request of Meaning is the posted one.
  lemma MeaningOf(c: Config, r: Run, i: nat, k: nat, q: nat, t: nat, d: Desc) returns (j: nat, req: Req)
    requires ValidConfig(c) && IsRun(c, r) && Errorless(r) && k < |r.labels| && Takes(r.states[k], r.labels[k], q, t)
    requires PostedAs(r, i, k, q, t, d)
    ensures ServedFrom(c, r, i, k, q, t, d, req) && i < j < k && t < |r.states[k].queues[q].slots|
    ensures var u := r.states[k].queues[q];
            u.sq[0].Commit? && u.sq[0].tag == t && EffectAt(r, j, req, Resp(u.sq[0].result, Copied(u.slots[t])))
  {
    var i', d';
    assert Touches(r.states[i], r.labels[i], q, t);
    i', j, d', req := Meaning(c, r, k, q, t);
    LastIsOne(r, i, i', k, q, t);
  }

  // The words of a request the driver may send, by opcode.
  lemma ByOpcode(c: Config, d: Desc)
    requires ValidConfig(c) && DescOk(c, d)
    ensures var op := d.opFlags % 256;
            && (op == 0 <==> KindOf(d) == Read) && (op == 1 <==> KindOf(d) == Write) && (op == 3 <==> KindOf(d) == Unmap)
            && (op == 0 || op == 1 || op == 3 ==>
                  Off(d) == d.start * 512 && Len(d) == d.nsec * 512 && d.start * 512 + d.nsec * 512 <= |c.disk0|)
            && (op == 0 || op == 1 ==> d.nsec * 512 < 0x8000_0000)
  {
    DescBounds(c, d);
  }

  // The bytes of a range are data, all others are kept.
  predicate Overwritten(disk: seq<bv8>, disk': seq<bv8>, off: nat, data: seq<bv8>) {
    && |disk'| == |disk| && off + |data| <= |disk|
    && (forall x | 0 <= x < |disk| :: disk'[x] == if off <= x < off + |data| then data[x - off] else disk[x])
  }

  // The buffer the driver reads when it accepts a commit.
  function Buffer(s: State, q: nat, t: nat): seq<bv8>
    requires q < |s.queues| && t < |s.queues[q].slots|
  {
    s.queues[q].slots[t].buf
  }

  /** A posted read (opcode 0) is committed with its byte count, and at that moment its slot buffer begins with the
      bytes the array held in its range at one step since the post; that step leaves the array alone. */
  lemma ReadIsServed(c: Config, r: Run, i: nat, k: nat, q: nat, t: nat, d: Desc) returns (j: nat)
    requires ValidConfig(c) && IsRun(c, r) && Errorless(r) && k < |r.labels| && Takes(r.states[k], r.labels[k], q, t)
    requires PostedAs(r, i, k, q, t, d) && d.opFlags % 256 == 0
    ensures i < j < k && q < |r.states[k].queues| && t < |r.states[k].queues[q].slots|
    ensures var off, n := d.start * 512, d.nsec * 512;
            && r.states[k].queues[q].sq[0] == Commit(t, n)
            && off + n <= |r.states[j].disk| && n <= |Buffer(r.states[k], q, t)|
            && Buffer(r.states[k], q, t)[..n] == r.states[j].disk[off..off + n]
            && r.states[j + 1].disk == r.states[j].disk
  {
    var req;
    j, req := MeaningOf(c, r, i, k, q, t, d);
    ByOpcode(c, d);
    SlotBytes(c, r, i, k, q, t, d);
  }

  // ---------------------------------------------------------------- the descriptor stays

  predicate DescAt(s: State, q: nat, t: nat, d: Desc) {
    q < |s.queues| && t < |s.queues[q].slots| && s.queues[q].slots[t].iod == d
  }

  lemma DescKeptQ(c: Config, s: State, p: nat, q: nat, t: nat, d: Desc)
    requires QEnabled(c, s, p) && DescAt(s, q, t, d)
    ensures DescAt(QNext(c, s, p), q, t, d)
  {
    var u := s.queues[p];
    if !u.pc.QDispatch? && !u.pc.QBind? { LocalSlots(u); }
  }

  lemma DescKeptW(c: Config, s: State, w: nat, q: nat, t: nat, d: Desc)
    requires WEnabled(c, s, w) && DescAt(s, q, t, d)
    ensures DescAt(WNext(c, s, w), q, t, d)
  {
  }

  lemma DescKeptStep(c: Config, s: State, l: Label, q: nat, t: nat, d: Desc)
    requires Enabled(c, s, l) && DescAt(s, q, t, d) && !Posts(l, q, t)
    ensures DescAt(Next(c, s, l), q, t, d)
  {
    match l {
      case QStep(p) => DescKeptQ(c, s, p, q, t, d);
      case WStep(w) => DescKeptW(c, s, w, q, t, d);
      case _ =>
    }
  }

  lemma {:induction false} DescKept(c: Config, r: Run, i: nat, k: nat, q: nat, t: nat, d: Desc)
    requires IsRun(c, r) && PostedAs(r, i, k, q, t, d)
    ensures DescAt(r.states[k], q, t, d)
  {
    assert StepAt(c, r, k - 1);
    if k > i + 1 {
      assert !Touches(r.states[k - 1], r.labels[k - 1], q, t);
      assert PostedAs(r, i, k - 1, q, t, d);
      DescKept(c, r, i, k - 1, q, t, d);
      DescKeptStep(c, r.states[k - 1], r.labels[k - 1], q, t, d);
    }
  }

  // A slot's buffer is as large as a read, and its descriptor is the posted one.
  lemma SlotBytes(c: Config, r: Run, i: nat, k: nat, q: nat, t: nat, d: Desc)
    requires ValidConfig(c) && IsRun(c, r) && Errorless(r) && k < |r.labels| && Takes(r.states[k], r.labels[k], q, t)
    requires PostedAs(r, i, k, q, t, d)
    ensures t < |r.states[k].queues[q].slots| && r.states[k].queues[q].slots[t].iod == d
    ensures |r.states[k].queues[q].slots[t].buf| == c.bufBytes
  {
    var g := ReachableInv(c, r, k);
    DescKept(c, r, i, k, q, t, d);
  }

  /** A posted write (opcode 1) is committed with its byte count, and one step since the post put its payload into
      its range of the array and changed nothing else; the bytes are the payload's unless a discard lost them. */
  lemma WriteIsServed(c: Config, r: Run, i: nat, k: nat, q: nat, t: nat, d: Desc) returns (j: nat, data: seq<bv8>)
    requires ValidConfig(c) && IsRun(c, r) && Errorless(r) && k < |r.labels| && Takes(r.states[k], r.labels[k], q, t)
    requires PostedAs(r, i, k, q, t, d) && d.opFlags % 256 == 1
    ensures i < j < k && q < |r.states[k].queues|
    ensures r.states[k].queues[q].sq[0] == Commit(t, d.nsec * 512) && |data| == d.nsec * 512
    ensures Overwritten(r.states[j].disk, r.states[j + 1].disk, d.start * 512, data)
    ensures QuietUpTo(r, k) ==> data == r.labels[i].payload
  {
    var req;
    j, req := MeaningOf(c, r, i, k, q, t, d);
    ByOpcode(c, d);
    data := req.data;
  }

  /** A posted discard (opcode 3) is committed with 0, and one step since the post put what its handler left there
      into its range and changed nothing outside. */
  lemma DiscardIsServed(c: Config, r: Run, i: nat, k: nat, q: nat, t: nat, d: Desc) returns (j: nat)
    requires ValidConfig(c) && IsRun(c, r) && Errorless(r) && k < |r.labels| && Takes(r.states[k], r.labels[k], q, t)
    requires PostedAs(r, i, k, q, t, d) && d.opFlags % 256 == 3
    ensures i < j < k && q < |r.states[k].queues|
    ensures r.states[k].queues[q].sq[0] == Commit(t, 0) && |FillOf(r.labels[j])| == d.nsec * 512
    ensures Overwritten(r.states[j].disk, r.states[j + 1].disk, d.start * 512, FillOf(r.labels[j]))
  {
    var req;
    j, req := MeaningOf(c, r, i, k, q, t, d);
    ByOpcode(c, d);
  }

  /** Any other posted request is committed with its byte count as a signed word, and its moment leaves the array alone. */
  lemma OtherIsServed(c: Config, r: Run, i: nat, k: nat, q: nat, t: nat, d: Desc) returns (j: nat)
    requires ValidConfig(c) && IsRun(c, r) && Errorless(r) && k < |r.labels| && Takes(r.states[k], r.labels[k], q, t)
    requires PostedAs(r, i, k, q, t, d) && d.opFlags % 256 != 0 && d.opFlags % 256 != 1 && d.opFlags % 256 != 3
    ensures i < j < k && q < |r.states[k].queues|
    ensures r.states[k].queues[q].sq[0] == Commit(t, ToI32((d.nsec * 512) % 0x1_0000_0000))
    ensures r.states[j + 1].disk == r.states[j].disk
  {
    var req;
    j, req := MeaningOf(c, r, i, k, q, t, d);
    ByOpcode(c, d);
  }

  // ---------------------------------------------------------------- the message type

  /** Until its data is copied back, a worker's request carries type 0, 1 or 7 exactly when its slot's descriptor has
      opcode 0, 1 or 3, and never the type of a ping. */
  lemma TypesMatchOpcodes(c: Config, s: State, w: nat)
    requires Reachable(c, s) && w < |s.workers|
    requires s.workers[w].pc == WSend || s.workers[w].pc == WWait || s.workers[w].pc == WCopy
    ensures var k := s.workers[w];
            k.q < |s.queues| && k.tag < |s.queues[k.q].slots| && k.m < |s.msgs|
    ensures var k := s.workers[w];
            var op, ty := s.queues[k.q].slots[k.tag].iod.opFlags % 256, s.msgs[k.m].ty;
            && (ty == 0 <==> op == 0) && (ty == 1 <==> op == 1) && (ty == 7 <==> op == 3) && ty != 6
  {
    BindingHolds(c, s, w);
  }
}
