/** Whole runs of the machine, and the invariants at each of their states. */
module Runs {
  import opened Machine
  import opened Ledger
  import opened PreserveThread
  import opened Binding
  import opened Device
  import opened Refine
  import opened RefineWork

  datatype Run = Run(states: seq<State>, labels: seq<Label>)

  ghost predicate StepAt(c: Config, r: Run, i: nat) {
    && i < |r.labels| && i + 1 < |r.states|
    && Enabled(c, r.states[i], r.labels[i]) && r.states[i + 1] == Next(c, r.states[i], r.labels[i])
  }

  // A run starts as ublksrv_queue_init and Start leave the device, and takes enabled steps.
  ghost predicate IsRun(c: Config, r: Run) {
    && |r.states| == |r.labels| + 1
    && r.states[0] == Init(c)
    && (forall i | 0 <= i < |r.labels| :: StepAt(c, r, i))
  }

  // No handler call in the run returns an error.
  ghost predicate Errorless(r: Run) {
    forall i | 0 <= i < |r.labels| :: NoError(r.labels[i])
  }

  // No idle discard of the first n steps loses a posted write.
  predicate QuietUpTo(r: Run, n: nat)
    requires n <= |r.labels| < |r.states|
  {
    forall i {:trigger r.labels[i]} | 0 <= i < n :: QuietDiscard(r.states[i], r.labels[i])
  }

  predicate Quiet(r: Run) { |r.states| == |r.labels| + 1 && QuietUpTo(r, |r.labels|) }

  lemma {:induction false} ReachableInv(c: Config, r: Run, i: nat) returns (g: Book)
    requires ValidConfig(c) && IsRun(c, r) && Errorless(r) && i < |r.states|
    ensures Inv(c, r.states[i], g) && BindInv(c, r.states[i])
  {
    if i == 0 {
      g := InitBook(c);
      InitInv(c);
      InitBound(c);
    } else {
      var h := ReachableInv(c, r, i - 1);
      assert StepAt(c, r, i - 1);
      g := Advance(c, r.states[i - 1], h, r.labels[i - 1]);
      StepKeepsInv(c, r.states[i - 1], h, r.labels[i - 1]);
      StepKeepsBinding(c, r.states[i - 1], h, r.labels[i - 1]);
    }
  }

  // ---------------------------------------------------------------- linearizability

  // The events of the first n steps, in order.
  ghost function Trace(c: Config, r: Run, n: nat): seq<Event>
    requires IsRun(c, r) && n <= |r.labels|
  {
    if n == 0 then []
    else
      assert StepAt(c, r, n - 1);
      Trace(c, r, n - 1) + Visible(EventOf(c, r.states[n - 1], r.labels[n - 1]))
  }

  datatype DevRun = DevRun(devs: seq<Dev>, moves: seq<Move>)

  ghost predicate MoveAt(d: DevRun, i: nat) {
    && i < |d.moves| && i + 1 < |d.devs|
    && DevEnabled(d.devs[i], d.moves[i]) && d.devs[i + 1] == DevNext(d.devs[i], d.moves[i])
  }

  // A run of the array device that may also lose posted writes.
  ghost predicate IsLossyRun(c: Config, d: DevRun) {
    && |d.devs| == |d.moves| + 1
    && d.devs[0] == InitDev(c)
    && (forall i | 0 <= i < |d.moves| :: MoveAt(d, i))
  }

  predicate Lossless(moves: seq<Move>) { forall m <- moves :: !m.Lose? }

  ghost predicate IsDevRun(c: Config, d: DevRun) { IsLossyRun(c, d) && Lossless(d.moves) }

  function Shown1(m: Move): seq<Event> {
    match m
    case External(e) => [e]
    case _ => []
  }

  function Shown(moves: seq<Move>): seq<Event> {
    if moves == [] then [] else Shown(moves[..|moves| - 1]) + Shown1(moves[|moves| - 1])
  }

  lemma InitRel(c: Config)
    requires ValidConfig(c)
    ensures Rel(c, Init(c), InitBook(c), InitDev(c))
  {
  }

  ghost function Last<T>(xs: seq<T>): T
    requires xs != []
  {
    xs[|xs| - 1]
  }

  lemma Extend(c: Config, d: DevRun, m: Move)
    requires IsLossyRun(c, d) && DevEnabled(Last(d.devs), m)
    ensures IsLossyRun(c, DevRun(d.devs + [DevNext(Last(d.devs), m)], d.moves + [m]))
    ensures Shown(d.moves + [m]) == Shown(d.moves) + Shown1(m)
    ensures Lossless(d.moves + [m]) <==> Lossless(d.moves) && !m.Lose?
  {
    var e := DevRun(d.devs + [DevNext(Last(d.devs), m)], d.moves + [m]);
    assert e.moves[..|d.moves|] == d.moves;
    forall i | 0 <= i < |e.moves| ensures MoveAt(e, i) {
      if i < |d.moves| { assert MoveAt(d, i); }
    }
    assert m in e.moves;
    assert forall x <- d.moves :: x in e.moves;
  }

  function Visible(e: Option<Event>): seq<Event> {
    match e
    case Some(x) => [x]
    case None => []
  }

  lemma MoveLoses(c: Config, s: State, g: Book, l: Label)
    requires Enabled(c, s, l)
    ensures MoveOf(c, s, g, l).Some? && MoveOf(c, s, g, l).value.Lose? <==> !QuietDiscard(s, l)
  {
  }

  // The device run follows one step of the pipeline.
  lemma Follow(c: Config, s: State, g: Book, e: DevRun, l: Label) returns (d: DevRun)
    requires Enabled(c, s, l) && IsLossyRun(c, e) && Simulates(c, s, g, Last(e.devs), l)
    ensures IsLossyRun(c, d) && Rel(c, Next(c, s, l), Advance(c, s, g, l), Last(d.devs))
    ensures Last(d.devs) == After(Last(e.devs), MoveOf(c, s, g, l))
    ensures Shown(d.moves) == Shown(e.moves) + Visible(EventOf(c, s, l))
    ensures Lossless(d.moves) <==> Lossless(e.moves) && QuietDiscard(s, l)
  {
    var m := MoveOf(c, s, g, l);
    MoveLoses(c, s, g, l);
    d := e;
    if m.Some? {
      Extend(c, e, m.value);
      d := DevRun(e.devs + [DevNext(Last(e.devs), m.value)], e.moves + [m.value]);
    }
  }

  // The pipeline and the device at the same point of their runs.
  ghost predicate InStep(c: Config, s: State, g: Book, d: Dev) {
    Inv(c, s, g) && BindInv(c, s) && Rel(c, s, g, d)
  }

  lemma StepInStep(c: Config, s: State, g: Book, d: Dev, l: Label)
    requires ValidConfig(c) && InStep(c, s, g, d) && Enabled(c, s, l) && NoError(l)
    ensures Simulates(c, s, g, d, l)
    ensures InStep(c, Next(c, s, l), Advance(c, s, g, l), After(d, MoveOf(c, s, g, l)))
  {
    StepKeepsInv(c, s, g, l);
    StepKeepsBinding(c, s, g, l);
    StepSimulates(c, s, g, d, l);
  }

  lemma FollowInStep(c: Config, s: State, g: Book, e: DevRun, l: Label) returns (d: DevRun)
    requires ValidConfig(c) && IsLossyRun(c, e) && InStep(c, s, g, Last(e.devs)) && Enabled(c, s, l) && NoError(l)
    ensures IsLossyRun(c, d) && InStep(c, Next(c, s, l), Advance(c, s, g, l), Last(d.devs))
    ensures Shown(d.moves) == Shown(e.moves) + Visible(EventOf(c, s, l))
    ensures Lossless(d.moves) <==> Lossless(e.moves) && QuietDiscard(s, l)
  {
    StepInStep(c, s, g, Last(e.devs), l);
    d := Follow(c, s, g, e, l);
  }

  lemma QuietNext(r: Run, n: nat)
    requires n < |r.labels| < |r.states|
    ensures QuietUpTo(r, n + 1) <==> QuietUpTo(r, n) && QuietDiscard(r.states[n], r.labels[n])
  {
  }

  lemma InStepInit(c: Config)
    requires ValidConfig(c)
    ensures InStep(c, Init(c), InitBook(c), InitDev(c))
  {
    InitInv(c);
    InitBound(c);
    InitRel(c);
  }

  // After n steps, pipeline and device stand together, with the same trace and the same losses.
  ghost predicate Together(c: Config, r: Run, n: nat, g: Book, d: DevRun)
    requires IsRun(c, r) && n <= |r.labels|
  {
    && IsLossyRun(c, d) && InStep(c, r.states[n], g, Last(d.devs)) && Shown(d.moves) == Trace(c, r, n)
    && (Lossless(d.moves) <==> QuietUpTo(r, n))
  }

  lemma TogetherNext(c: Config, r: Run, n: nat, h: Book, e: DevRun) returns (g: Book, d: DevRun)
    requires ValidConfig(c) && IsRun(c, r) && n < |r.labels| && NoError(r.labels[n]) && Together(c, r, n, h, e)
    ensures Together(c, r, n + 1, g, d)
  {
    assert StepAt(c, r, n);
    QuietNext(r, n);
    g := Advance(c, r.states[n], h, r.labels[n]);
    d := FollowInStep(c, r.states[n], h, e, r.labels[n]);
  }

  lemma TogetherInit(c: Config, r: Run) returns (g: Book, d: DevRun)
    requires ValidConfig(c) && IsRun(c, r)
    ensures Together(c, r, 0, g, d)
  {
    g, d := InitBook(c), DevRun([InitDev(c)], []);
    InStepInit(c);
  }

  lemma {:induction false} PrefixLinearizable(c: Config, r: Run, n: nat) returns (g: Book, d: DevRun)
    requires ValidConfig(c) && IsRun(c, r) && Errorless(r) && n <= |r.labels|
    ensures Together(c, r, n, g, d)
  {
    if n == 0 {
      g, d := TogetherInit(c, r);
    } else {
      var h, e := PrefixLinearizable(c, r, n - 1);
      g, d := TogetherNext(c, r, n - 1, h, e);
    }
  }

  /** Every run without handler errors shows the driver exactly what some run of the array device shows,
      and leaves the backing array as that run leaves it; the device run loses a posted write exactly if an
      idle discard of the pipeline hits one. */
  lemma Linearizable(c: Config, r: Run) returns (d: DevRun)
    requires ValidConfig(c) && IsRun(c, r) && Errorless(r)
    ensures IsLossyRun(c, d) && Shown(d.moves) == Trace(c, r, |r.labels|)
    ensures Last(d.devs).disk == Last(r.states).disk
    ensures IsDevRun(c, d) <==> Quiet(r)
  {
    var g, e := PrefixLinearizable(c, r, |r.labels|);
    d := e;
  }

  // ---------------------------------------------------------------- what the array device promises

  // Move i concerns slot (q, t).
  predicate Concerns(m: Move, q: nat, t: nat) {
    match m
    case External(e) => e.q == q && e.t == t
    case Apply(a, b, _) => a == q && b == t
    case Lose(_, _) => false
  }

  ghost predicate Between(d: DevRun, lo: nat, hi: nat, q: nat, t: nat) {
    forall n | lo <= n < hi && n < |d.moves| :: !Concerns(d.moves[n], q, t)
  }

  // The request p posted at i stands at k as r: unchanged, or with its data lost on the way.
  ghost predicate Carried(d: DevRun, i: nat, k: nat, q: nat, t: nat, p: Req, r: Req) {
    r == p || (r == Blanked(p) && exists n :: i < n < k && n < |d.moves| && d.moves[n] == Lose(q, t))
  }

  // The request now at slot (q, t) was posted at i and has not been touched up to k.
  ghost predicate PostedAt(d: DevRun, i: nat, k: nat, q: nat, t: nat, p: Req, r: Req) {
    && i < k <= |d.moves| && d.moves[i] == External(EArrive(q, t, p)) && Between(d, i + 1, k, q, t)
    && Carried(d, i, k, q, t, p, r)
  }

  // It took effect at j, once, and its answer is the array's at that moment.
  ghost predicate TookEffect(d: DevRun, i: nat, j: nat, k: nat, q: nat, t: nat, p: Req, r: Req, resp: Resp) {
    && i < j < k <= |d.moves| && |d.devs| == |d.moves| + 1
    && PostedAt(d, i, j, q, t, p, r) && Between(d, j + 1, k, q, t)
    && d.moves[j].Apply? && d.moves[j].q == q && d.moves[j].t == t
    && Applicable(d.devs[j].disk, r, d.moves[j].fill)
    && resp == Answer(d.devs[j].disk, r, d.moves[j].fill)
    && d.devs[j + 1].disk == Effect(d.devs[j].disk, r, d.moves[j].fill)
  }

  // A move leaves every slot it does not concern alone, but for lost data.
  lemma MoveElsewhere(d: Dev, m: Move, q: nat, t: nat)
    requires DevEnabled(d, m) && HasSlot(DevNext(d, m), q, t)
    ensures HasSlot(d, q, t)
    ensures !Concerns(m, q, t) && m != Lose(q, t) ==> DevNext(d, m).slots[q][t] == d.slots[q][t]
    ensures m == Lose(q, t) ==>
              d.slots[q][t].Pending? && DevNext(d, m).slots[q][t] == Pending(Blanked(d.slots[q][t].req))
  {
  }

  // What a move does to the slot it concerns.
  lemma MoveHere(d: Dev, m: Move, q: nat, t: nat)
    requires DevEnabled(d, m) && HasSlot(d, q, t) && Concerns(m, q, t)
    ensures var st := DevNext(d, m).slots[q][t];
            && (st.Pending? ==> m == External(EArrive(q, t, st.req)))
            && (st.Done? ==>
                  && m.Apply? && d.slots[q][t] == Pending(st.req) && Applicable(d.disk, st.req, m.fill)
                  && st.resp == Answer(d.disk, st.req, m.fill) && DevNext(d, m).disk == Effect(d.disk, st.req, m.fill))
  {
  }

  ghost predicate HasHistory(d: DevRun, k: nat, q: nat, t: nat, st: Status) {
    match st
    case Pending(r) => exists i, p :: PostedAt(d, i, k, q, t, p, r)
    case Done(r, resp) => exists i, j, p :: TookEffect(d, i, j, k, q, t, p, r, resp)
    case _ => true
  }

  lemma KeepHistory(d: DevRun, k: nat, q: nat, t: nat, st: Status)
    requires k < |d.moves| && !Concerns(d.moves[k], q, t) && HasHistory(d, k, q, t, st)
    ensures HasHistory(d, k + 1, q, t, st)
  {
    match st {
      case Pending(r) =>
        var i, p :| PostedAt(d, i, k, q, t, p, r);
        assert PostedAt(d, i, k + 1, q, t, p, r);
      case Done(r, resp) =>
        var i, j, p :| TookEffect(d, i, j, k, q, t, p, r, resp);
        assert TookEffect(d, i, j, k + 1, q, t, p, r, resp);
      case _ =>
    }
  }

  lemma LoseHistory(d: DevRun, k: nat, q: nat, t: nat, r: Req)
    requires k < |d.moves| && d.moves[k] == Lose(q, t) && HasHistory(d, k, q, t, Pending(r))
    ensures HasHistory(d, k + 1, q, t, Pending(Blanked(r)))
  {
    var i, p :| PostedAt(d, i, k, q, t, p, r);
    assert Blanked(Blanked(p)) == Blanked(p);
    assert PostedAt(d, i, k + 1, q, t, p, Blanked(r));
  }

  lemma {:induction false} SlotHistory(c: Config, d: DevRun, k: nat, q: nat, t: nat)
    requires IsLossyRun(c, d) && k <= |d.moves| && HasSlot(d.devs[k], q, t)
    ensures HasHistory(d, k, q, t, d.devs[k].slots[q][t])
  {
    if k > 0 {
      var m, st := d.moves[k - 1], d.devs[k].slots[q][t];
      assert MoveAt(d, k - 1);
      MoveElsewhere(d.devs[k - 1], m, q, t);
      SlotHistory(c, d, k - 1, q, t);
      if m == Lose(q, t) {
        LoseHistory(d, k - 1, q, t, d.devs[k - 1].slots[q][t].req);
      } else if !Concerns(m, q, t) {
        KeepHistory(d, k - 1, q, t, st);
      } else {
        MoveHere(d.devs[k - 1], m, q, t);
        if st.Pending? {
          assert PostedAt(d, k - 1, k, q, t, st.req, st.req);
        } else if st.Done? {
          var i, p :| PostedAt(d, i, k - 1, q, t, p, st.req);
          assert TookEffect(d, i, k - 1, k, q, t, p, st.req, st.resp);
        }
      }
    }
  }

  /** Every answer belongs to one earlier request of its slot, which took effect exactly once since, and
      equals what the array said at that moment; the request is the posted one unless its data was lost. */
  lemma AnswersOnce(c: Config, d: DevRun, k: nat, q: nat, t: nat, resp: Resp)
    returns (i: nat, j: nat, p: Req, r: Req)
    requires IsLossyRun(c, d) && k < |d.moves| && d.moves[k] == External(ECommit(q, t, resp))
    ensures TookEffect(d, i, j, k, q, t, p, r, resp)
    ensures Lossless(d.moves) ==> r == p
  {
    assert MoveAt(d, k);
    SlotHistory(c, d, k, q, t);
    r := d.devs[k].slots[q][t].req;
    i, j, p :| TookEffect(d, i, j, k, q, t, p, r, resp);
  }

  /** Each commit the driver accepts from the pipeline is the last move of a device run with the pipeline's
      trace, in which the answered request was posted and took effect exactly once since; the result and the
      data handed over are that moment's. The request is the posted one if no discard lost its data. */
  lemma CommitTookEffect(c: Config, r: Run, k: nat)
    returns (d: DevRun, i: nat, j: nat, p: Req, q: Req)
    requires ValidConfig(c) && IsRun(c, r) && Errorless(r) && k < |r.labels| && r.labels[k].KTake?
    requires var u := r.states[k].queues; r.labels[k].q < |u| && u[r.labels[k].q].sq != [] && u[r.labels[k].q].sq[0].Commit?
    ensures var u := r.states[k].queues[r.labels[k].q];
            var t := u.sq[0].tag;
            && IsLossyRun(c, d) && Shown(d.moves) == Trace(c, r, k + 1) && t < |u.slots| && d.moves != []
            && TookEffect(d, i, j, |d.moves| - 1, r.labels[k].q, t, p, q, Resp(u.sq[0].result, Copied(u.slots[t])))
    ensures QuietUpTo(r, k) ==> q == p
  {
    var g, e := PrefixLinearizable(c, r, k);
    assert StepAt(c, r, k);
    var s, l := r.states[k], r.labels[k];
    assert QueueInv(c, s.queues[l.q], g.slot[l.q], l.q, s.workers);
    var u := s.queues[l.q];
    var resp := Resp(u.sq[0].result, Copied(u.slots[u.sq[0].tag]));
    d := FollowInStep(c, s, g, e, l);
    StepInStep(c, s, g, Last(e.devs), l);
    var m := External(ECommit(l.q, u.sq[0].tag, resp));
    d := DevRun(e.devs + [DevNext(Last(e.devs), m)], e.moves + [m]);
    Extend(c, e, m);
    i, j, p, q := AnswersOnce(c, d, |e.moves|, l.q, u.sq[0].tag, resp);
  }
}
