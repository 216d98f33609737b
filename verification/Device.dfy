/**
 The device a client sees: a byte array and, per slot, one request at a time. A request is posted,
 takes effect atomically once, and is answered with the result of that one moment.
 */
module Device {
  import opened Machine
  import opened Words

  datatype Req = Req(kind: Kind, off: int, len: nat, data: seq<bv8>)

  datatype Resp = Resp(result: int, data: seq<bv8>)

  datatype Status = Unfetched | Armed | Pending(req: Req) | Done(req: Req, resp: Resp) | Failed

  datatype Dev = Dev(disk: seq<bv8>, slots: seq<seq<Status>>)

  // What crosses the border between the driver and the daemon.
  datatype Event =
    | EFetch(q: nat, t: nat)
    | EArrive(q: nat, t: nat, req: Req)
    | ECommit(q: nat, t: nat, resp: Resp)
    | EFail(q: nat, t: nat)

  // Lose is no move of the array device proper: a posted write's data turns to zeros.
  datatype Move = External(e: Event) | Apply(q: nat, t: nat, fill: seq<bv8>) | Lose(q: nat, t: nat)

  function Blanked(r: Req): Req { r.(data := Zeros(|r.data|)) }

  // A data request answers its byte count, a discard 0; an unsupported one echoes its word.
  function ResultOf(r: Req): int {
    match r.kind
    case Read => r.len
    case Write => r.len
    case Unmap => 0
    case Unknown => if r.len < U32 then ToI32(r.len) else 0
  }

  function Spliced(disk: seq<bv8>, off: int, data: seq<bv8>): seq<bv8>
    requires 0 <= off && off + |data| <= |disk|
  {
    seq(|disk|, i requires 0 <= i < |disk| => if off <= i < off + |data| then data[i - off] else disk[i])
  }

  predicate InRange(disk: seq<bv8>, r: Req) { 0 <= r.off && r.off + r.len <= |disk| }

  /** When a pending request may take effect; a discard may leave any bytes `fill` in its range. */
  predicate Applicable(disk: seq<bv8>, r: Req, fill: seq<bv8>) {
    match r.kind
    case Read => InRange(disk, r)
    case Write => InRange(disk, r) && |r.data| == r.len
    case Unmap => InRange(disk, r) && |fill| == r.len
    case Unknown => true
  }

  function Effect(disk: seq<bv8>, r: Req, fill: seq<bv8>): seq<bv8>
    requires Applicable(disk, r, fill)
  {
    match r.kind
    case Read => disk
    case Write => Spliced(disk, r.off, r.data)
    case Unmap => Spliced(disk, r.off, fill)
    case Unknown => disk
  }

  function Answer(disk: seq<bv8>, r: Req, fill: seq<bv8>): Resp
    requires Applicable(disk, r, fill)
  {
    Resp(ResultOf(r), if r.kind == Read then disk[r.off..r.off + r.len] else [])
  }

  predicate HasSlot(d: Dev, q: nat, t: nat) { q < |d.slots| && t < |d.slots[q]| }

  function Put(d: Dev, q: nat, t: nat, st: Status): Dev
    requires HasSlot(d, q, t)
  {
    d.(slots := d.slots[q := d.slots[q][t := st]])
  }

  predicate DevEnabled(d: Dev, m: Move) {
    match m
    case External(e) =>
      && HasSlot(d, e.q, e.t)
      && var st := d.slots[e.q][e.t];
         (match e
          case EFetch(q, t) => st.Unfetched?
          case EArrive(q, t, r) => st.Armed?
          case ECommit(q, t, resp) => st.Done? && resp == st.resp
          case EFail(q, t) => st.Armed?)
    case Apply(q, t, fill) => HasSlot(d, q, t) && d.slots[q][t].Pending? && Applicable(d.disk, d.slots[q][t].req, fill)
    case Lose(q, t) => HasSlot(d, q, t) && d.slots[q][t].Pending? && d.slots[q][t].req.kind.Write?
  }

  function DevNext(d: Dev, m: Move): Dev
    requires DevEnabled(d, m)
  {
    match m
    case External(e) =>
      (match e
       case EFetch(q, t) => Put(d, q, t, Armed)
       case EArrive(q, t, r) => Put(d, q, t, Pending(r))
       case ECommit(q, t, resp) => Put(d, q, t, Armed)
       case EFail(q, t) => Put(d, q, t, Failed))
    case Apply(q, t, fill) =>
      var r := d.slots[q][t].req;
      Put(d, q, t, Done(r, Answer(d.disk, r, fill))).(disk := Effect(d.disk, r, fill))
    case Lose(q, t) => Put(d, q, t, Pending(Blanked(d.slots[q][t].req)))
  }

  function InitDev(c: Config): Dev {
    Dev(c.disk0, seq(c.queues, _ => seq(c.depth, _ => Unfetched)))
  }
}
