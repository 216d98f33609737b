/** Every step that reports no handler error keeps the ledger invariant. */
module Preserve {
  import opened Machine
  import opened Ledger

  // ---------------------------------------------------------------- counting workers

  function One(k: Worker, q: nat): nat { if k.q == q && Counts(k.pc) then 1 else 0 }

  lemma {:induction false} OutstandingUpdate(ws: seq<Worker>, w: nat, k: Worker, q: nat)
    requires w < |ws|
    ensures Outstanding(ws[w := k], q) == Outstanding(ws, q) - One(ws[w], q) + One(k, q)
  {
    var n := |ws| - 1;
    if w == n {
      assert ws[w := k][..n] == ws[..n];
    } else {
      assert ws[w := k][..n] == ws[..n][w := k];
      OutstandingUpdate(ws[..n], w, k, q);
    }
  }

  lemma OutstandingAppend(ws: seq<Worker>, k: Worker, q: nat)
    ensures Outstanding(ws + [k], q) == Outstanding(ws, q) + One(k, q)
  {
    assert (ws + [k])[..|ws|] == ws;
  }

  lemma {:induction false} OutstandingPositive(ws: seq<Worker>, w: nat, q: nat)
    requires w < |ws| && ws[w].q == q && Counts(ws[w].pc)
    ensures Outstanding(ws, q) > 0
  {
    if w < |ws| - 1 { OutstandingPositive(ws[..|ws| - 1], w, q); }
  }

  lemma {:induction false} OutstandingWitness(ws: seq<Worker>, q: nat) returns (w: nat)
    requires Outstanding(ws, q) > 0
    ensures w < |ws| && ws[w].q == q && Counts(ws[w].pc)
  {
    var n := |ws| - 1;
    if ws[n].q == q && Counts(ws[n].pc) { w := n; } else { w := OutstandingWitness(ws[..n], q); }
  }

  // ---------------------------------------------------------------- pigeonhole

  ghost function Below(n: nat): (r: set<nat>)
    ensures |r| == n && forall x: nat :: x in r <==> x < n
  {
    if n == 0 then {} else Below(n - 1) + {n - 1}
  }

  ghost function Elems(xs: seq<nat>): (r: set<nat>)
    requires forall i, j | 0 <= i < j < |xs| :: xs[i] != xs[j]
    ensures |r| == |xs| && forall x :: x in r <==> x in xs
  {
    if xs == [] then {} else Elems(xs[1..]) + {xs[0]}
  }

  lemma DistinctBelow(xs: seq<nat>, n: nat)
    requires forall i | 0 <= i < |xs| :: xs[i] < n
    requires forall i, j | 0 <= i < j < |xs| :: xs[i] != xs[j]
    ensures |xs| <= n
  {
    var a, b := Elems(xs), Below(n);
    assert a <= b;
    assert b == a + (b - a);
  }

  function Tags(sq: seq<Cmd>): (r: seq<nat>)
    ensures |r| == |sq| && forall i | 0 <= i < |sq| :: r[i] == sq[i].tag
  {
    seq(|sq|, i requires 0 <= i < |sq| => sq[i].tag)
  }

  /** Prepared commands carry distinct tags, none of them the tag of a slot somebody else owns. */
  lemma SqRoom(sq: seq<Cmd>, own: seq<SlotOwner>, t: nat)
    requires SqInv(sq, own) && t < |own| && own[t] != Queued
    ensures |sq| < |own|
  {
    DistinctBelow(Tags(sq) + [t], |own|);
  }

  // ---------------------------------------------------------------- frames

  lemma KeepOwes(ws: seq<Worker>, ws': seq<Worker>, w: nat, q: nat)
    requires w < |ws| <= |ws'| && (Owes(ws[w], q) ==> Owes(ws'[w], q))
    requires forall v | 0 <= v < |ws| && v != w :: ws'[v] == ws[v]
    ensures forall waits: bool | WakeInv(waits, q, ws) :: WakeInv(waits, q, ws')
  {
    if v :| 0 <= v < |ws| && Owes(ws[v], q) { assert Owes(ws'[v], q); }
  }

  // A queue does not see a step of another queue's worker.
  lemma OtherWorker(c: Config, u: Queue, own: seq<SlotOwner>, q: nat, ws: seq<Worker>, w: nat, k: Worker)
    requires QueueInv(c, u, own, q, ws)
    requires w < |ws| && ws[w].q == k.q != q
    ensures QueueInv(c, u, own, q, ws[w := k])
  {
    OutstandingUpdate(ws, w, k, q);
    KeepOwes(ws, ws[w := k], w, q);
  }

  lemma OtherSpawn(c: Config, u: Queue, own: seq<SlotOwner>, q: nat, ws: seq<Worker>, k: Worker)
    requires QueueInv(c, u, own, q, ws) && k.q != q
    ensures QueueInv(c, u, own, q, ws + [k])
  {
    OutstandingAppend(ws, k, q);
    if ws != [] { KeepOwes(ws, ws + [k], 0, q); }
  }

  // A step of worker w, its queue's record and one entry of its queue's ownership row.
  lemma LiftWorker(c: Config, s: State, s': State, g: Book, g': Book, w: nat, u: Queue, own: seq<SlotOwner>)
    requires QueuesInv(c, s, g) && w < |s.workers| == |s'.workers|
    requires s'.workers == s.workers[w := s'.workers[w]] && s'.workers[w].q == s.workers[w].q < c.queues
    requires s'.queues == s.queues[s.workers[w].q := u] && g'.slot == g.slot[s.workers[w].q := own]
    requires QueueInv(c, u, own, s.workers[w].q, s'.workers)
    ensures QueuesInv(c, s', g')
  {
    forall q | 0 <= q < c.queues ensures QueueInv(c, s'.queues[q], g'.slot[q], q, s'.workers) {
      if q != s.workers[w].q { OtherWorker(c, s.queues[q], g.slot[q], q, s.workers, w, s'.workers[w]); }
    }
  }

  // ---------------------------------------------------------------- worker steps: its own queue

  ghost predicate Mine(c: Config, u: Queue, own: seq<SlotOwner>, q: nat, ws: seq<Worker>, w: nat) {
    && QueueInv(c, u, own, q, ws) && w < |ws| && ws[w].q == q && ws[w].tag < c.depth
    && (HoldsSlot(ws[w].pc) ==> own[ws[w].tag] == Work(w))
    && (HoldsLock(ws[w].pc) <==> u.lock == Some(w))
    && (HoldsMutex(ws[w].pc) <==> u.mutex == Some(ByWorker(w)))
  }

  predicate SameFlags(a: seq<Slot>, b: seq<Slot>) {
    |a| == |b| && forall t | 0 <= t < |a| :: a[t].flags == b[t].flags
  }

  predicate SameClass(p: WPc, r: WPc) {
    && (HoldsSlot(p) <==> HoldsSlot(r))
    && (HoldsLock(p) <==> HoldsLock(r)) && (HoldsMutex(p) <==> HoldsMutex(r))
    && (Counts(p) <==> Counts(r)) && !p.WSigLock? && !p.WSig?
  }

  // Steps that move the worker without changing what it holds.
  lemma QuietStep(c: Config, u: Queue, own: seq<SlotOwner>, q: nat, ws: seq<Worker>, w: nat, k: Worker, slots: seq<Slot>)
    requires Mine(c, u, own, q, ws, w) && k.q == q && k.tag == ws[w].tag
    requires SameClass(ws[w].pc, k.pc) && SameFlags(slots, u.slots)
    ensures QueueInv(c, u.(slots := slots), own, q, ws[w := k])
  {
    OutstandingUpdate(ws, w, k, q);
    KeepOwes(ws, ws[w := k], w, q);
  }

  lemma MarkStep(c: Config, u: Queue, own: seq<SlotOwner>, q: nat, ws: seq<Worker>, w: nat)
    requires Mine(c, u, own, q, ws, w) && ws[w].pc.WMark?
    ensures var k := ws[w]; var sl := MarkDone(u.slots[k.tag], k.res);
            QueueInv(c, u.(slots := u.slots[k.tag := sl]), own, q, ws[w := k.(pc := WLock)])
  {
    var k := ws[w].(pc := WLock);
    OutstandingUpdate(ws, w, k, q);
    KeepOwes(ws, ws[w := k], w, q);
  }

  lemma LockStep(c: Config, u: Queue, own: seq<SlotOwner>, q: nat, ws: seq<Worker>, w: nat)
    requires Mine(c, u, own, q, ws, w) && ws[w].pc.WLock? && u.lock.None?
    ensures QueueInv(c, u.(lock := Some(w)), own, q, ws[w := ws[w].(pc := WPrep)])
  {
    var k := ws[w].(pc := WPrep);
    OutstandingUpdate(ws, w, k, q);
    KeepOwes(ws, ws[w := k], w, q);
  }

  lemma PrepStep(c: Config, u: Queue, own: seq<SlotOwner>, q: nat, ws: seq<Worker>, w: nat)
    requires Mine(c, u, own, q, ws, w) && ws[w].pc.WPrep?
    ensures var k := ws[w]; var sl := u.slots[k.tag];
            QueueInv(c, u.(sq := u.sq + [Commit(k.tag, sl.result)], slots := u.slots[k.tag := sl.(flags := NO_FLAGS)]),
                     own[k.tag := Queued], q, ws[w := k.(pc := WDec)])
  {
    var k := ws[w].(pc := WDec);
    OutstandingUpdate(ws, w, k, q);
    OutstandingPositive(ws, w, q);
    KeepOwes(ws, ws[w := k], w, q);
    var sq := u.sq + [Commit(k.tag, u.slots[k.tag].result)];
    var own' := own[k.tag := Queued];
    forall t | 0 <= t < |own'| && own'[t] == Queued ensures exists i :: 0 <= i < |sq| && sq[i].tag == t {
      if t == k.tag {
        assert sq[|u.sq|].tag == t;
      } else {
        var i :| 0 <= i < |u.sq| && u.sq[i].tag == t;
        assert sq[i].tag == t;
      }
    }
  }

  lemma DecStep(c: Config, u: Queue, own: seq<SlotOwner>, q: nat, ws: seq<Worker>, w: nat)
    requires Mine(c, u, own, q, ws, w) && ws[w].pc.WDec?
    ensures QueueInv(c, u.(inflight := u.inflight - 1), own, q,
                     ws[w := ws[w].(pc := if u.inflight == 1 then WSigLock else WUnlock)])
  {
    var k := ws[w].(pc := if u.inflight == 1 then WSigLock else WUnlock);
    OutstandingUpdate(ws, w, k, q);
    OutstandingPositive(ws, w, q);
    if Waits(u.(inflight := u.inflight - 1)) { assert Owes(ws[w := k][w], q); }
  }

  lemma SigLockStep(c: Config, u: Queue, own: seq<SlotOwner>, q: nat, ws: seq<Worker>, w: nat)
    requires Mine(c, u, own, q, ws, w) && ws[w].pc.WSigLock? && u.mutex.None?
    ensures QueueInv(c, u.(mutex := Some(ByWorker(w))), own, q, ws[w := ws[w].(pc := WSig)])
  {
    var k := ws[w].(pc := WSig);
    OutstandingUpdate(ws, w, k, q);
    KeepOwes(ws, ws[w := k], w, q);
  }

  lemma SigStep(c: Config, u: Queue, own: seq<SlotOwner>, q: nat, ws: seq<Worker>, w: nat)
    requires Mine(c, u, own, q, ws, w) && ws[w].pc.WSig?
    ensures QueueInv(c, if u.pc == QWaiting then u.(pc := QWoken) else u, own, q, ws[w := ws[w].(pc := WSigUnlock)])
  {
    OutstandingUpdate(ws, w, ws[w].(pc := WSigUnlock), q);
  }

  lemma SigUnlockStep(c: Config, u: Queue, own: seq<SlotOwner>, q: nat, ws: seq<Worker>, w: nat)
    requires Mine(c, u, own, q, ws, w) && ws[w].pc.WSigUnlock?
    ensures QueueInv(c, u.(mutex := None), own, q, ws[w := ws[w].(pc := WUnlock)])
  {
    var k := ws[w].(pc := WUnlock);
    OutstandingUpdate(ws, w, k, q);
    KeepOwes(ws, ws[w := k], w, q);
  }

  lemma UnlockStep(c: Config, u: Queue, own: seq<SlotOwner>, q: nat, ws: seq<Worker>, w: nat)
    requires Mine(c, u, own, q, ws, w) && ws[w].pc.WUnlock?
    ensures QueueInv(c, u.(lock := None), own, q, ws[w := ws[w].(pc := WReturn)])
  {
    var k := ws[w].(pc := WReturn);
    OutstandingUpdate(ws, w, k, q);
    KeepOwes(ws, ws[w := k], w, q);
  }

  // Both guards of ublksrv_queue_io_cmd let the command through and the ring has a free entry.
  predicate Ready(c: Config, s: State, w: nat)
    requires w < |s.workers|
  {
    var k := s.workers[w];
    && k.q < |s.queues| && k.tag < |s.queues[k.q].slots|
    && s.queues[k.q].slots[k.tag].flags == COMMIT_FREE && |s.queues[k.q].sq| < c.depth
  }

  // ---------------------------------------------------------------- worker steps: the machine

  lemma MineFromInv(c: Config, s: State, g: Book, w: nat)
    requires Inv(c, s, g) && w < |s.workers|
    ensures var k := s.workers[w]; k.q < c.queues && !k.eio && Mine(c, s.queues[k.q], g.slot[k.q], k.q, s.workers, w)
    ensures var k := s.workers[w]; k.m < c.pool && s.msgs[k.m].result != -1
    ensures s.workers[w].pc.WPrep? ==> Ready(c, s, w)
  {
    assert WorkerInv(s.queues, g.slot, g.msg, w, s.workers[w]);
    assert QueueInv(c, s.queues[s.workers[w].q], g.slot[s.workers[w].q], s.workers[w].q, s.workers);
    var k := s.workers[w];
    assert MsgData(c.readCap, s.msgs[k.m], g.token[k.m]);
    if k.pc.WPrep? { SqRoom(s.queues[k.q].sq, g.slot[k.q], k.tag); }
  }

  lemma WOwnGo(c: Config, s: State, g: Book, w: nat)
    requires WEnabled(c, s, w) && |g.slot| == |s.queues|
    requires var k := s.workers[w]; s.msgs[k.m].result != -1 && Mine(c, s.queues[k.q], g.slot[k.q], k.q, s.workers, w)
    requires var p := s.workers[w].pc; p.WSend? || p.WWait? || p.WCopy? || p.WReturn?
    ensures var q := s.workers[w].q; var s' := WNext(c, s, w); var g' := Advance(c, s, g, WStep(w));
            q < |s'.queues| && QueueInv(c, s'.queues[q], g.slot[q], q, s'.workers) && g'.slot == g.slot
  {
    var q := s.workers[w].q;
    var s' := WNext(c, s, w);
    QuietStep(c, s.queues[q], g.slot[q], q, s.workers, w, s'.workers[w], s'.queues[q].slots);
  }

  lemma WOwnC(c: Config, s: State, g: Book, w: nat)
    requires c.depth <= c.entries && WEnabled(c, s, w) && |g.slot| == |s.queues|
    requires var k := s.workers[w]; !k.eio && Mine(c, s.queues[k.q], g.slot[k.q], k.q, s.workers, w)
    requires var p := s.workers[w].pc; p.WMark? || p.WLock? || p.WDec? || p.WSigLock? || p.WSig? || p.WSigUnlock? || p.WUnlock?
    ensures var q := s.workers[w].q; var s' := WNext(c, s, w); var g' := Advance(c, s, g, WStep(w));
            q < |s'.queues| && QueueInv(c, s'.queues[q], g.slot[q], q, s'.workers) && g'.slot == g.slot
  {
    var k := s.workers[w];
    var q, u, own, ws := k.q, s.queues[k.q], g.slot[k.q], s.workers;
    match k.pc {
      case WMark => MarkStep(c, u, own, q, ws, w);
      case WLock => LockStep(c, u, own, q, ws, w);
      case WDec => DecStep(c, u, own, q, ws, w);
      case WSigLock => SigLockStep(c, u, own, q, ws, w);
      case WSig => SigStep(c, u, own, q, ws, w);
      case WSigUnlock => SigUnlockStep(c, u, own, q, ws, w);
      case WUnlock => UnlockStep(c, u, own, q, ws, w);
    }
  }

  lemma WKeepsQueues(c: Config, s: State, g: Book, w: nat)
    requires c.depth <= c.entries && Inv(c, s, g) && WEnabled(c, s, w)
    ensures QueuesInv(c, WNext(c, s, w), Advance(c, s, g, WStep(w)))
  {
    var k := s.workers[w];
    MineFromInv(c, s, g, w);
    WFrame(c, s, g, w);
    var s' := WNext(c, s, w);
    var g' := Advance(c, s, g, WStep(w));
    var p := k.pc;
    if p.WPrep? {
      PrepStep(c, s.queues[k.q], g.slot[k.q], k.q, s.workers, w);
    } else if p.WSend? || p.WWait? || p.WCopy? || p.WReturn? {
      WOwnGo(c, s, g, w);
    } else {
      WOwnC(c, s, g, w);
    }
    LiftWorker(c, s, s', g, g', w, s'.queues[k.q], g'.slot[k.q]);
  }

  // A worker's step touches, of what workers hold, only its own holdings.
  ghost predicate OnlyMine(u: Queue, u': Queue, own: seq<SlotOwner>, own': seq<SlotOwner>, w: nat, tag: nat) {
    && |u'.slots| == |u.slots| == |own'| == |own| && tag < |own|
    && (forall t | 0 <= t < |own| && t != tag :: own'[t] == own[t] && u'.slots[t].flags == u.slots[t].flags)
    && (own[tag] == Work(w) || (own'[tag] == own[tag] && u'.slots[tag].flags == u.slots[tag].flags))
    && (u'.lock == u.lock || ((u.lock == Some(w) || u.lock.None?) && (u'.lock == Some(w) || u'.lock.None?)))
    && (u'.mutex == u.mutex || ((u.mutex == Some(ByWorker(w)) || u.mutex.None?) && (u'.mutex == Some(ByWorker(w)) || u'.mutex.None?)))
  }

  lemma LiftWorkers(c: Config, s: State, s': State, g: Book, g': Book, w: nat)
    requires WorkersInv(c, s, g) && w < |s.workers| && |s.queues| == |g.slot|
    requires var q := s.workers[w].q; q < |s.queues| && |s'.queues| == |s.queues| == |g'.slot| && |g'.msg| == |g.msg|
    requires forall q | 0 <= q < |s.queues| && q != s.workers[w].q :: s'.queues[q] == s.queues[q] && g'.slot[q] == g.slot[q]
    requires |s'.workers| == |s.workers| && forall v | 0 <= v < |s.workers| && v != w :: s'.workers[v] == s.workers[v]
    requires var q := s.workers[w].q; OnlyMine(s.queues[q], s'.queues[q], g.slot[q], g'.slot[q], w, s.workers[w].tag)
    requires forall m | 0 <= m < |g.msg| && g.msg[m] != WithWorker(w) :: g'.msg[m] == g.msg[m]
    requires WorkerInv(s'.queues, g'.slot, g'.msg, w, s'.workers[w])
    ensures WorkersInv(c, s', g')
  {
    forall v | 0 <= v < |s'.workers| ensures WorkerInv(s'.queues, g'.slot, g'.msg, v, s'.workers[v]) {
      assert WorkerInv(s.queues, g.slot, g.msg, v, s.workers[v]);
    }
  }

  // What a worker step leaves alone.
  lemma WFrame(c: Config, s: State, g: Book, w: nat)
    requires WEnabled(c, s, w) && |g.slot| == |s.queues|
    ensures var s' := WNext(c, s, w); var g' := Advance(c, s, g, WStep(w)); var k := s.workers[w];
            && |s'.workers| == |s.workers| && |s'.queues| == |g'.slot| == |s.queues| && |g'.msg| == |g.msg|
            && s'.workers[w].q == k.q && s'.workers[w].tag == k.tag && s'.workers[w].m == k.m
            && s'.workers == s.workers[w := s'.workers[w]]
            && s'.queues == s.queues[k.q := s'.queues[k.q]] && g'.slot == g.slot[k.q := g'.slot[k.q]]
            && (g'.msg == g.msg || g'.msg == g.msg[k.m := InFree])
  {
  }

  lemma WKeepsMineGo(c: Config, s: State, g: Book, w: nat)
    requires WEnabled(c, s, w) && s.msgs[s.workers[w].m].result != -1 && |g.slot| == |s.queues|
    requires WorkerInv(s.queues, g.slot, g.msg, w, s.workers[w])
    requires var p := s.workers[w].pc; p.WSend? || p.WWait? || p.WCopy? || p.WReturn? || p.WMark?
    ensures var s' := WNext(c, s, w); var g' := Advance(c, s, g, WStep(w)); var k := s.workers[w];
            && k.q < |s'.queues| == |g'.slot| && |s'.workers| == |s.workers|
            && WorkerInv(s'.queues, g'.slot, g'.msg, w, s'.workers[w])
            && OnlyMine(s.queues[k.q], s'.queues[k.q], g.slot[k.q], g'.slot[k.q], w, k.tag)
  {
  }

  lemma WKeepsMineC(c: Config, s: State, g: Book, w: nat)
    requires WEnabled(c, s, w) && |g.slot| == |s.queues|
    requires WorkerInv(s.queues, g.slot, g.msg, w, s.workers[w])
    requires s.workers[w].pc.WPrep? ==> Ready(c, s, w) && c.depth <= c.entries
    requires var p := s.workers[w].pc; !(p.WSend? || p.WWait? || p.WCopy? || p.WReturn? || p.WMark?)
    ensures var s' := WNext(c, s, w); var g' := Advance(c, s, g, WStep(w)); var k := s.workers[w];
            && k.q < |s'.queues| == |g'.slot| && |s'.workers| == |s.workers|
            && WorkerInv(s'.queues, g'.slot, g'.msg, w, s'.workers[w])
            && OnlyMine(s.queues[k.q], s'.queues[k.q], g.slot[k.q], g'.slot[k.q], w, k.tag)
  {
  }

  lemma WKeepsWorkers(c: Config, s: State, g: Book, w: nat)
    requires c.depth <= c.entries && Inv(c, s, g) && WEnabled(c, s, w)
    ensures WorkersInv(c, WNext(c, s, w), Advance(c, s, g, WStep(w)))
  {
    var p := s.workers[w].pc;
    MineFromInv(c, s, g, w);
    WFrame(c, s, g, w);
    if p.WSend? || p.WWait? || p.WCopy? || p.WReturn? || p.WMark? {
      WKeepsMineGo(c, s, g, w);
    } else {
      WKeepsMineC(c, s, g, w);
    }
    LiftWorkers(c, s, WNext(c, s, w), g, Advance(c, s, g, WStep(w)), w);
  }

  // ---------------------------------------------------------------- worker steps: the pool

  predicate SameHold(k: Worker, k': Worker) {
    k'.m == k.m && (k'.pc == WDone <==> k.pc == WDone) && (k'.pc == WWait <==> k.pc == WWait)
  }

  predicate SameBind(p: QPc, p': QPc) { p' == p || (!p.QBind? && !p'.QBind?) }

  // A step that moves no message and no token.
  lemma QuietPool(c: Config, s: State, g: Book, s': State, g': Book)
    requires PoolInv(c, s, g) && g'.msg == g.msg && g'.token == g.token
    requires s'.msgs == s.msgs && s'.free == s.free && s'.req == s.req && s'.disp == s.disp && s'.handlers == s.handlers
    requires |s'.queues| == |s.queues| && forall q | 0 <= q < |s.queues| :: SameBind(s.queues[q].pc, s'.queues[q].pc)
    requires |s'.workers| == |s.workers| && forall w | 0 <= w < |s.workers| :: SameHold(s.workers[w], s'.workers[w])
    ensures PoolInv(c, s', g')
  {
    forall m | 0 <= m < c.pool ensures MsgOwned(m, g.msg[m], g.token[m], s'.free, s'.queues, s'.workers) {
      assert MsgOwned(m, g.msg[m], g.token[m], s.free, s.queues, s.workers);
    }
  }

  // A worker step that changes neither who holds a message nor whether it awaits its completion.
  lemma WQuietPool(c: Config, s: State, g: Book, w: nat)
    requires PoolInv(c, s, g) && |g.slot| == |s.queues| && WEnabled(c, s, w)
    requires var p := s.workers[w].pc; !p.WSend? && !p.WWait? && !p.WReturn?
    ensures PoolInv(c, WNext(c, s, w), Advance(c, s, g, WStep(w)))
  {
    WFrame(c, s, g, w);
    QuietPool(c, s, g, WNext(c, s, w), Advance(c, s, g, WStep(w)));
  }

  ghost predicate Holds(c: Config, s: State, g: Book, w: nat) {
    PoolInv(c, s, g) && WEnabled(c, s, w) && s.workers[w].m < c.pool && g.msg[s.workers[w].m] == WithWorker(w)
  }

  // One worker and its message move; every other message's owner is where it was.
  lemma OthersOwned(c: Config, s: State, g: Book, w: nat, free: seq<nat>, k: Worker, token: seq<Token>)
    requires Holds(c, s, g, w) && k.m == s.workers[w].m && |token| == c.pool
    requires forall m | 0 <= m < c.pool && m != k.m :: token[m] == g.token[m]
    requires forall m | m in s.free :: m in free
    ensures forall m | 0 <= m < c.pool && m != k.m :: MsgOwned(m, g.msg[m], token[m], free, s.queues, s.workers[w := k])
  {
    forall m | 0 <= m < c.pool && m != k.m
      ensures MsgOwned(m, g.msg[m], token[m], free, s.queues, s.workers[w := k])
    {
      assert MsgOwned(m, g.msg[m], g.token[m], s.free, s.queues, s.workers);
    }
  }

  lemma WSendPool(c: Config, s: State, g: Book, w: nat)
    requires Holds(c, s, g, w) && s.workers[w].pc.WSend?
    ensures PoolInv(c, WNext(c, s, w), Advance(c, s, g, WStep(w)))
  {
    var m := s.workers[w].m;
    var token := g.token[m := InReq];
    assert MsgOwned(m, g.msg[m], g.token[m], s.free, s.queues, s.workers);
    OthersOwned(c, s, g, w, s.free, s.workers[w].(pc := WWait), token);
    assert m !in s.req;
    assert ReqInv(s.req + [m], token);
    assert MsgData(c.readCap, s.msgs[m], g.token[m]);
  }

  lemma WWaitPool(c: Config, s: State, g: Book, w: nat)
    requires Holds(c, s, g, w) && s.workers[w].pc.WWait?
    ensures PoolInv(c, WNext(c, s, w), Advance(c, s, g, WStep(w)))
  {
    var m := s.workers[w].m;
    assert MsgData(c.readCap, s.msgs[m], g.token[m]);
    OthersOwned(c, s, g, w, s.free, WNext(c, s, w).workers[w], g.token[m := NoToken]);
    assert MsgOwned(m, g.msg[m], g.token[m], s.free, s.queues, s.workers);
  }

  lemma WReturnPool(c: Config, s: State, g: Book, w: nat)
    requires Holds(c, s, g, w) && s.workers[w].pc.WReturn?
    ensures PoolInv(c, WNext(c, s, w), Advance(c, s, g, WStep(w)))
  {
    var m := s.workers[w].m;
    assert MsgOwned(m, g.msg[m], g.token[m], s.free, s.queues, s.workers);
    OthersOwned(c, s, g, w, s.free + [m], s.workers[w].(pc := WDone), g.token);
  }

  lemma WKeeps(c: Config, s: State, g: Book, w: nat)
    requires c.depth <= c.entries && Inv(c, s, g) && WEnabled(c, s, w)
    ensures Inv(c, WNext(c, s, w), Advance(c, s, g, WStep(w)))
  {
    WKeepsQueues(c, s, g, w);
    WKeepsWorkers(c, s, g, w);
    MineFromInv(c, s, g, w);
    assert WorkerInv(s.queues, g.slot, g.msg, w, s.workers[w]);
    var p := s.workers[w].pc;
    if p.WSend? {
      WSendPool(c, s, g, w);
    } else if p.WWait? {
      WWaitPool(c, s, g, w);
    } else if p.WReturn? {
      WReturnPool(c, s, g, w);
    } else {
      WQuietPool(c, s, g, w);
    }
  }
}
