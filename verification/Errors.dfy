/** Handler errors: a failed request stays failed, and is completed twice. */
module Errors {
  import opened Machine
  import opened Runs

  // ---------------------------------------------------------------- Result is never reset

  // This step is a call on message m that returns an error.
  predicate FailedCall(s: State, l: Label, m: nat) {
    l.HStep? && l.err && l.h < |s.handlers| && s.handlers[l.h].pc == HCall && s.handlers[l.h].m == m
  }

  lemma ResultW(c: Config, s: State, w: nat, m: nat)
    requires WEnabled(c, s, w) && m < |s.msgs|
    ensures |WNext(c, s, w).msgs| == |s.msgs| && WNext(c, s, w).msgs[m].result == s.msgs[m].result
  {
  }

  lemma ResultStep(c: Config, s: State, l: Label, m: nat)
    requires Enabled(c, s, l) && m < |s.msgs|
    ensures |Next(c, s, l).msgs| == |s.msgs|
    ensures Next(c, s, l).msgs[m].result == -1 <==> s.msgs[m].result == -1 || FailedCall(s, l, m)
  {
    if l.WStep? { ResultW(c, s, l.w, m); }
  }

  ghost predicate FailedBefore(r: Run, i: nat, m: nat) {
    exists j :: 0 <= j < i && j < |r.labels| && j < |r.states| && FailedCall(r.states[j], r.labels[j], m)
  }

  /** In every run, with or without errors, a pooled request carries Result == -1 exactly when some
      earlier handler call on it failed, however often it has been returned and reused since. */
  lemma {:induction false} ResultIsSticky(c: Config, r: Run, i: nat, m: nat)
    requires IsRun(c, r) && i < |r.states| && m < c.pool
    ensures |r.states[i].msgs| == c.pool
    ensures r.states[i].msgs[m].result == -1 <==> FailedBefore(r, i, m)
  {
    if i > 0 {
      var s, l := r.states[i - 1], r.labels[i - 1];
      ResultIsSticky(c, r, i - 1, m);
      assert StepAt(c, r, i - 1);
      ResultStep(c, s, l, m);
      if FailedBefore(r, i - 1, m) {
        var j :| 0 <= j < i - 1 && FailedCall(r.states[j], r.labels[j], m);
        assert FailedBefore(r, i, m);
      }
      if FailedBefore(r, i, m) && !FailedCall(s, l, m) {
        var j :| 0 <= j < i && FailedCall(r.states[j], r.labels[j], m);
        assert j != i - 1;
      }
    }
  }

  // ---------------------------------------------------------------- the extra completion

  // Only inside its first completion does a worker remember that there is a second one.
  predicate InCompletion(p: WPc) { !p.WSend? && !p.WWait? && !p.WCopy? && !p.WReturn? && !p.WDone? }

  ghost predicate EioInv(s: State) { forall w | 0 <= w < |s.workers| :: s.workers[w].eio ==> InCompletion(s.workers[w].pc) }

  lemma EioW(c: Config, s: State, w: nat)
    requires WEnabled(c, s, w) && EioInv(s)
    ensures EioInv(WNext(c, s, w))
  {
  }

  lemma EioStep(c: Config, s: State, l: Label)
    requires Enabled(c, s, l) && EioInv(s)
    ensures EioInv(Next(c, s, l)) && |Next(c, s, l).msgs| == |s.msgs|
  {
    if l.WStep? { EioW(c, s, l.w); }
  }

  lemma {:induction false} EioRun(c: Config, r: Run, i: nat)
    requires IsRun(c, r) && i < |r.states|
    ensures EioInv(r.states[i]) && |r.states[i].msgs| == c.pool
  {
    if i > 0 {
      EioRun(c, r, i - 1);
      assert StepAt(c, r, i - 1);
      EioStep(c, r.states[i - 1], r.labels[i - 1]);
    }
  }

  /** In every run a worker that has its request back completes its slot with -EIO first, and then again,
      exactly when an earlier call on its request failed; otherwise it completes it once. */
  lemma ExtraCompletionIff(c: Config, r: Run, i: nat, w: nat)
    requires IsRun(c, r) && i < |r.labels| && r.labels[i] == WStep(w)
    requires w < |r.states[i].workers| && r.states[i].workers[w].pc == WWait
    ensures w < |r.states[i + 1].workers|
    ensures var k' := r.states[i + 1].workers[w];
            if FailedBefore(r, i, r.states[i].workers[w].m) then k'.eio && k'.pc == WMark && k'.res == -5
            else !k'.eio && k'.pc == WCopy
  {
    assert StepAt(c, r, i);
    EioRun(c, r, i);
    ResultIsSticky(c, r, i, r.states[i].workers[w].m);
  }
}
