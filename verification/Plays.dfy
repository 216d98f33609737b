/** Playing a given list of labels. */
module Plays {
  import opened Machine
  import opened Device
  import opened Refine
  import opened Runs

  // The state after the labels, if each is enabled in turn.
  function Play(c: Config, s: State, ls: seq<Label>): Option<State>
    decreases ls
  {
    if ls == [] then Some(s)
    else if Enabled(c, s, ls[0]) then Play(c, Next(c, s, ls[0]), ls[1..])
    else None
  }

  lemma {:induction false} PlayAppend(c: Config, s: State, a: seq<Label>, b: seq<Label>)
    requires Play(c, s, a).Some?
    ensures Play(c, s, a + b) == Play(c, Play(c, s, a).value, b)
    decreases a
  {
    if a == [] {
      assert a + b == b;
    } else {
      assert (a + b)[1..] == a[1..] + b;
      PlayAppend(c, Next(c, s, a[0]), a[1..], b);
    }
  }

  // What the played labels show the driver.
  function Shows(c: Config, s: State, ls: seq<Label>): seq<Event>
    requires Play(c, s, ls).Some?
    decreases ls
  {
    if ls == [] then [] else Visible(EventOf(c, s, ls[0])) + Shows(c, Next(c, s, ls[0]), ls[1..])
  }

  lemma {:induction false} ShowsAppend(c: Config, s: State, a: seq<Label>, b: seq<Label>)
    requires Play(c, s, a).Some? && Play(c, Play(c, s, a).value, b).Some?
    ensures Play(c, s, a + b).Some? && Shows(c, s, a + b) == Shows(c, s, a) + Shows(c, Play(c, s, a).value, b)
    decreases a
  {
    PlayAppend(c, s, a, b);
    if a == [] {
      assert a + b == b;
    } else {
      assert (a + b)[1..] == a[1..] + b;
      ShowsAppend(c, Next(c, s, a[0]), a[1..], b);
    }
  }

  // Runs that agree on n steps have the same trace up to n.
  lemma {:induction false} TraceAgrees(c: Config, r: Run, p: Run, n: nat)
    requires IsRun(c, r) && IsRun(c, p) && n <= |r.labels| && n <= |p.labels|
    requires r.labels[..n] == p.labels[..n] && r.states[..n + 1] == p.states[..n + 1]
    ensures Trace(c, r, n) == Trace(c, p, n)
  {
    if n > 0 {
      assert r.labels[..n - 1] == r.labels[..n][..n - 1] && p.labels[..n - 1] == p.labels[..n][..n - 1];
      assert r.states[..n] == r.states[..n + 1][..n] && p.states[..n] == p.states[..n + 1][..n];
      TraceAgrees(c, r, p, n - 1);
      assert r.labels[n - 1] == r.labels[..n][n - 1] && p.labels[n - 1] == p.labels[..n][n - 1];
      assert r.states[n - 1] == r.states[..n + 1][n - 1] && p.states[n - 1] == p.states[..n + 1][n - 1];
    }
  }

  // One more step of a run.
  lemma LongerRun(c: Config, p: Run, l: Label) returns (r: Run)
    requires IsRun(c, p) && Enabled(c, Last(p.states), l)
    ensures IsRun(c, r) && r.labels == p.labels + [l] && Last(r.states) == Next(c, Last(p.states), l)
    ensures Trace(c, r, |r.labels|) == Trace(c, p, |p.labels|) + Visible(EventOf(c, Last(p.states), l))
  {
    var n := |p.labels|;
    r := Run(p.states + [Next(c, Last(p.states), l)], p.labels + [l]);
    forall i | 0 <= i < |r.labels| ensures StepAt(c, r, i) {
      if i < n { assert StepAt(c, p, i); }
    }
    TraceAgrees(c, r, p, n);
  }

  // What is played from the initial state is a run, and shows that run's trace.
  lemma {:induction false} PlayedRun(c: Config, ls: seq<Label>) returns (r: Run)
    requires Play(c, Init(c), ls).Some?
    ensures IsRun(c, r) && r.labels == ls && Last(r.states) == Play(c, Init(c), ls).value
    ensures Trace(c, r, |ls|) == Shows(c, Init(c), ls)
  {
    if ls == [] {
      r := Run([Init(c)], []);
    } else {
      var n := |ls| - 1;
      PlayPrefix(c, Init(c), ls);
      assert ls == ls[..n] + [ls[n]];
      var p := PlayedRun(c, ls[..n]);
      LastEnabled(c, ls[..n], ls[n]);
      Then(c, ls[..n], ls[n]);
      ThenShows(c, ls[..n], ls[n]);
      r := LongerRun(c, p, ls[n]);
    }
  }

  lemma LastEnabled(c: Config, ls: seq<Label>, l: Label)
    requires Play(c, Init(c), ls).Some? && Play(c, Init(c), ls + [l]).Some?
    ensures Enabled(c, Play(c, Init(c), ls).value, l)
  {
    PlayAppend(c, Init(c), ls, [l]);
  }

  lemma ShowsOne(c: Config, s: State, l: Label)
    requires Enabled(c, s, l)
    ensures Play(c, s, [l]) == Some(Next(c, s, l)) && Shows(c, s, [l]) == Visible(EventOf(c, s, l))
  {
    assert [l][1..] == [];
  }

  lemma {:induction false} PlayPrefix(c: Config, s: State, ls: seq<Label>)
    requires ls != [] && Play(c, s, ls).Some?
    ensures Play(c, s, ls[..|ls| - 1]).Some?
    decreases ls
  {
    if |ls| > 1 {
      assert ls[1..][..|ls| - 2] == ls[..|ls| - 1][1..];
      PlayPrefix(c, Next(c, s, ls[0]), ls[1..]);
    }
  }

  // One label after a played list.
  lemma Then(c: Config, ls: seq<Label>, l: Label)
    requires Play(c, Init(c), ls).Some? && Enabled(c, Play(c, Init(c), ls).value, l)
    ensures Play(c, Init(c), ls + [l]) == Some(Next(c, Play(c, Init(c), ls).value, l))
  {
    PlayAppend(c, Init(c), ls, [l]);
    ShowsOne(c, Play(c, Init(c), ls).value, l);
  }

  lemma ThenShows(c: Config, ls: seq<Label>, l: Label)
    requires Play(c, Init(c), ls).Some? && Enabled(c, Play(c, Init(c), ls).value, l)
    ensures Play(c, Init(c), ls + [l]).Some?
    ensures Shows(c, Init(c), ls + [l]) == Shows(c, Init(c), ls) + Visible(EventOf(c, Play(c, Init(c), ls).value, l))
  {
    ShowsOne(c, Play(c, Init(c), ls).value, l);
    ShowsAppend(c, Init(c), ls, [l]);
  }
}
