/** Building runs step by step, timely or not. */
module Paths {
  import opened Protocol
  import opened Invariants
  import opened Safety
  import opened Leases

  /** One step; if `timely`, one whose write to the store lands before its deadline. */
  ghost predicate Hop(cfg: Config, timely: bool, s: State, s': State) {
    exists step: Step :: Enabled(s, step) && (timely ==> Timely(cfg, s, step)) && s' == Effect(cfg, s, step)
  }

  ghost predicate HopAt(cfg: Config, timely: bool, path: seq<State>, i: int) {
    0 <= i < |path| - 1 ==> Hop(cfg, timely, path[i], path[i + 1])
  }

  /** Steps that lead from one state to another. */
  ghost predicate IsPathTo(cfg: Config, timely: bool, path: seq<State>, first: State, last: State) {
    && |path| > 0 && path[0] == first && path[|path| - 1] == last
    && forall i {:trigger HopAt(cfg, timely, path, i)} :: HopAt(cfg, timely, path, i)
  }

  ghost predicate Leads(cfg: Config, timely: bool, first: State, last: State) {
    exists path: seq<State> :: IsPathTo(cfg, timely, path, first, last)
  }

  lemma Stay(cfg: Config, timely: bool, s: State)
    ensures Leads(cfg, timely, s, s)
  {
    hide Hop;
    assert IsPathTo(cfg, timely, [s], s, s);
  }

  lemma Then(cfg: Config, timely: bool, first: State, s: State, step: Step)
    requires Leads(cfg, timely, first, s) && Enabled(s, step) && (timely ==> Timely(cfg, s, step))
    ensures Leads(cfg, timely, first, Effect(cfg, s, step))
  {
    hide Effect, Enabled, Timely;
    var s' := Effect(cfg, s, step);
    var path: seq<State> :| IsPathTo(cfg, timely, path, first, s);
    var longer := path + [s'];
    assert Hop(cfg, timely, s, s');
    hide Hop;
    forall i ensures HopAt(cfg, timely, longer, i) {
      assert HopAt(cfg, timely, path, i);
    }
    assert IsPathTo(cfg, timely, longer, first, s');
  }

  lemma Join(cfg: Config, timely: bool, a: State, b: State, c: State)
    requires Leads(cfg, timely, a, b) && Leads(cfg, timely, b, c)
    ensures Leads(cfg, timely, a, c)
  {
    hide Hop;
    var path: seq<State> :| IsPathTo(cfg, timely, path, a, b);
    var rest: seq<State> :| IsPathTo(cfg, timely, rest, b, c);
    var whole := path + rest[1..];
    forall i ensures HopAt(cfg, timely, whole, i) {
      assert HopAt(cfg, timely, path, i);
      assert HopAt(cfg, timely, rest, i - |path| + 1);
    }
    assert IsPathTo(cfg, timely, whole, a, c);
  }

  // ---- Paths and runs ----

  /** From a reachable state a path leads to reachable states only. */
  lemma LeadsReach(cfg: Config, s: State, s': State)
    requires Reachable(cfg, s) && Leads(cfg, false, s, s')
    ensures Reachable(cfg, s')
  {
    hide Enabled, Effect, Init;
    var run: seq<State> :| IsRun(cfg, run) && s == run[|run| - 1];
    var path: seq<State> :| IsPathTo(cfg, false, path, s, s');
    var whole := run + path[1..];
    forall i ensures StepAt(cfg, whole, i) {
      assert StepAt(cfg, run, i);
      assert HopAt(cfg, false, path, i - |run| + 1);
    }
    assert IsRun(cfg, whole);
  }

  lemma TimelyLeadsReach(cfg: Config, s: State, s': State)
    requires TimelyReachable(cfg, s) && Leads(cfg, true, s, s')
    ensures TimelyReachable(cfg, s')
  {
    hide Enabled, Effect, Init, Timely;
    var run: seq<State> :| IsTimelyRun(cfg, run) && s == run[|run| - 1];
    var path: seq<State> :| IsPathTo(cfg, true, path, s, s');
    var whole := run + path[1..];
    forall i ensures TimelyAt(cfg, whole, i) {
      assert TimelyAt(cfg, run, i);
      assert HopAt(cfg, true, path, i - |run| + 1);
    }
    assert IsTimelyRun(cfg, whole);
  }

  /** The states that runs, or timely runs, reach. */
  ghost predicate CanReach(cfg: Config, timely: bool, s: State) {
    if timely then TimelyReachable(cfg, s) else Reachable(cfg, s)
  }

  lemma Reach(cfg: Config, timely: bool, s: State, s': State)
    requires CanReach(cfg, timely, s) && Leads(cfg, timely, s, s')
    ensures CanReach(cfg, timely, s')
  {
    hide Reachable, TimelyReachable, Leads;
    if timely { TimelyLeadsReach(cfg, s, s'); } else { LeadsReach(cfg, s, s'); }
  }

  /** Every timely run is a run. */
  lemma TimelyIsReachable(cfg: Config, s: State)
    requires TimelyReachable(cfg, s)
    ensures Reachable(cfg, s)
  {
    hide Enabled, Effect, Init, Timely;
    var run: seq<State> :| IsTimelyRun(cfg, run) && s == run[|run| - 1];
    forall i ensures StepAt(cfg, run, i) {
      assert TimelyAt(cfg, run, i);
    }
    assert IsRun(cfg, run);
  }

  lemma CanReachInv(cfg: Config, timely: bool, s: State)
    requires ValidConfig(cfg) && CanReach(cfg, timely, s)
    ensures Inv(cfg, s)
  {
    hide Reachable, TimelyReachable, Inv, ValidConfig;
    if timely { TimelyIsReachable(cfg, s); }
    ReachableIsInv(cfg, s);
  }
}
