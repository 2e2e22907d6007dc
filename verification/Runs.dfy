/** Every reachable state meets the invariant. */
module Runs {
  import opened Slots
  import opened Protocol
  import opened Evolution
  import opened Invariant
  import opened WorkerSteps
  import opened UserSteps
  import opened DeviceSteps
  import opened ReleaseSteps

  lemma StepInv(s: State, l: Label)
    requires Inv(s) && Enabled(s, l)
    ensures Inv(Apply(s, l))
  {
    match l
    case Worker => WorkInv(s);
    case User(u) => UserInv(s, u);
    case Dev(step) => DeviceInv(s, step);
    case Rel(r) => ReleaseInv(s, r);
  }

  lemma NextInv(s: State, l: Label, s': State)
    requires Inv(s) && Step(s, l, s')
    ensures Inv(s')
  {
    StepInv(s, l);
  }

  /** The invariant holds all along every run. */
  lemma {:induction false} RunInv(states: seq<State>, labels: seq<Label>, i: nat, s: State)
    requires IsRun(states, labels) && i < |states| && states[i] == s
    ensures Inv(s)
    decreases i
  {
    if i == 0 {
      InitialInv(s);
    } else {
      var before := states[i - 1];
      RunInv(states, labels, i - 1, before);
      assert StepAt(states, labels, i - 1);
      NextInv(before, labels[i - 1], s);
    }
  }

  ghost predicate Reachable(s: State) {
    exists states, labels :: IsRun(states, labels) && states[|labels|] == s
  }

  lemma ReachableInv(s: State)
    requires Reachable(s)
    ensures Inv(s)
  {
    var states, labels :| IsRun(states, labels) && states[|labels|] == s;
    RunInv(states, labels, |labels|, s);
  }

  lemma ReachableCore(s: State)
    requires Reachable(s)
    ensures Core(s)
  {
    ReachableInv(s);
  }

  lemma ReachableWf(s: State)
    requires Reachable(s)
    ensures Wf(s)
  {
    ReachableInv(s);
  }

  lemma ReachableTraced(s: State)
    requires Reachable(s)
    ensures Traced(s)
  {
    ReachableInv(s);
  }

  lemma ReachableTask(s: State, t: TaskId)
    requires Reachable(s) && t < |s.d.log|
    ensures Wf(s) && TaskInv(s, t)
  {
    ReachableInv(s);
  }

  lemma ReachableCtx(s: State, c: CtxId)
    requires Reachable(s)
    ensures Wf(s) && CtxInv(s, c)
  {
    ReachableInv(s);
  }

  lemma ReachableBuf(s: State, b: BufId)
    requires Reachable(s)
    ensures BufInv(s, b)
  {
    ReachableInv(s);
  }

  lemma PrefixReachable(states: seq<State>, labels: seq<Label>, i: nat)
    requires IsRun(states, labels) && i < |states|
    ensures Reachable(states[i])
  {
    var ss, ls := states[..i + 1], labels[..i];
    assert IsRun(ss, ls) by {
      forall k | 0 <= k < |ls| ensures StepAt(ss, ls, k) {
        assert StepAt(states, labels, k);
      }
    }
    assert ss[|ls|] == states[i];
  }

  lemma RunStep(states: seq<State>, labels: seq<Label>, i: nat)
    requires IsRun(states, labels) && i < |labels|
    ensures Core(states[i]) && Step(states[i], labels[i], states[i + 1])
  {
    RunInv(states, labels, i, states[i]);
    assert StepAt(states, labels, i);
  }

  lemma GrowsReflexive(d: Data)
    ensures Grows(d, d)
  {
  }

  lemma NextGrows(d: Data, s: State, l: Label, s': State)
    requires Grows(d, s.d) && Step(s, l, s')
    ensures Grows(d, s'.d)
  {
    StepGrows(s, l);
    GrowsTransitive(d, s.d, s'.d);
  }

  /** Later states of a run know all that happened before. */
  lemma {:induction false} RunGrows(states: seq<State>, labels: seq<Label>, i: nat, j: nat)
    requires IsRun(states, labels) && i <= j < |states|
    ensures Grows(states[i].d, states[j].d)
    decreases j - i
  {
    if i == j {
      GrowsReflexive(states[i].d);
    } else {
      RunGrows(states, labels, i, j - 1);
      assert StepAt(states, labels, j - 1);
      NextGrows(states[i].d, states[j - 1], labels[j - 1], states[j]);
    }
  }
}
