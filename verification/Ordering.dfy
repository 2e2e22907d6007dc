/** The order of execution, and the end of execution after a failure. */
module Ordering {
  import opened Basics
  import opened Protocol
  import opened Evolution
  import opened Control
  import opened Counting
  import opened Blame
  import opened CutOff
  import opened Invariant
  import opened UserSteps
  import opened DeviceSteps
  import opened ReleaseSteps
  import opened Runs

  /** Whatever the device is fed for tasks comes in the order in which the tasks were put on the list: no command of
      a task follows a command of a later one. */
  lemma FedInOrder(s: State, p: nat, q: nat)
    requires Reachable(s) && p < q < |s.d.dev.fed| && s.d.dev.fed[p].tag.Some? && s.d.dev.fed[q].tag.Some?
    ensures s.d.dev.fed[p].tag.value <= s.d.dev.fed[q].tag.value < |s.d.log|
  {
    ReachableTraced(s);
  }

  // ---------- After a failure ----------

  /** The step starts a task of the context. */
  predicate StartsTask(s: State, l: Label, c: CtxId) {
    && l.Worker? && s.ctl.pc.RunSet? && s.ctl.next.Some? && s.ctl.next.value < |s.d.log|
    && s.d.log[s.ctl.next.value].ctx == c
  }

  /** The number of tasks of a context started in steps `i` to `j` of a run. */
  function Starts(states: seq<State>, labels: seq<Label>, c: CtxId, i: nat, j: nat): nat
    requires |states| == |labels| + 1 && i <= j <= |labels|
    decreases j
  {
    if i == j then 0
    else Starts(states, labels, c, i, j - 1) + if StartsTask(states[j - 1], labels[j - 1], c) then 1 else 0
  }

  lemma StartStep(s: State, l: Label, s': State, c: CtxId)
    requires Core(s) && Step(s, l, s') && c in s.d.ctxs && s.d.ctxs[c].failed
    ensures c in s'.d.ctxs && s'.d.ctxs[c].failed
    ensures s'.d.ctxs[c].lateStarts == s.d.ctxs[c].lateStarts + if StartsTask(s, l, c) then 1 else 0
  {
    match l
    case Worker =>
      NotStuck(s);
      WorkStarts(s, c);
      WorkFailures(s, c);
    case User(u) => UserKeepsCtx(s.d, u, c);
    case Dev(step) => DeviceKeepsCtx(s, step, c);
    case Rel(r) => ReleaseKeepsCtx(s.d, r, c);
  }

  lemma StartAt(states: seq<State>, labels: seq<Label>, c: CtxId, k: nat)
    requires IsRun(states, labels) && k < |labels| && c in states[k].d.ctxs && states[k].d.ctxs[c].failed
    ensures c in states[k + 1].d.ctxs && states[k + 1].d.ctxs[c].failed
    ensures states[k + 1].d.ctxs[c].lateStarts
         == states[k].d.ctxs[c].lateStarts + if StartsTask(states[k], labels[k], c) then 1 else 0
  {
    RunStep(states, labels, k);
    StartStep(states[k], labels[k], states[k + 1], c);
  }

  lemma {:induction false} LateStartsCount(states: seq<State>, labels: seq<Label>, c: CtxId, i: nat, j: nat)
    requires IsRun(states, labels) && i <= j < |states| && c in states[i].d.ctxs && states[i].d.ctxs[c].failed
    ensures c in states[j].d.ctxs && states[j].d.ctxs[c].failed
    ensures states[j].d.ctxs[c].lateStarts == states[i].d.ctxs[c].lateStarts + Starts(states, labels, c, i, j)
    decreases j
  {
    if i < j {
      var k := j - 1;
      LateStartsCount(states, labels, c, i, k);
      StartAt(states, labels, c, k);
    }
  }

  // ---------- Which task that is ----------

  lemma WalkPrefetches(n: nat, ctl: Ctl, sight: Sight)
    requires AtPc(n, ctl) && Prefetched(Walk(ctl, sight)) != Prefetched(ctl) && Prefetched(Walk(ctl, sight)).Some?
    ensures ctl.pc.Got? && !sight.failed && Prefetched(Walk(ctl, sight)) == Some(ctl.pc.task)
  {
  }

  /** No task of a context that has failed is prefetched. */
  lemma PrefetchStep(s: State, l: Label, s': State, c: CtxId)
    requires Core(s) && Step(s, l, s') && c in s.d.ctxs && s.d.ctxs[c].failed
    requires One(s'.d.log, Prefetched(s'.ctl), c) == 1
    ensures Prefetched(s'.ctl) == Prefetched(s.ctl) && One(s.d.log, Prefetched(s.ctl), c) == 1
  {
    match l
    case Worker =>
      NotStuck(s);
      WorkStarts(s, c);
      if Prefetched(s'.ctl) != Prefetched(s.ctl) {
        WalkPrefetches(|s.d.log|, s.ctl, See(s));
        assert false;
      }
    case User(u) => UserKeeps(s.d, u);
    case Dev(step) => DeviceKeeps(s, step);
    case Rel(r) => ReleaseKeeps(s.d, r);
  }

  lemma PrefetchAt(states: seq<State>, labels: seq<Label>, c: CtxId, k: nat)
    requires IsRun(states, labels) && k < |labels| && c in states[k].d.ctxs && states[k].d.ctxs[c].failed
    requires One(states[k + 1].d.log, Prefetched(states[k + 1].ctl), c) == 1
    ensures Prefetched(states[k + 1].ctl) == Prefetched(states[k].ctl)
    ensures One(states[k].d.log, Prefetched(states[k].ctl), c) == 1
  {
    RunStep(states, labels, k);
    PrefetchStep(states[k], labels[k], states[k + 1], c);
  }

  /** If a task of a context is prefetched after the context has failed, it already was when it failed. */
  lemma {:induction false} PrefetchedBefore(states: seq<State>, labels: seq<Label>, c: CtxId, i: nat, k: nat)
    requires IsRun(states, labels) && i <= k < |states| && c in states[i].d.ctxs && states[i].d.ctxs[c].failed
    requires One(states[k].d.log, Prefetched(states[k].ctl), c) == 1
    ensures Prefetched(states[k].ctl) == Prefetched(states[i].ctl)
    ensures One(states[i].d.log, Prefetched(states[i].ctl), c) == 1
    decreases k
  {
    if i < k {
      LateStartsCount(states, labels, c, i, k - 1);
      PrefetchAt(states, labels, c, k - 1);
      PrefetchedBefore(states, labels, c, i, k - 1);
    }
  }

  /** A late start is that of the task that was prefetched when the context failed. */
  lemma LateStartWasPrefetched(states: seq<State>, labels: seq<Label>, c: CtxId, i: nat, k: nat)
    requires IsRun(states, labels) && i <= k < |labels| && c in states[i].d.ctxs && states[i].d.ctxs[c].failed
    requires StartsTask(states[k], labels[k], c)
    ensures states[k].ctl.next == Prefetched(states[i].ctl) && One(states[i].d.log, Prefetched(states[i].ctl), c) == 1
  {
    PrefetchedBefore(states, labels, c, i, k);
  }

  lemma {:induction false} NoneStarted(states: seq<State>, labels: seq<Label>, c: CtxId, i: nat, j: nat)
    requires IsRun(states, labels) && i <= j < |states| && c in states[i].d.ctxs && states[i].d.ctxs[c].failed
    requires One(states[i].d.log, Prefetched(states[i].ctl), c) == 0
    ensures Starts(states, labels, c, i, j) == 0
    decreases j
  {
    if i < j {
      NoneStarted(states, labels, c, i, j - 1);
      if StartsTask(states[j - 1], labels[j - 1], c) {
        LateStartWasPrefetched(states, labels, c, i, j - 1);
        assert false;
      }
    }
  }

  /** A context that has failed stays so, and at most one more task of it is started: the one that was prefetched
      when it failed, so that none is started if there was none. */
  lemma AtMostOneLateStart(states: seq<State>, labels: seq<Label>, c: CtxId, i: nat, j: nat)
    requires IsRun(states, labels) && i <= j < |states| && c in states[i].d.ctxs && states[i].d.ctxs[c].failed
    ensures c in states[j].d.ctxs && states[j].d.ctxs[c].failed
    ensures Starts(states, labels, c, i, j) <= One(states[i].d.log, Prefetched(states[i].ctl), c) <= 1
    ensures forall k :: i <= k < j && StartsTask(states[k], labels[k], c) ==>
              states[k].ctl.next == Prefetched(states[i].ctl)
  {
    LateStartsCount(states, labels, c, i, j);
    PrefixReachable(states, labels, j);
    ReachableCtx(states[j], c);
    if One(states[i].d.log, Prefetched(states[i].ctl), c) == 0 {
      NoneStarted(states, labels, c, i, j);
    }
    forall k | i <= k < j && StartsTask(states[k], labels[k], c)
      ensures states[k].ctl.next == Prefetched(states[i].ctl)
    {
      LateStartWasPrefetched(states, labels, c, i, k);
    }
  }

  lemma NotAfterParsing(states: seq<State>, labels: seq<Label>, c: CtxId, i: nat, k: nat)
    requires IsRun(states, labels) && i <= k < |labels| && c in states[i].d.ctxs && states[i].d.ctxs[c].parseFailed
    ensures !StartsTask(states[k], labels[k], c)
  {
    RunGrows(states, labels, i, k);
    assert CtxGrows(states[i].d.ctxs[c], states[k].d.ctxs[c]);
    PrefixReachable(states, labels, k);
    ReachableCtx(states[k], c);
  }

  lemma {:induction false} NoStartOnceFlagged(states: seq<State>, labels: seq<Label>, c: CtxId, i: nat, j: nat)
    requires IsRun(states, labels) && i <= j < |states| && c in states[i].d.ctxs && states[i].d.ctxs[c].parseFailed
    ensures Starts(states, labels, c, i, j) == 0
    decreases j
  {
    if i < j {
      var k := j - 1;
      NoStartOnceFlagged(states, labels, c, i, k);
      NotAfterParsing(states, labels, c, i, k);
    }
  }

  lemma ParsingIsNoticed(states: seq<State>, labels: seq<Label>, i: nat, c: CtxId)
    requires IsRun(states, labels) && i < |labels| && labels[i].Worker? && Wf(states[i]) && Rejects(states[i])
    requires c == states[i].d.log[states[i].ctl.next.value].ctx
    ensures c in states[i + 1].d.ctxs && states[i + 1].d.ctxs[c].parseFailed && states[i + 1].d.ctxs[c].failed
  {
    RunStep(states, labels, i);
    NoticedStep(states[i], states[i + 1]);
  }

  lemma NoticedStep(s: State, s': State)
    requires Core(s) && Step(s, Worker, s') && Rejects(s)
    ensures var c := s.d.log[s.ctl.next.value].ctx; c in s'.d.ctxs && s'.d.ctxs[c].parseFailed && s'.d.ctxs[c].failed
  {
    var c := s.d.log[s.ctl.next.value].ctx;
    assert TaskWf(s.d.log[s.ctl.next.value], s.d.ctxs, s.d.bufs);
    NotStuck(s);
    WorkStarts(s, c);
    WorkFailures(s, c);
  }

  /** Once the work thread has found a command of a context not acceptable, the context has failed and no further task
      of it is started. */
  lemma NoStartAfterParsing(states: seq<State>, labels: seq<Label>, i: nat, j: nat)
    requires IsRun(states, labels) && i < j < |states| && labels[i].Worker? && Wf(states[i]) && Rejects(states[i])
    ensures var c := states[i].d.log[states[i].ctl.next.value].ctx;
            c in states[j].d.ctxs && states[j].d.ctxs[c].failed && Starts(states, labels, c, i + 1, j) == 0
  {
    var c := states[i].d.log[states[i].ctl.next.value].ctx;
    ParsingIsNoticed(states, labels, i, c);
    NoStartOnceFlagged(states, labels, c, i + 1, j);
    AtMostOneLateStart(states, labels, c, i + 1, j);
  }
}
