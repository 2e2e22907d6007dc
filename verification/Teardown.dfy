/** Release of a context: nothing of it is left behind, and nothing of it comes back. */
module Teardown {
  import opened Slots
  import opened Protocol
  import opened Evolution
  import opened Counting
  import opened Lifetime
  import opened Fates
  import opened Blame
  import opened Readers
  import opened Invariant
  import opened UserSteps
  import opened DeviceSteps
  import opened ReleaseSteps
  import opened Runs
  import opened Safety
  import opened Conservation

  lemma StillLive(s: State)
    requires Reachable(s) && s.ctl.running.Some? && s.ctl.fence.Waiting?
    ensures Alive(s.ctl, s.ctl.running.value)
  {
    ReachableCore(s);
  }

  /** Once the task count of a context that is being released has been seen at zero, nothing of the context is left
      with the driver or with the device. */
  lemma NothingIsLeft(s: State, c: CtxId)
    requires Reachable(s) && c in s.d.ctxs && Dying(s.d.ctxs[c])
    ensures s.d.ctxs[c].inflight == multiset{} && Unfinished(s.d, c) == {}
    ensures forall t :: 0 <= t < |s.d.log| && s.d.log[t].ctx == c ==>
              t !in s.ctl.pending && !Alive(s.ctl, t) && !Unhandled(s.d.dev, t)
    ensures forall p :: s.d.dev.done <= p < |s.d.dev.fed| && s.d.dev.fed[p].tag.Some? ==>
              s.d.dev.fed[p].tag.value < |s.d.log| && s.d.log[s.d.dev.fed[p].tag.value].ctx != c
  {
    ReachableCore(s);
    assert AloneOk(s.d.ctxs[c]);
    TaskCountIsExact(s, c);
    assert |s.d.ctxs[c].inflight| == 0;
    forall t | 0 <= t < |s.d.log| && s.d.log[t].ctx == c
      ensures t !in s.ctl.pending && !Alive(s.ctl, t) && !Unhandled(s.d.dev, t)
    {
      LeftByNone(s, c, t);
    }
    forall p | s.d.dev.done <= p < |s.d.dev.fed| && s.d.dev.fed[p].tag.Some?
      ensures s.d.dev.fed[p].tag.value < |s.d.log| && s.d.log[s.d.dev.fed[p].tag.value].ctx != c
    {
      OutstandingIsRunning(s, p);
      StillLive(s);
    }
  }

  lemma LeftByNone(s: State, c: CtxId, t: TaskId)
    requires Reachable(s) && t < |s.d.log| && s.d.log[t].ctx == c && Unfinished(s.d, c) == {}
    ensures t !in s.ctl.pending && !Alive(s.ctl, t) && !Unhandled(s.d.dev, t)
  {
    assert t !in Unfinished(s.d, c);
    NoTaskIsLost(s, t);
    if Unhandled(s.d.dev, t) {
      UnhandledIsRunning(s, t);
      StillLive(s);
    }
  }

  lemma CountStep(s: State, l: Label, s': State, c: CtxId)
    requires Core(s) && Step(s, l, s') && c in s.d.ctxs && !s.d.ctxs[c].phase.Open?
    ensures c in s'.d.ctxs && s'.d.ctxs[c].taskCount <= s.d.ctxs[c].taskCount
  {
    match l
    case Worker => if !Stuck(s) { WorkCounts(s); }
    case User(u) => UserCount(s.d, u, c);
    case Dev(step) => DeviceKeepsCtx(s, step, c);
    case Rel(r) => ReleaseKeepsCtx(s.d, r, c);
  }

  lemma CountAt(states: seq<State>, labels: seq<Label>, k: nat, c: CtxId)
    requires IsRun(states, labels) && k < |labels| && c in states[k].d.ctxs && !states[k].d.ctxs[c].phase.Open?
    ensures c in states[k + 1].d.ctxs && states[k + 1].d.ctxs[c].taskCount <= states[k].d.ctxs[c].taskCount
  {
    RunStep(states, labels, k);
    CountStep(states[k], labels[k], states[k + 1], c);
  }

  lemma UserCount(d: Data, u: UserStep, c: CtxId)
    requires WfData(d) && UserEnabled(d, u) && LifeOk(d.ctxs, d.bufs) && c in d.ctxs && !d.ctxs[c].phase.Open?
    ensures c in UserData(d, u).ctxs && UserData(d, u).ctxs[c].taskCount <= d.ctxs[c].taskCount
  {
    if u.Begin? {
      assert PairOk(d.ctxs[d.bufs[u.sub.buf].ctx], d.bufs[u.sub.buf]);
    }
  }

  /** From the moment its buffers are marked, the task count of a context never rises. */
  lemma {:induction false} CountNeverRises(states: seq<State>, labels: seq<Label>, i: nat, j: nat, c: CtxId)
    requires IsRun(states, labels) && i <= j < |states| && c in states[i].d.ctxs && !states[i].d.ctxs[c].phase.Open?
    ensures c in states[j].d.ctxs && states[j].d.ctxs[c].taskCount <= states[i].d.ctxs[c].taskCount
    decreases j
  {
    if i < j {
      var k := j - 1;
      CountNeverRises(states, labels, i, k, c);
      StillClosing(states, labels, i, k, c);
      CountAt(states, labels, k, c);
    }
  }

  lemma StillClosing(states: seq<State>, labels: seq<Label>, i: nat, j: nat, c: CtxId)
    requires IsRun(states, labels) && i <= j < |states| && c in states[i].d.ctxs && !states[i].d.ctxs[c].phase.Open?
    ensures c in states[j].d.ctxs && !states[j].d.ctxs[c].phase.Open?
  {
    RunGrows(states, labels, i, j);
    assert CtxGrows(states[i].d.ctxs[c], states[j].d.ctxs[c]);
  }

  lemma UnboundWorker(s: State, b: BufId)
    requires Wf(s) && !Stuck(s) && b in s.d.bufs && s.d.bufs[b].slot == NO_SLOT
    requires s.ctl.pc.BindSlot? ==> s.d.log[s.ctl.next.value].buf != b
    ensures b in Work(s).bufs && Work(s).bufs[b].slot == NO_SLOT
  {
    WorkBuf(s, b);
  }

  lemma UnboundStep(s: State, l: Label, s': State, b: BufId)
    requires Core(s) && Step(s, l, s') && b in s.d.bufs && Dying(s.d.ctxs[s.d.bufs[b].ctx])
             && s.d.bufs[b].slot == NO_SLOT
    ensures b in s'.d.bufs && s'.d.bufs[b].slot == NO_SLOT
  {
    match l
    case Worker =>
      NotStuck(s);
      if s.ctl.pc.BindSlot? {
        assert AloneOk(s.d.ctxs[s.d.bufs[b].ctx]);
        NextCounts(s);
      }
      UnboundWorker(s, b);
    case User(u) => UserKeepsBuf(s.d, u, b);
    case Dev(step) => DeviceKeeps(s, step);
    case Rel(r) => ReleaseKeepsBuf(s.d, r, b);
  }

  lemma UnboundAt(states: seq<State>, labels: seq<Label>, k: nat, b: BufId)
    requires IsRun(states, labels) && k < |labels| && b in states[k].d.bufs && states[k].d.bufs[b].slot == NO_SLOT
    requires states[k].d.bufs[b].ctx in states[k].d.ctxs && Dying(states[k].d.ctxs[states[k].d.bufs[b].ctx])
    ensures b in states[k + 1].d.bufs && states[k + 1].d.bufs[b].slot == NO_SLOT
  {
    RunStep(states, labels, k);
    UnboundStep(states[k], labels[k], states[k + 1], b);
  }

  /** A buffer of a context whose tasks are gone is never bound again. */
  lemma {:induction false} NeverBoundAgain(states: seq<State>, labels: seq<Label>, i: nat, j: nat, b: BufId)
    requires IsRun(states, labels) && i <= j < |states| && b in states[i].d.bufs && states[i].d.bufs[b].slot == NO_SLOT
    requires states[i].d.bufs[b].ctx in states[i].d.ctxs && Dying(states[i].d.ctxs[states[i].d.bufs[b].ctx])
    ensures b in states[j].d.bufs && states[j].d.bufs[b].slot == NO_SLOT
    decreases j
  {
    if i < j {
      var k := j - 1;
      NeverBoundAgain(states, labels, i, k, b);
      StillDying(states, labels, i, k, b);
      UnboundAt(states, labels, k, b);
    }
  }

  lemma StillDying(states: seq<State>, labels: seq<Label>, i: nat, j: nat, b: BufId)
    requires IsRun(states, labels) && i <= j < |states| && b in states[i].d.bufs
    requires states[i].d.bufs[b].ctx in states[i].d.ctxs && Dying(states[i].d.ctxs[states[i].d.bufs[b].ctx])
    ensures b in states[j].d.bufs && states[j].d.bufs[b].ctx in states[j].d.ctxs
    ensures Dying(states[j].d.ctxs[states[j].d.bufs[b].ctx])
  {
    RunGrows(states, labels, i, j);
    assert BufGrows(states[i].d.bufs[b], states[j].d.bufs[b]);
    var c := states[i].d.bufs[b].ctx;
    assert CtxGrows(states[i].d.ctxs[c], states[j].d.ctxs[c]);
  }
}
