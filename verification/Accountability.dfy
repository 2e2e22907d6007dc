/** Who fails and why, and what the success of a wait means. */
module Accountability {
  import opened Basics
  import opened Translator
  import opened Protocol
  import opened Control
  import opened Signals
  import opened Fates
  import opened Blame
  import opened Script
  import opened Invariant
  import opened UserSteps
  import opened ReleaseSteps
  import opened Runs
  import opened Conservation

  /** The fence of the task is still awaited. */
  predicate Awaited(ctl: Ctl, t: TaskId) { ctl.running == Some(t) && ctl.fence.Waiting? }

  // ---------- Blame ----------

  /** A fault is charged only to the context of the task that raised it. */
  lemma BlameIsExact(s: State, t: TaskId, c: CtxId)
    requires Reachable(s) && (t, c) in s.d.hist.charged
    ensures t < |s.d.log| && t in s.d.hist.raised && s.d.log[t].ctx == c && c in s.d.ctxs && s.d.ctxs[c].failed
  {
    ReachableTraced(s);
    assert (t, c).0 < |s.d.log|;
    ReachableTask(s, t);
  }

  /** A fault is charged before the fence of its task is seen: whoever finds the fence reached, or the task
      destroyed, finds the context failed. */
  lemma BlameIsTimely(s: State, t: TaskId)
    requires Reachable(s) && t in s.d.hist.raised && !Awaited(s.ctl, t)
    ensures t < |s.d.log| && (t, s.d.log[t].ctx) in s.d.hist.charged
    ensures s.d.log[t].ctx in s.d.ctxs && s.d.ctxs[s.d.log[t].ctx].failed
  {
    ReachableTraced(s);
    ReachableTask(s, t);
  }

  /** A task whose words are not being read is on record as rejected exactly when it was started and one of its
      commands is not acceptable. */
  lemma RejectedExactly(s: State, t: TaskId)
    requires Reachable(s) && t < |s.d.log| && !(s.ctl.running == Some(t) && s.ctl.pc.RunCmd?)
    ensures s.d.log[t].buf in s.d.bufs
    ensures var allowed := s.d.bufs[s.d.log[t].buf].allowed;
            t in s.d.hist.rejected <==> t in s.d.hist.slotOf && Offends(Split(s.d.log[t].words, allowed).1, allowed)
  {
    ReachableTask(s, t);
    ParseMeaning(s.d.log[t].words, s.d.bufs[s.d.log[t].buf].allowed);
  }

  /** A context has failed exactly when one of its own tasks was rejected or had a fault charged. */
  lemma FailedExactly(s: State, c: CtxId)
    requires Reachable(s) && c in s.d.ctxs
    ensures s.d.ctxs[c].failed <==> exists t :: Guilty(s.d, c, t)
  {
    ReachableCtx(s, c);
    forall t | Guilty(s.d, c, t) ensures s.d.ctxs[c].failed { ReachableTask(s, t); }
  }

  /** Step `i` of a run is the device consuming a command of `t` that raises a fault. */
  predicate Raises(states: seq<State>, labels: seq<Label>, i: nat, t: TaskId)
    requires i < |labels| && |states| == |labels| + 1
  {
    var dev := states[i].d.dev;
    labels[i].Dev? && labels[i].step.Consume? && labels[i].step.faults != []
    && dev.done < |dev.fed| && dev.fed[dev.done].tag == Some(t)
  }

  /** Every fault ends in the failure of the context whose command raised it, and stays with it. */
  lemma FaultFailsItsContext(states: seq<State>, labels: seq<Label>, i: nat, j: nat, t: TaskId)
    requires IsRun(states, labels) && i < j < |states| && Raises(states, labels, i, t) && !Awaited(states[j].ctl, t)
    ensures t < |states[i].d.log| && states[i].d.log[t].ctx in states[j].d.ctxs
    ensures states[j].d.ctxs[states[i].d.log[t].ctx].failed
  {
    assert StepAt(states, labels, i);
    assert t in states[i + 1].d.hist.raised;
    PrefixReachable(states, labels, i + 1);
    ReachableTraced(states[i + 1]);
    RunGrows(states, labels, i + 1, j);
    PrefixReachable(states, labels, j);
    BlameIsTimely(states[j], t);
  }

  // ---------- Causes ----------

  /** What the handler has read of an error is the running task's. */
  lemma ErrorIsRunning(dev: Device, st: Status, stage: Stage)
    requires SignalsOk(dev, In(st), stage) && (st.cmd || st.mem)
    ensures !stage.Silent? && Unhandled(dev, stage.task)
  {
    assert st.cmd ==> dev.reg.cmdBy == {stage.task};
    assert st.mem ==> dev.reg.memBy == {stage.task};
  }

  lemma HandlerCause(s: State, c: CtxId)
    requires Wf(s) && SignalsOk(s.d.dev, s.d.isr, StageOf(s.ctl)) && s.d.isr.In? && c in s.d.ctxs && !s.d.ctxs[c].failed
    requires c in DeviceData(s, IsrHandle).ctxs && DeviceData(s, IsrHandle).ctxs[c].failed
    ensures s.ctl.running.Some? && s.d.log[s.ctl.running.value].ctx == c && Unhandled(s.d.dev, s.ctl.running.value)
  {
    ErrorIsRunning(s.d.dev, s.d.isr.st, StageOf(s.ctl));
  }

  /** The step fails the context because of its own running task: the task has a command that is not acceptable, or
      the interrupt handler found a fault that a command of the task raised. */
  ghost predicate Cause(s: State, l: Label, c: CtxId)
    requires Wf(s)
  {
    && s.ctl.running.Some? && s.d.log[s.ctl.running.value].ctx == c
    && ((l.Worker? && Rejects(s)) || (l == Dev(IsrHandle) && Unhandled(s.d.dev, s.ctl.running.value)))
  }

  lemma WorkerCause(s: State, c: CtxId)
    requires Wf(s) && AtPc(|s.d.log|, s.ctl) && !Stuck(s)
    requires c in s.d.ctxs && !s.d.ctxs[c].failed && c in Work(s).ctxs && Work(s).ctxs[c].failed
    ensures Cause(s, Worker, c)
  {
    WorkFailures(s, c);
  }

  lemma OthersDoNotFail(s: State, l: Label, c: CtxId)
    requires Wf(s) && Enabled(s, l) && c in s.d.ctxs && (l.User? || l.Rel? || (l.Dev? && !l.step.IsrHandle?))
    ensures c in Apply(s, l).d.ctxs && Apply(s, l).d.ctxs[c].failed == s.d.ctxs[c].failed
  {
    match l
    case User(u) => UserKeepsCtx(s.d, u, c);
    case Rel(r) => ReleaseKeepsCtx(s.d, r, c);
    case Dev(step) => assert DeviceData(s, step).ctxs == s.d.ctxs;
  }

  /** No context fails without a cause of its own. */
  lemma FailureHasCause(states: seq<State>, labels: seq<Label>, i: nat, c: CtxId)
    requires IsRun(states, labels) && i < |labels|
    requires c in states[i].d.ctxs && !states[i].d.ctxs[c].failed
    requires c in states[i + 1].d.ctxs && states[i + 1].d.ctxs[c].failed
    ensures Wf(states[i]) && Cause(states[i], labels[i], c)
  {
    var s, l := states[i], labels[i];
    assert StepAt(states, labels, i);
    PrefixReachable(states, labels, i);
    ReachableCore(s);
    if l.Worker? {
      NotStuck(s);
      WorkerCause(s, c);
    } else if l.Dev? && l.step.IsrHandle? {
      HandlerCause(s, c);
    } else {
      OthersDoNotFail(s, l, c);
    }
  }

  // ---------- Waiting ----------

  /** All that was asked for was done: every word of the task was an acceptable command or a no-operation, exactly
      the commands reached the device, in their order, with the slot the output buffer had, followed by the fence;
      the device has consumed them all; and none raised a fault. */
  ghost predicate Clean(d: Data, t: TaskId) {
    && t < |d.log| && d.log[t].buf in d.bufs && t in d.hist.slotOf
    && (exists items :: IsMeaning(items, d.log[t].words, d.bufs[d.log[t].buf].allowed)
                        && FedOf(d.dev.fed, t) == SentAll(EraseNops(items), d.hist.slotOf[t]) + [FenceReq(TASK_FENCE)])
    && (forall p :: d.dev.done <= p < |d.dev.fed| ==> d.dev.fed[p].tag != Some(t))
    && t !in d.hist.dropped && t !in d.hist.rejected && t !in d.hist.raised
  }

  predicate IsMeaning(items: seq<Item>, words: seq<Word>, allowed: Word) {
    AllOk(items, allowed) && Spell(items) == words
  }

  function SentAll(cmds: seq<UserCmd>, slot: int): seq<Request> { Sent(cmds, slot, |cmds|) }

  /** A task that is destroyed leaves nothing in the queue of the device. */
  lemma DestroyedIsConsumed(s: State, t: TaskId, p: nat)
    requires Core(s) && t < |s.d.log| && t in s.d.hist.destroyed && FateOk(s.d.hist, |s.d.log|, s.ctl, t)
    requires s.d.dev.done <= p < |s.d.dev.fed|
    ensures s.d.dev.fed[p].tag != Some(t)
  {
  }

  lemma AcceptedMeaning(words: seq<Word>, allowed: Word)
    requires Parse(words, allowed).verdict.Accepted?
    ensures IsMeaning(Split(words, allowed).0, words, allowed)
    ensures EraseNops(Split(words, allowed).0) == Parse(words, allowed).cmds
  {
    ParseMeaning(words, allowed);
    assert Spell(Split(words, allowed).0) + [] == Spell(Split(words, allowed).0);
  }

  /** What became of a task that is destroyed while its context has not failed. */
  lemma DestroyedStarted(s: State, t: TaskId)
    requires Core(s) && t < |s.d.log| && t in s.d.hist.destroyed && TaskInv(s, t) && !s.d.ctxs[s.d.log[t].ctx].failed
    ensures t in s.d.hist.slotOf && s.d.log[t].parsed.verdict.Accepted?
    ensures t !in s.d.hist.dropped && t !in s.d.hist.rejected && t !in s.d.hist.raised
  {
    NotFeeding(s.d.hist, |s.d.log|, s.ctl, t);
  }

  lemma NotFeeding(h: History, n: nat, ctl: Ctl, t: TaskId)
    requires Controlled(n, ctl) && EndOk(h, n, ctl, t) && t in h.destroyed
    ensures ctl.running == Some(t) ==> ctl.pc.FinFence? || ctl.pc.FinClear?
    ensures !HasTask(StageOf(ctl), t)
  {
  }

  lemma DestroyedScript(s: State, t: TaskId)
    requires Controlled(|s.d.log|, s.ctl) && t < |s.d.log| && t in s.d.hist.destroyed && t in s.d.hist.slotOf
    requires EndOk(s.d.hist, |s.d.log|, s.ctl, t) && ScriptOk(s.d, s.ctl, t)
    ensures FedOf(s.d.dev.fed, t) == SentAll(s.d.log[t].parsed.cmds, s.d.hist.slotOf[t]) + [FenceReq(TASK_FENCE)]
  {
    NotFeeding(s.d.hist, |s.d.log|, s.ctl, t);
  }

  lemma DestroyedClean(s: State, t: TaskId)
    requires Core(s) && t < |s.d.log| && t in s.d.hist.destroyed && TaskInv(s, t) && !s.d.ctxs[s.d.log[t].ctx].failed
    ensures Clean(s.d, t)
  {
    var words, allowed := s.d.log[t].words, s.d.bufs[s.d.log[t].buf].allowed;
    DestroyedStarted(s, t);
    DestroyedScript(s, t);
    AcceptedMeaning(words, allowed);
    forall p | s.d.dev.done <= p < |s.d.dev.fed| ensures s.d.dev.fed[p].tag != Some(t) { DestroyedIsConsumed(s, t, p); }
    var items := Split(words, allowed).0;
    assert IsMeaning(items, words, allowed)
        && FedOf(s.d.dev.fed, t) == SentAll(EraseNops(items), s.d.hist.slotOf[t]) + [FenceReq(TASK_FENCE)];
  }

  /** End to end. A thread sees at most `n` tasks of its context (state `i`), then sees that the context has not
      failed (state `j`), and its wait returns success. Then at most `n` of its submissions were not finished when
      it looked, and every other task it had put on the list by then was executed completely and without fault. */
  lemma WaitMeansDone(states: seq<State>, labels: seq<Label>, i: nat, j: nat, c: CtxId, n: nat)
    requires IsRun(states, labels) && i <= j < |states|
    requires c in states[i].d.ctxs && states[i].d.ctxs[c].taskCount <= n
    requires c in states[j].d.ctxs && !states[j].d.ctxs[c].failed
    ensures |Unfinished(states[i].d, c)| + |states[i].d.ctxs[c].inflight| <= n
    ensures forall t ::
              0 <= t < |states[i].d.log| && states[i].d.log[t].ctx == c && t !in Unfinished(states[i].d, c) ==>
                Clean(states[j].d, t)
  {
    PrefixReachable(states, labels, i);
    TaskCountIsExact(states[i], c);
    PrefixReachable(states, labels, j);
    ReachableCore(states[j]);
    RunGrows(states, labels, i, j);
    forall t | 0 <= t < |states[i].d.log| && states[i].d.log[t].ctx == c && t !in Unfinished(states[i].d, c)
      ensures Clean(states[j].d, t)
    {
      ReachableTask(states[j], t);
      DestroyedClean(states[j], t);
    }
  }

  /** The wait for no tasks at all: everything the context had submitted is done. */
  lemma WaitForAll(states: seq<State>, labels: seq<Label>, i: nat, j: nat, c: CtxId, t: TaskId)
    requires IsRun(states, labels) && i <= j < |states|
    requires c in states[i].d.ctxs && states[i].d.ctxs[c].taskCount <= 0
    requires c in states[j].d.ctxs && !states[j].d.ctxs[c].failed
    requires t < |states[i].d.log| && states[i].d.log[t].ctx == c
    ensures states[i].d.ctxs[c].inflight == multiset{}
    ensures Clean(states[j].d, t)
  {
    WaitMeansDone(states, labels, i, j, c, 0);
    assert |states[i].d.ctxs[c].inflight| == 0;
  }
}
