/** The work thread and the device can finish everything, unless they come to want a slot. */
module Completion {
  import opened Protocol
  import opened Evolution
  import opened Control
  import opened Signals
  import opened Counting
  import opened Fates
  import opened Readers
  import opened Invariant
  import opened WorkerSteps
  import opened DeviceSteps
  import opened Runs
  import opened Progress

  /** The work thread has a task to run and no other in the way, but no slot for it. */
  predicate Starving(s: State)
    requires Wf(s)
  {
    s.ctl.fence.Idle? && s.ctl.next.Some? && !NextBound(s) && s.d.slots.free <= 0
  }

  // ---------- A schedule that finishes everything ----------

  ghost predicate AllDone(s: State) { forall t :: 0 <= t < |s.d.log| ==> t in s.d.hist.destroyed }

  /** Commands the device has to consume and faults it has to latch. */
  function DeviceWork(dev: Device): int { 2 * (|dev.fed| - dev.done) + |dev.brewing| }

  function HandlerWork(isr: Isr): nat { if isr.Out? then 2 else if isr.st.fence then 1 else 3 }

  /** How far the work thread is from an action. */
  function PollWork(ctl: Ctl): nat {
    match ctl.pc
    case Poll => if ctl.fence.Reached? then 1 else 5
    case PollNext => 4
    case PollFence => 3
    case PollSlot => 2
    case PollFree => 1
    case _ => 0
  }

  /** Progress: the measure falls, or it stays and the device or the handler has less to do, or the work thread is
      closer to an action. */
  predicate Better(s: State, s': State)
    requires Wf(s) && Wf(s')
  {
    || Measure(s') < Measure(s)
    || (Measure(s') == Measure(s)
        && (|| DeviceWork(s'.d.dev) < DeviceWork(s.d.dev)
            || (DeviceWork(s'.d.dev) == DeviceWork(s.d.dev)
                && (|| HandlerWork(s'.d.isr) < HandlerWork(s.d.isr)
                    || (HandlerWork(s'.d.isr) == HandlerWork(s.d.isr) && PollWork(s'.ctl) < PollWork(s.ctl))))))
  }

  /** The next step of the schedule: the interrupt handler first, then the device while a fence is awaited, and the
      work thread otherwise. */
  function Choice(s: State): (l: Label)
    ensures l.Worker? || l.Dev?
  {
    if s.d.isr.In? then Dev(IsrHandle)
    else if StageOf(s.ctl).Awaiting? then
      if s.d.dev.reg.fence then Dev(IsrRead) else if s.d.dev.brewing != [] then Dev(Latch) else Dev(Consume([]))
    else Worker
  }

  lemma HandlerStep(s: State)
    requires Core(s) && s.d.isr.In?
    ensures Wf(Signalled(s, IsrHandle)) && Better(s, Signalled(s, IsrHandle))
  {
    if s.d.isr.st.fence {
      FenceMeasure(s);
    } else {
      DeviceWf(s, IsrHandle);
      DeviceKeeps(s, IsrHandle);
      SameMeasure(s, Signalled(s, IsrHandle));
    }
  }

  lemma QueueStep(s: State, step: DeviceStep)
    requires Core(s) && s.d.isr.Out? && StageOf(s.ctl).Awaiting? && Choice(s) == Dev(step)
    ensures DeviceEnabled(s.d, step) && Wf(Signalled(s, step)) && Better(s, Signalled(s, step))
  {
    assert DeviceEnabled(s.d, step);
    DeviceWf(s, step);
    DeviceKeeps(s, step);
    SameMeasure(s, Signalled(s, step));
  }

  /** Nothing to do: the list is empty and no task is with the work thread. */
  lemma NothingToDo(s: State)
    requires Core(s) && s.ctl.pending == []
    requires LiveRunning(s.ctl).None? && Held(s.ctl).None? && Prefetched(s.ctl).None?
    requires forall t :: 0 <= t < |s.d.log| ==> EndOk(s.d.hist, |s.d.log|, s.ctl, t)
    ensures AllDone(s)
  {
    forall t | 0 <= t < |s.d.log| ensures t in s.d.hist.destroyed {
      assert EndOk(s.d.hist, |s.d.log|, s.ctl, t);
    }
  }

  lemma PollCloser(n: nat, ctl: Ctl, sight: Sight)
    requires AtPc(n, ctl) && !Acts(ctl.pc) && !ctl.fence.Waiting?
    requires ctl.pc.PollNext? && ctl.fence.Idle? ==> ctl.next.Some? || ctl.pending != []
    requires ctl.pc.PollFree? ==> sight.free
    ensures PollWork(Walk(ctl, sight)) < PollWork(ctl)
  {
  }

  lemma NotWaiting(n: nat, ctl: Ctl)
    requires AtPc(n, ctl) && !Acts(ctl.pc) && !StageOf(ctl).Awaiting?
    ensures !ctl.fence.Waiting?
  {
  }

  lemma PollStep(s: State)
    requires Core(s) && MadeOk(s.d.log, s.ctl) && s.d.isr.Out? && !StageOf(s.ctl).Awaiting? && !Acts(s.ctl.pc)
    requires !Starving(s) && (s.ctl.pc.PollNext? && s.ctl.fence.Idle? ==> s.ctl.next.Some? || s.ctl.pending != [])
    ensures !Stuck(s) && Wf(Worked(s)) && Better(s, Worked(s))
  {
    WorkMeasure(s);
    assert Work(s) == s.d;
    NotWaiting(|s.d.log|, s.ctl);
    PollCloser(|s.d.log|, s.ctl, See(s));
  }

  lemma ActionStep(s: State)
    requires Core(s) && MadeOk(s.d.log, s.ctl) && Acts(s.ctl.pc)
    ensures !Stuck(s) && Wf(Worked(s)) && Better(s, Worked(s))
  {
    WorkMeasure(s);
  }

  lemma WorkerStep(s: State)
    requires Inv(s) && s.d.isr.Out? && !StageOf(s.ctl).Awaiting? && !AllDone(s) && !Starving(s)
    ensures !Stuck(s) && Wf(Worked(s)) && Better(s, Worked(s))
  {
    if Acts(s.ctl.pc) {
      ActionStep(s);
    } else {
      if s.ctl.pc.PollNext? && s.ctl.fence.Idle? && s.ctl.next.None? && s.ctl.pending == [] {
        forall t | 0 <= t < |s.d.log| ensures EndOk(s.d.hist, |s.d.log|, s.ctl, t) { assert TaskInv(s, t); }
        NothingToDo(s);
        assert false;
      }
      PollStep(s);
    }
  }

  /** Unless all tasks are done or the work thread starves, the chosen step is possible and makes progress. */
  lemma ChoiceIsBetter(s: State)
    requires Inv(s) && !AllDone(s) && !Starving(s)
    ensures Enabled(s, Choice(s)) && Wf(Apply(s, Choice(s))) && Better(s, Apply(s, Choice(s)))
  {
    if s.d.isr.In? {
      HandlerStep(s);
    } else if StageOf(s.ctl).Awaiting? {
      QueueStep(s, Choice(s).step);
    } else {
      WorkerStep(s);
    }
  }

  lemma ChoiceKeepsLog(s: State)
    requires Core(s) && Enabled(s, Choice(s))
    ensures Apply(s, Choice(s)).d.log == s.d.log
  {
    if Choice(s).Dev? {
      DeviceKeeps(s, Choice(s).step);
    } else {
      NotStuck(s);
      WorkHistoryOk(s);
    }
  }

  /** `s'` is reached from `s` by steps of the work thread, the device and the interrupt handler alone. */
  ghost predicate Machine(s: State, labels: seq<Label>, s': State)
    decreases |labels|
  {
    if labels == [] then
      s' == s
    else
      && Wf(s) && (labels[0].Worker? || labels[0].Dev?) && Enabled(s, labels[0])
      && Machine(Apply(s, labels[0]), labels[1..], s')
  }

  lemma MachineCons(s: State, l: Label, s1: State, labels: seq<Label>, s': State)
    requires Step(s, l, s1) && (l.Worker? || l.Dev?) && Machine(s1, labels, s')
    ensures Machine(s, [l] + labels, s')
  {
    assert ([l] + labels)[1..] == labels;
  }

  lemma BetterStep(s: State) returns (l: Label, s1: State)
    requires Inv(s) && !AllDone(s) && !Starving(s)
    ensures Step(s, l, s1) && (l.Worker? || l.Dev?) && Inv(s1) && Better(s, s1) && s1.d.log == s.d.log
  {
    ChoiceIsBetter(s);
    StepInv(s, Choice(s));
    ChoiceKeepsLog(s);
    l := Choice(s);
    s1 := Apply(s, l);
  }

  lemma {:induction false} FinishAll(s: State) returns (labels: seq<Label>, s': State)
    requires Inv(s)
    ensures Machine(s, labels, s') && Inv(s') && s'.d.log == s.d.log && (AllDone(s') || Starving(s'))
    decreases Measure(s), DeviceWork(s.d.dev), HandlerWork(s.d.isr), PollWork(s.ctl)
  {
    if AllDone(s) || Starving(s) {
      labels, s' := [], s;
    } else {
      var l, s1 := BetterStep(s);
      labels, s' := FinishAll(s1);
      MachineCons(s, l, s1, labels, s');
      labels := [l] + labels;
    }
  }

  /** From every reachable state the work thread and the device alone can bring all tasks to their end, unless they
      come to a state in which the work thread starves. */
  lemma EverythingCanFinish(s: State)
    requires Reachable(s)
    ensures exists labels, s' ::
              Machine(s, labels, s') && Wf(s') && s'.d.log == s.d.log && (AllDone(s') || Starving(s'))
  {
    ReachableInv(s);
    var labels, s' := FinishAll(s);
  }

  lemma ReachableStep(s: State, l: Label)
    requires Reachable(s) && Wf(s) && Enabled(s, l)
    ensures Reachable(Apply(s, l))
  {
    var states, labels :| IsRun(states, labels) && states[|labels|] == s;
    var ss, ls := states + [Apply(s, l)], labels + [l];
    assert IsRun(ss, ls) by {
      forall k | 0 <= k < |ls| ensures StepAt(ss, ls, k) {
        if k < |labels| {
          assert StepAt(states, labels, k);
        }
      }
    }
    assert ss[|ls|] == Apply(s, l);
  }

  lemma {:induction false} MachineReaches(s: State, labels: seq<Label>, s': State)
    requires Reachable(s) && Machine(s, labels, s')
    ensures Reachable(s')
    decreases |labels|
  {
    if labels != [] {
      ReachableStep(s, labels[0]);
      MachineReaches(Apply(s, labels[0]), labels[1..], s');
    }
  }
}
