/** What the device may still do to the driver: commands it has not consumed, faults it has not latched, interrupt
    bits nobody handled. At every moment all of it belongs to the running task, and nothing is left when the
    fence of that task is seen. */
module Signals {
  import opened Basics
  import opened Protocol
  import opened Control

  /** Tasks have commands and fences, the driver itself binds and unbinds. */
  ghost predicate TagsMatch(fed: seq<Fed>) {
    forall i :: 0 <= i < |fed| ==> (fed[i].tag.Some? <==> fed[i].req.TaskReq? || fed[i].req.FenceReq?)
  }

  /** The stages in the life of a running task, as far as the device is concerned. */
  datatype Stage = Silent | Feeding(task: TaskId) | Awaiting(task: TaskId)

  function StageOf(ctl: Ctl): Stage {
    if !ctl.fence.Waiting? || ctl.pc.RunSet? || ctl.running.None? then Silent
    else if AwaitsFence(ctl) then Awaiting(ctl.running.value)
    else Feeding(ctl.running.value)
  }

  // ---------- What is outstanding ----------

  /** No command of a task is left in the queue of the device. */
  ghost predicate NoneOut(dev: Device) {
    forall i :: dev.done <= i < |dev.fed| ==> dev.fed[i].tag.None?
  }

  ghost predicate OutOnly(dev: Device, t: TaskId) {
    forall i :: dev.done <= i < |dev.fed| && dev.fed[i].tag.Some? ==> dev.fed[i].tag == Some(t)
  }

  ghost predicate NoFenceOut(dev: Device) {
    forall i :: dev.done <= i < |dev.fed| ==> !dev.fed[i].req.FenceReq?
  }

  /** The fence of `t` is in the queue, alone, and behind all commands of tasks. */
  ghost predicate FenceOut(dev: Device, t: TaskId) {
    && dev.awaited == TASK_FENCE
    && dev.done <= dev.fencePos < |dev.fed|
    && dev.fed[dev.fencePos] == Fed(FenceReq(TASK_FENCE), Some(t))
    && forall i :: dev.done <= i < |dev.fed| && i != dev.fencePos && dev.fed[i].tag.Some? ==>
         i < dev.fencePos && !dev.fed[i].req.FenceReq?
  }

  /** Every fault not handled yet was raised by a command of `t`. */
  ghost predicate FaultsOf(dev: Device, t: TaskId) {
    && (forall i :: 0 <= i < |dev.brewing| ==> dev.brewing[i].1 == t)
    && dev.reg.cmdBy <= {t} && dev.reg.memBy <= {t}
  }

  /** What the interrupt handler read is still in the register, and if it read the fence it read all errors. */
  predicate StatusOk(isr: Isr, reg: Reg) {
    isr.In? ==>
      && (isr.st.cmd ==> reg.cmdBy != {})
      && (isr.st.mem ==> reg.memBy != {})
      && (isr.st.fence ==> reg.fence && (reg.cmdBy != {} ==> isr.st.cmd) && (reg.memBy != {} ==> isr.st.mem))
  }

  ghost predicate Nothing(dev: Device, isr: Isr) {
    && NoneOut(dev) && dev.brewing == [] && dev.reg.cmdBy == {} && dev.reg.memBy == {} && !dev.reg.fence
    && (isr.In? ==> !isr.st.fence && !isr.st.cmd && !isr.st.mem)
  }

  ghost predicate SignalsOk(dev: Device, isr: Isr, stage: Stage) {
    && dev.done <= |dev.fed|
    && match stage
       case Silent => Nothing(dev, isr)
       case Feeding(t) =>
         && OutOnly(dev, t) && NoFenceOut(dev) && FaultsOf(dev, t) && !dev.reg.fence && StatusOk(isr, dev.reg)
       case Awaiting(t) =>
         && OutOnly(dev, t) && FaultsOf(dev, t) && StatusOk(isr, dev.reg)
         && (if dev.reg.fence then NoneOut(dev) && dev.brewing == [] else FenceOut(dev, t))
  }

  // ---------- Steps of the work thread ----------

  lemma FeedDriver(dev: Device, isr: Isr, stage: Stage, req: Request)
    requires SignalsOk(dev, isr, stage) && TagsMatch(dev.fed) && (req.BindReq? || req.UnbindReq?)
    ensures SignalsOk(Feed(dev, req, None), isr, stage) && TagsMatch(Feed(dev, req, None).fed)
  {
  }

  lemma FeedTask(dev: Device, isr: Isr, t: TaskId, req: Request)
    requires SignalsOk(dev, isr, Feeding(t)) && TagsMatch(dev.fed) && req.TaskReq?
    ensures SignalsOk(Feed(dev, req, Some(t)), isr, Feeding(t)) && TagsMatch(Feed(dev, req, Some(t)).fed)
  {
  }

  lemma FeedFence(d: Data, t: TaskId)
    requires SignalsOk(d.dev, d.isr, Feeding(t)) && TagsMatch(d.dev.fed)
    ensures SignalsOk(Fenced(d, t).dev, d.isr, Awaiting(t)) && TagsMatch(Fenced(d, t).dev.fed)
  {
  }

  /** The stage changes only where a task is started and where its fence is fed. */
  lemma WalkStage(n: nat, ctl: Ctl, sight: Sight)
    requires Controlled(n, ctl)
    ensures StageOf(Walk(ctl, sight)) ==
              if ctl.pc.RunSet? then Feeding(ctl.next.value)
              else if ctl.pc.RunFence? then Awaiting(ctl.running.value)
              else StageOf(ctl)
    ensures ctl.pc.RunSet? ==> StageOf(ctl) == Silent
    ensures ctl.pc.RunCmd? ==> StageOf(ctl) == Feeding(ctl.next.value)
    ensures ctl.pc.RunFence? ==> StageOf(ctl) == Feeding(ctl.running.value)
  {
  }

  // ---------- Steps of the device and of the interrupt handler ----------

  lemma ConsumeSignals(dev: Device, isr: Isr, stage: Stage, faults: seq<Fault>)
    requires SignalsOk(dev, isr, stage) && TagsMatch(dev.fed) && dev.done < |dev.fed|
    requires faults != [] ==> TaskCommand(dev.fed[dev.done])
    requires dev.fed[dev.done].req.FenceReq? ==> dev.brewing == []
    ensures SignalsOk(Consumed(dev, faults), isr, stage)
  {
  }

  lemma LatchSignals(dev: Device, isr: Isr, stage: Stage)
    requires SignalsOk(dev, isr, stage) && dev.brewing != []
    ensures SignalsOk(Latched(dev), isr, stage)
  {
  }

  lemma ReadSignals(dev: Device, stage: Stage)
    requires SignalsOk(dev, Out, stage)
    ensures SignalsOk(dev, In(ReadStatus(dev.reg)), stage)
  {
  }

  /** The handler leaves nothing behind when it has seen the fence. */
  lemma HandleSignals(dev: Device, st: Status, stage: Stage)
    requires SignalsOk(dev, In(st), stage)
    ensures st.fence || st.cmd || st.mem ==> !stage.Silent?
    ensures st.fence ==> stage.Awaiting?
    ensures SignalsOk(dev.(reg := Cleared(dev.reg, st)), Out, if st.fence then Silent else stage)
  {
  }
}
