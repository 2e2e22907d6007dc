/** Steps of the device and of the interrupt handler keep the invariant. */
module DeviceSteps {
  import opened Slots
  import opened Protocol
  import opened Evolution
  import opened Control
  import opened Signals
  import opened Binding
  import opened Counting
  import opened Lifetime
  import opened Aim
  import opened Fates
  import opened Blame
  import opened Script
  import opened Readers
  import opened CutOff
  import opened Invariant

  function Signalled(s: State, step: DeviceStep): State
    requires Wf(s) && DeviceEnabled(s.d, step)
  {
    State(DeviceCtl(s, step), DeviceData(s, step))
  }

  // ---------- What a device step leaves alone ----------

  lemma DeviceKeeps(s: State, step: DeviceStep)
    requires Wf(s) && DeviceEnabled(s.d, step)
    ensures var d, d' := s.d, DeviceData(s, step);
            && d'.log == d.log && d'.bufs == d.bufs && d'.slots == d.slots && d'.dev.fed == d.dev.fed
            && d'.hist == d.hist.(raised := d'.hist.raised, charged := d'.hist.charged)
            && DeviceCtl(s, step) == s.ctl.(fence := DeviceCtl(s, step).fence)
  {
  }

  lemma DeviceKeepsCtx(s: State, step: DeviceStep, c: CtxId)
    requires Wf(s) && DeviceEnabled(s.d, step)
    ensures var d, d' := s.d, DeviceData(s, step);
            && (c in d'.ctxs <==> c in d.ctxs)
            && (c in d.ctxs ==> d'.ctxs[c] == d.ctxs[c] || d'.ctxs[c] == d.ctxs[c].(failed := true))
  {
  }

  // ---------- The parts of the invariant ----------

  /** The fence is seen only where the work thread awaits it. */
  lemma DeviceStage(s: State, step: DeviceStep)
    requires Wf(s) && Controlled(|s.d.log|, s.ctl) && SignalsOk(s.d.dev, s.d.isr, StageOf(s.ctl))
             && TagsMatch(s.d.dev.fed)
    requires DeviceEnabled(s.d, step)
    ensures Controlled(|s.d.log|, DeviceCtl(s, step))
    ensures SignalsOk(DeviceData(s, step).dev, DeviceData(s, step).isr, StageOf(DeviceCtl(s, step)))
  {
    match step
    case Consume(faults) => ConsumeSignals(s.d.dev, s.d.isr, StageOf(s.ctl), faults);
    case Latch => LatchSignals(s.d.dev, s.d.isr, StageOf(s.ctl));
    case SlotError => SlotSignals(s.d.dev, s.d.isr, StageOf(s.ctl));
    case IsrRead => ReadSignals(s.d.dev, StageOf(s.ctl));
    case IsrHandle => HandleStage(s);
  }

  lemma SlotSignals(dev: Device, isr: Isr, stage: Stage)
    requires SignalsOk(dev, isr, stage)
    ensures SignalsOk(dev.(reg := dev.reg.(slot := true)), isr, stage)
  {
  }

  lemma HandleStage(s: State)
    requires Wf(s) && Controlled(|s.d.log|, s.ctl) && SignalsOk(s.d.dev, s.d.isr, StageOf(s.ctl)) && s.d.isr.In?
    ensures Controlled(|s.d.log|, DeviceCtl(s, IsrHandle))
    ensures SignalsOk(DeviceData(s, IsrHandle).dev, Out, StageOf(DeviceCtl(s, IsrHandle)))
    ensures DeviceData(s, IsrHandle).isr == Out
  {
    HandleSignals(s.d.dev, s.d.isr.st, StageOf(s.ctl));
    if s.d.isr.st.fence {
      ReachedControlled(|s.d.log|, s.ctl);
    }
  }

  lemma DeviceCore(s: State, step: DeviceStep)
    requires Core(s) && DeviceEnabled(s.d, step)
    ensures Core(Signalled(s, step))
  {
    DeviceWf(s, step);
    DeviceStage(s, step);
    DeviceKeeps(s, step);
    DeviceBinding(s, step);
    DeviceCounted(s, step);
    DeviceLife(s, step);
    DeviceAim(s, step);
  }

  lemma ConsumeNames(s: State, faults: seq<Fault>)
    requires Wf(s) && HistNames(s.d.hist, |s.d.log|) && FeedOrder(s.d.dev.fed, s.d.hist.slotOf)
    requires DeviceEnabled(s.d, Consume(faults))
    ensures HistNames(DeviceData(s, Consume(faults)).hist, |s.d.log|)
  {
  }

  lemma HandleNames(s: State)
    requires Wf(s) && HistNames(s.d.hist, |s.d.log|) && SignalsOk(s.d.dev, s.d.isr, StageOf(s.ctl)) && s.d.isr.In?
    ensures HistNames(DeviceData(s, IsrHandle).hist, |s.d.log|)
  {
  }

  lemma DeviceTraced(s: State, step: DeviceStep)
    requires Core(s) && Traced(s) && DeviceEnabled(s.d, step)
    ensures Traced(Signalled(s, step))
  {
    DeviceKeeps(s, step);
    HomeKept(s.d, DeviceData(s, step));
    match step
    case Consume(faults) => ConsumeNames(s, faults);
    case IsrHandle => HandleNames(s);
    case _ =>
  }

  lemma DeviceFate(h: History, h': History, n: nat, ctl: Ctl, ctl': Ctl, t: TaskId)
    requires FateOk(h, n, ctl, t) && ctl' == ctl.(fence := ctl'.fence)
    requires h' == h.(raised := h'.raised, charged := h'.charged)
    ensures FateOk(h', n, ctl', t)
  {
  }

  lemma DeviceFault(s: State, step: DeviceStep, t: TaskId)
    requires Core(s) && DeviceEnabled(s.d, step) && Wf(Signalled(s, step)) && t < |s.d.log|
    requires FaultOk(s.d, StageOf(s.ctl), t) && FateOk(s.d.hist, |s.d.log|, s.ctl, t)
    ensures t < |DeviceData(s, step).log| && FaultOk(DeviceData(s, step), StageOf(DeviceCtl(s, step)), t)
  {
    match step
    case Consume(faults) => ConsumeFault(s, faults, t);
    case Latch => LatchFault(s, t);
    case SlotError => assert Unhandled(DeviceData(s, step).dev, t) <==> Unhandled(s.d.dev, t);
    case IsrRead => assert Unhandled(DeviceData(s, step).dev, t) <==> Unhandled(s.d.dev, t);
    case IsrHandle => HandleFault(s, t);
  }

  lemma DeviceTask(s: State, step: DeviceStep, t: TaskId)
    requires Core(s) && DeviceEnabled(s.d, step) && Wf(Signalled(s, step)) && t < |s.d.log| && TaskInv(s, t)
    ensures t < |DeviceData(s, step).log| && TaskInv(Signalled(s, step), t)
  {
    DeviceKeeps(s, step);
    DeviceKeepsCtx(s, step, s.d.log[t].ctx);
    DeviceFate(s.d.hist, DeviceData(s, step).hist, |s.d.log|, s.ctl, DeviceCtl(s, step), t);
    DeviceFault(s, step, t);
    KeptScript(s.d, DeviceData(s, step), s.ctl, DeviceCtl(s, step), t);
  }

  lemma DeviceBufInv(s: State, step: DeviceStep, b: BufId)
    requires Wf(s) && DeviceEnabled(s.d, step) && BufInv(s, b)
    ensures BufInv(Signalled(s, step), b)
  {
    DeviceKeeps(s, step);
    if b in s.d.bufs {
      KeptReader(s.d, DeviceData(s, step), b);
    }
  }

  lemma DeviceGuilt(s: State, step: DeviceStep, c: CtxId)
    requires Core(s) && DeviceEnabled(s.d, step) && Wf(Signalled(s, step)) && GuiltOk(s.d, c)
    ensures GuiltOk(DeviceData(s, step), c)
  {
    if step.IsrHandle? {
      HandleGuilt(s, c);
    } else if c in s.d.ctxs && s.d.ctxs[c].failed {
      var t :| Guilty(s.d, c, t);
      assert Guilty(DeviceData(s, step), c, t);
    }
  }

  lemma DeviceCtxInv(s: State, step: DeviceStep, c: CtxId)
    requires Core(s) && DeviceEnabled(s.d, step) && Wf(Signalled(s, step)) && CtxInv(s, c)
    ensures CtxInv(Signalled(s, step), c)
  {
    DeviceKeeps(s, step);
    DeviceKeepsCtx(s, step, c);
    DeviceGuilt(s, step, c);
    if c in s.d.ctxs {
      KeptCut(s.d, DeviceData(s, step), s.ctl, DeviceCtl(s, step), c);
    }
  }

  lemma DeviceInv(s: State, step: DeviceStep)
    requires Inv(s) && DeviceEnabled(s.d, step)
    ensures Inv(Signalled(s, step))
  {
    DeviceCore(s, step);
    DeviceTraced(s, step);
    DeviceKeeps(s, step);
    forall t | 0 <= t < |s.d.log| ensures TaskInv(Signalled(s, step), t) { DeviceTask(s, step, t); }
    forall b ensures BufInv(Signalled(s, step), b) { DeviceBufInv(s, step, b); }
    forall c ensures CtxInv(Signalled(s, step), c) { DeviceCtxInv(s, step, c); }
  }
}
