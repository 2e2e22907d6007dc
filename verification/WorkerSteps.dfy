/** Steps of the work thread keep the invariant. */
module WorkerSteps {
  import opened Basics
  import opened Slots
  import opened Protocol
  import opened Evolution
  import opened Control
  import opened Signals
  import opened Binding
  import opened Counting
  import opened Lifetime
  import opened Aim
  import opened Fates
  import opened Blame
  import opened Script
  import opened Readers
  import opened CutOff
  import opened Invariant

  function Worked(s: State): State
    requires Wf(s) && !Stuck(s)
  {
    State(Walk(s.ctl, See(s)), Work(s))
  }

  // ---------- What the device may still do ----------

  lemma ReleasedSignals(d: Data, t: TaskId, stage: Stage)
    requires WfData(d) && t < |d.log| && SignalsOk(d.dev, d.isr, stage) && TagsMatch(d.dev.fed)
    ensures SignalsOk(Released(d, t).dev, Released(d, t).isr, stage) && TagsMatch(Released(d, t).dev.fed)
  {
    FeedDriver(d.dev, d.isr, stage, UnbindReq(d.bufs[d.log[t].buf].slot));
  }

  lemma BoundToSignals(d: Data, b: BufId, k: Slot, stage: Stage)
    requires b in d.bufs && |d.slots.table| == NUM_SLOTS && SignalsOk(d.dev, d.isr, stage) && TagsMatch(d.dev.fed)
    ensures SignalsOk(BoundTo(d, b, k).dev, d.isr, stage) && TagsMatch(BoundTo(d, b, k).dev.fed)
  {
    FeedDriver(d.dev, d.isr, stage, BindReq(k, d.bufs[b].seed, d.bufs[b].allowed, d.bufs[b].table, b));
  }

  lemma StartedSignals(dev: Device, isr: Isr, t: TaskId)
    requires SignalsOk(dev, isr, Silent) && TagsMatch(dev.fed)
    ensures SignalsOk(dev, isr, Feeding(t))
  {
  }

  /** The stage after a deed. */
  predicate StageAfter(x: Deed, stage: Stage, stage': Stage) {
    match x
    case DoStart(t) => stage == Silent && stage' == Feeding(t)
    case DoSend(t, _) => stage == Feeding(t) && stage' == Feeding(t)
    case DoFence(t) => stage == Feeding(t) && stage' == Awaiting(t)
    case _ => stage' == stage
  }

  lemma DeedSignals(d: Data, x: Deed, stage: Stage, stage': Stage)
    requires Can(d, x) && SignalsOk(d.dev, d.isr, stage) && TagsMatch(d.dev.fed) && StageAfter(x, stage, stage')
    ensures SignalsOk(Effect(d, x).dev, Effect(d, x).isr, stage') && TagsMatch(Effect(d, x).dev.fed)
  {
    match x
    case DoRelease(t) => ReleasedSignals(d, t, stage);
    case DoBind(b, k) => BoundToSignals(d, b, k, stage);
    case DoStart(t) => StartedSignals(d.dev, d.isr, t);
    case DoSend(t, k) => FeedTask(d.dev, d.isr, t, TaskReq(d.log[t].parsed.cmds[k], d.bufs[d.log[t].buf].slot));
    case DoFence(t) => FeedFence(d, t);
    case _ => assert Effect(d, x).dev == d.dev && Effect(d, x).isr == d.isr;
  }

  lemma WorkStage(s: State)
    requires Wf(s) && !Stuck(s) && Controlled(|s.d.log|, s.ctl)
    ensures StageAfter(DeedOf(s), StageOf(s.ctl), StageOf(Walk(s.ctl, See(s))))
  {
    WalkStage(|s.d.log|, s.ctl, See(s));
  }

  lemma WorkSignals(s: State)
    requires Wf(s) && !Stuck(s) && Controlled(|s.d.log|, s.ctl)
    requires SignalsOk(s.d.dev, s.d.isr, StageOf(s.ctl)) && TagsMatch(s.d.dev.fed)
    ensures SignalsOk(Work(s).dev, Work(s).isr, StageOf(Walk(s.ctl, See(s)))) && TagsMatch(Work(s).dev.fed)
  {
    WorkStage(s);
    DeedSignals(s.d, DeedOf(s), StageOf(s.ctl), StageOf(Walk(s.ctl, See(s))));
  }

  // ---------- The parts of the invariant ----------

  lemma WorkCore(s: State)
    requires Core(s) && !Stuck(s)
    ensures Core(Worked(s))
  {
    WorkWf(s);
    WalkNames(|s.d.log|, s.ctl, See(s));
    WalkControlled(|s.d.log|, s.ctl, See(s));
    WorkSignals(s);
    WorkBinding(s);
    WorkCounted(s);
    CountedThere(s);
    WorkLife(s);
    WorkAim(s);
  }

  lemma WorkNames(s: State)
    requires Wf(s) && !Stuck(s) && HistNames(s.d.hist, |s.d.log|)
    ensures HistNames(Work(s).hist, |s.d.log|)
  {
    WorkHistoryOk(s);
    WorkRecords(s);
  }

  lemma WorkHomes(s: State)
    requires Wf(s) && !Stuck(s) && BindingOk(s.d) && AllAtHome(s.d)
    ensures AllAtHome(Work(s))
  {
    WorkGrows(s);
    forall b | b in s.d.bufs ensures b in Work(s).bufs && Work(s).bufs[b].table == s.d.bufs[b].table {
      assert BufGrows(s.d.bufs[b], Work(s).bufs[b]);
    }
    WorkHome(s);
  }

  lemma WorkTraced(s: State)
    requires Core(s) && Traced(s) && !Stuck(s) && Wf(Worked(s))
    requires forall t :: 0 <= t < |s.d.log| ==> StartOk(s.d.hist, |s.d.log|, s.ctl, t)
    ensures Traced(Worked(s))
  {
    WorkNames(s);
    assert s.ctl.running.Some? ==> StartOk(s.d.hist, |s.d.log|, s.ctl, s.ctl.running.value);
    WorkOrder(s);
    WorkHomes(s);
    WorkMade(s);
    WorkHistoryOk(s);
  }

  lemma WorkFate(s: State, t: TaskId)
    requires Wf(s) && !Stuck(s) && Controlled(|s.d.log|, s.ctl) && FateOk(s.d.hist, |s.d.log|, s.ctl, t)
    ensures FateOk(Work(s).hist, |s.d.log|, Walk(s.ctl, See(s)), t)
  {
    WorkHistoryOk(s);
    var slot := if s.ctl.next.Some? then s.d.bufs[s.d.log[s.ctl.next.value].buf].slot else 0;
    WalkEnd(s.d.hist, Work(s).hist, |s.d.log|, s.ctl, See(s), slot, t);
    WalkStart(s.d.hist, Work(s).hist, |s.d.log|, s.ctl, See(s), slot, t);
  }

  lemma WorkFaults(s: State, t: TaskId)
    requires Wf(s) && !Stuck(s) && WfData(Work(s)) && t < |s.d.log| && Controlled(|s.d.log|, s.ctl)
    requires FaultOk(s.d, StageOf(s.ctl), t)
    ensures Work(s).log == s.d.log
    ensures FaultOk(Work(s), StageOf(Walk(s.ctl, See(s))), t)
  {
    WalkStage(|s.d.log|, s.ctl, See(s));
    WorkFault(s, t, StageOf(s.ctl), StageOf(Walk(s.ctl, See(s))));
  }

  lemma WorkTask(s: State, t: TaskId)
    requires Core(s) && !Stuck(s) && Wf(Worked(s)) && t < |s.d.log| && TaskInv(s, t)
    ensures Work(s).log == s.d.log
    ensures TaskInv(Worked(s), t)
  {
    WorkFate(s, t);
    WorkParse(s, t);
    WorkFaults(s, t);
    WorkScript(s, t);
    WorkRecord(s, t);
    WorkTranslated(s, t);
  }

  lemma WorkTranslated(s: State, t: TaskId)
    requires Wf(s) && !Stuck(s) && t < |s.d.log| && Translated(s.d.log[t], s.d.bufs[s.d.log[t].buf].allowed)
    ensures Work(s).log == s.d.log && s.d.log[t].buf in Work(s).bufs
    ensures Translated(s.d.log[t], Work(s).bufs[s.d.log[t].buf].allowed)
  {
    WorkHistoryOk(s);
    WorkGrows(s);
    assert BufGrows(s.d.bufs[s.d.log[t].buf], Work(s).bufs[s.d.log[t].buf]);
  }

  lemma WorkBufInv(s: State, b: BufId)
    requires Inv(s) && !Stuck(s) && Core(Worked(s))
    ensures BufInv(Worked(s), b)
  {
    WorkGrows(s);
    assert BufInv(s, b);
    if Retires(s.ctl.pc).Some? {
      assert TaskInv(s, s.ctl.pc.task);
    }
    WorkReader(s, b);
    if s.ctl.pc.DropUnbind? {
      assert TaskInv(s, s.ctl.pc.task);
    }
    WorkKeeper(s, b);
  }

  lemma WorkCtxInv(s: State, c: CtxId)
    requires Core(s) && !Stuck(s) && Core(Worked(s)) && CtxInv(s, c)
    ensures CtxInv(Worked(s), c)
  {
    WorkCounts(s);
    WorkGuilt(s, c);
    WorkCut(s, c);
  }

  lemma WorkInv(s: State)
    requires Inv(s)
    ensures !Stuck(s) && Inv(Worked(s))
  {
    NotStuck(s);
    WorkCore(s);
    forall t | 0 <= t < |s.d.log| ensures StartOk(s.d.hist, |s.d.log|, s.ctl, t) { assert TaskInv(s, t); }
    WorkTraced(s);
    WorkHistoryOk(s);
    forall t | 0 <= t < |s.d.log| ensures TaskInv(Worked(s), t) { WorkTask(s, t); }
    forall b ensures BufInv(Worked(s), b) { WorkBufInv(s, b); }
    forall c ensures CtxInv(Worked(s), c) { WorkCtxInv(s, c); }
  }
}
