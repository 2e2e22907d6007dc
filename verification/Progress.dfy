/** The driver makes progress: without new tasks it takes boundedly many actions, and unless all slots are kept for
    writes it can always finish every task. */
module Progress {
  import opened Protocol
  import opened Evolution
  import opened Control
  import opened Signals
  import opened Lifetime
  import opened Fates
  import opened Readers
  import opened Invariant
  import opened WorkerSteps
  import opened UserSteps
  import opened DeviceSteps
  import opened ReleaseSteps
  import opened Runs

  // ---------- The work that is left ----------

  function Size(log: seq<Task>, t: TaskId): nat { if t < |log| then |log[t].parsed.cmds| else 0 }

  function PendingWork(log: seq<Task>, ids: seq<TaskId>): nat {
    if ids == [] then 0 else 40 + Size(log, ids[0]) + PendingWork(log, ids[1..])
  }

  function HeldWork(log: seq<Task>, pc: Pc): nat {
    match pc
    case Got(t) => 39 + Size(log, t)
    case DropUnbind(_) => 38
    case DropCount(_) => 37
    case _ => 0
  }

  /** A task loses its slot if the task before it on the same buffer is finished after the binding, so that being
      bound is worth less than what the end of the task before is worth. */
  function NextWork(log: seq<Task>, ctl: Ctl, bound: bool): nat {
    if ctl.next.None? || ctl.pc.RunSet? || ctl.pc.RunCmd? || ctl.pc.RunClear? then 0
    else (if bound then 30 else 36) + Size(log, ctl.next.value)
  }

  function RunWork(log: seq<Task>, ctl: Ctl): nat {
    match ctl.pc
    case RunSet => 29 + if ctl.next.Some? then Size(log, ctl.next.value) else 0
    case RunCmd(k) => 27 + if ctl.next.Some? && k <= Size(log, ctl.next.value) then Size(log, ctl.next.value) - k else 0
    case RunClear => 26
    case RunFence => 25
    case FinUnbind(_) => 20
    case FinCount(_) => 8
    case FinFence => 7
    case FinClear => 6
    case _ => if ctl.running.None? then 0 else if ctl.fence.Reached? then 21 else 22
  }

  function Weight(log: seq<Task>, ctl: Ctl, bound: bool): nat {
    PendingWork(log, ctl.pending) + HeldWork(log, ctl.pc) + NextWork(log, ctl, bound) + RunWork(log, ctl)
  }

  predicate NextBound(s: State)
    requires Wf(s)
  {
    s.ctl.next.Some? && Bound(s.d, s.d.log[s.ctl.next.value].buf)
  }

  function Measure(s: State): nat
    requires Wf(s)
  {
    Weight(s.d.log, s.ctl, NextBound(s))
  }

  // ---------- Every step keeps or lowers it ----------

  /** Places where the work thread acts, and does not only look around. */
  predicate Acts(pc: Pc) { !pc.Poll? && !pc.PollNext? && !pc.PollFence? && !pc.PollSlot? && !pc.PollFree? }

  /** The running task has not sent more commands than it has. */
  predicate Ahead(log: seq<Task>, ctl: Ctl) {
    ctl.pc.RunCmd? && ctl.next.Some? ==> ctl.pc.k <= Size(log, ctl.next.value)
  }

  lemma WalkWeight(log: seq<Task>, ctl: Ctl, sight: Sight, bound: bool, bound': bool)
    requires AtPc(|log|, ctl) && Ahead(log, ctl)
    requires ctl.pc.GetNext? ==> ctl.pending != []
    requires ctl.pc.RunTask? ==> bound
    requires ctl.pc.BindSlot? ==> !bound && bound'
    requires bound && !bound' ==> ctl.pc.FinUnbind? || ctl.pc.DropUnbind? || Walk(ctl, sight).next.None?
    requires ctl.pc.RunCmd? ==> (sight.count.Some? <==> ctl.pc.k < Size(log, ctl.next.value))
    ensures Weight(log, Walk(ctl, sight), bound') + (if Acts(ctl.pc) then 1 else 0) <= Weight(log, ctl, bound)
  {
  }

  lemma WorkNextBound(s: State)
    requires Wf(s) && !Stuck(s) && AtPc(|s.d.log|, s.ctl) && Wf(Worked(s))
    ensures s.ctl.pc.BindSlot? ==> NextBound(Worked(s))
    ensures NextBound(s) && !NextBound(Worked(s)) ==>
              s.ctl.pc.FinUnbind? || s.ctl.pc.DropUnbind? || Walk(s.ctl, See(s)).next.None?
  {
    WorkHistoryOk(s);
    if s.ctl.next.Some? {
      WorkBuf(s, s.d.log[s.ctl.next.value].buf);
    }
  }

  lemma WorkMeasure(s: State)
    requires Core(s) && MadeOk(s.d.log, s.ctl)
    ensures !Stuck(s) && Wf(Worked(s))
    ensures Measure(Worked(s)) + (if Acts(s.ctl.pc) then 1 else 0) <= Measure(s)
  {
    NotStuck(s);
    WorkWf(s);
    WalkNames(|s.d.log|, s.ctl, See(s));
    WorkHistoryOk(s);
    WorkNextBound(s);
    WalkWeight(s.d.log, s.ctl, See(s), NextBound(s), NextBound(Worked(s)));
  }

  /** A step of others that neither adds a task nor lets the work thread see a fence. */
  lemma SameMeasure(s: State, s': State)
    requires Wf(s) && Wf(s') && s'.ctl == s.ctl && s'.d.log == s.d.log
    requires s.ctl.next.Some?
             ==> s'.d.bufs[s.d.log[s.ctl.next.value].buf].slot == s.d.bufs[s.d.log[s.ctl.next.value].buf].slot
    ensures Measure(s') == Measure(s)
  {
  }

  lemma UserMeasure(s: State, u: UserStep)
    requires Core(s) && UserEnabled(s.d, u) && !u.Enqueue?
    ensures Wf(Used(s, u)) && Measure(Used(s, u)) == Measure(s)
  {
    UserWf(s, u);
    UserKeeps(s.d, u);
    if s.ctl.next.Some? {
      UserKeepsBuf(s.d, u, s.d.log[s.ctl.next.value].buf);
    }
    SameMeasure(s, Used(s, u));
  }

  lemma ReleaseMeasure(s: State, r: ReleaseStep)
    requires Core(s) && ReleaseEnabled(s.d, r)
    ensures Wf(Freed(s, r)) && Measure(Freed(s, r)) == Measure(s)
  {
    ReleaseWf(s.d, r);
    ReleaseKeeps(s.d, r);
    if s.ctl.next.Some? {
      NextCounts(s);
      KeepsSlot(s, r, s.ctl.next.value);
    }
    SameMeasure(s, Freed(s, r));
  }

  /** A release takes no slot from a task that is counted. */
  lemma KeepsSlot(s: State, r: ReleaseStep, t: TaskId)
    requires Wf(s) && LifeOk(s.d.ctxs, s.d.bufs) && ReleaseEnabled(s.d, r) && t < |s.d.log|
    requires s.d.ctxs[s.d.log[t].ctx].taskCount > 0
    ensures var b := s.d.log[t].buf;
            && b in ReleaseData(s.d, r).bufs
            && ReleaseData(s.d, r).bufs[b].slot == s.d.bufs[b].slot
  {
    var b, c := s.d.log[t].buf, s.d.log[t].ctx;
    assert TaskWf(s.d.log[t], s.d.ctxs, s.d.bufs);
    assert PairOk(s.d.ctxs[c], s.d.bufs[b]) && AloneOk(s.d.ctxs[c]);
  }

  lemma ReachedWeight(log: seq<Task>, ctl: Ctl, bound: bool)
    requires AtPc(|log|, ctl) && AwaitsFence(ctl)
    ensures Weight(log, ctl.(fence := Reached), bound) < Weight(log, ctl, bound)
  {
  }

  /** The interrupt handler sees the fence of the running task. */
  predicate SeesFence(d: Data, step: DeviceStep) { step.IsrHandle? && d.isr.In? && d.isr.st.fence }

  lemma FenceMeasure(s: State)
    requires Core(s) && s.d.isr.In? && s.d.isr.st.fence
    ensures Wf(Signalled(s, IsrHandle)) && Measure(Signalled(s, IsrHandle)) < Measure(s)
  {
    DeviceWf(s, IsrHandle);
    DeviceKeeps(s, IsrHandle);
    HandleSignals(s.d.dev, s.d.isr.st, StageOf(s.ctl));
    ReachedWeight(s.d.log, s.ctl, NextBound(s));
  }

  lemma DeviceMeasure(s: State, step: DeviceStep)
    requires Core(s) && DeviceEnabled(s.d, step)
    ensures Wf(Signalled(s, step))
    ensures Measure(Signalled(s, step)) + (if SeesFence(s.d, step) then 1 else 0) <= Measure(s)
  {
    if SeesFence(s.d, step) {
      FenceMeasure(s);
    } else {
      DeviceWf(s, step);
      DeviceKeeps(s, step);
      SameMeasure(s, Signalled(s, step));
    }
  }

  // ---------- Boundedly many actions ----------

  /** The step is an action of the work thread, or the arrival of a fence. */
  predicate Productive(s: State, l: Label) {
    (l.Worker? && Acts(s.ctl.pc)) || (l.Dev? && SeesFence(s.d, l.step))
  }

  predicate Submits(l: Label) { l.User? && l.u.Enqueue? }

  /** Every step that submits nothing keeps the measure, and every productive one lowers it. */
  lemma MeasureStep(s: State, l: Label, s': State)
    requires Core(s) && MadeOk(s.d.log, s.ctl) && Step(s, l, s') && !Submits(l)
    ensures Wf(s') && Measure(s') + (if Productive(s, l) then 1 else 0) <= Measure(s)
  {
    match l
    case Worker => WorkMeasure(s);
    case User(u) => UserMeasure(s, u);
    case Dev(step) => DeviceMeasure(s, step);
    case Rel(r) => ReleaseMeasure(s, r);
  }

  lemma MeasureAt(states: seq<State>, labels: seq<Label>, k: nat)
    requires IsRun(states, labels) && k < |labels| && !Submits(labels[k])
    ensures Wf(states[k]) && Wf(states[k + 1])
    ensures Measure(states[k + 1]) + (if Productive(states[k], labels[k]) then 1 else 0) <= Measure(states[k])
  {
    RunStep(states, labels, k);
    PrefixReachable(states, labels, k);
    ReachableTraced(states[k]);
    MeasureStep(states[k], labels[k], states[k + 1]);
  }

  /** The number of productive steps among steps `i` to `j` of a run. */
  function Actions(states: seq<State>, labels: seq<Label>, i: nat, j: nat): nat
    requires |states| == |labels| + 1 && i <= j <= |labels|
    decreases j
  {
    if i == j then 0
    else Actions(states, labels, i, j - 1) + if Productive(states[j - 1], labels[j - 1]) then 1 else 0
  }

  /** In any stretch of a run in which no task is put on the list, however long, the work thread and the arriving
      fences take no more actions than the measure at its start. */
  lemma {:induction false} BoundedActions(states: seq<State>, labels: seq<Label>, i: nat, j: nat)
    requires IsRun(states, labels) && i <= j < |states|
    requires forall k :: i <= k < j ==> !Submits(labels[k])
    ensures Wf(states[i]) && Wf(states[j])
    ensures Measure(states[j]) + Actions(states, labels, i, j) <= Measure(states[i])
    decreases j
  {
    if i < j {
      BoundedActions(states, labels, i, j - 1);
      MeasureAt(states, labels, j - 1);
    } else {
      WfAt(states, labels, i);
    }
  }

  lemma WfAt(states: seq<State>, labels: seq<Label>, i: nat)
    requires IsRun(states, labels) && i < |states|
    ensures Wf(states[i])
  {
    RunInv(states, labels, i, states[i]);
  }
}
