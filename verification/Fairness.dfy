/** Every fair run makes an end: if the work thread, the device and the interrupt handler each get their turn again and
    again, then all tasks that were submitted are finished, unless the task that is due is blocked. */
module Fairness {
  import opened Protocol
  import opened Control
  import opened Fates
  import opened Conservation
  import opened Invariant
  import opened UserSteps
  import opened DeviceSteps
  import opened ReleaseSteps
  import opened Runs
  import opened Progress
  import opened Completion
  import opened Blocking

  // ---------- Sweeps ----------

  /** The number of steps of the work thread among steps `i` to `j`. */
  function Turns(labels: seq<Label>, i: nat, j: nat): nat
    requires i <= j <= |labels|
    decreases j
  {
    if i == j then 0 else Turns(labels, i, j - 1) + if labels[j - 1].Worker? then 1 else 0
  }

  /** By `m` the device has consumed what it had been fed by `i`, and after that the handler runs: it reads the register
      in step `p` and comes to its end in step `q`. */
  predicate Served(states: seq<State>, labels: seq<Label>, i: nat, m: nat, p: nat, q: nat)
    requires |states| == |labels| + 1
  {
    && i <= m <= p < q < |labels| && |states[i].d.dev.fed| <= states[m].d.dev.done
    && labels[p] == Dev(IsrRead) && labels[q] == Dev(IsrHandle)
  }

  /** Everybody gets a turn in steps `i` to `j`: six steps for the work thread, which is a look at all it looks at and
      one step more, and what `Served` asks for. Whatever else happens in between does not matter. */
  ghost predicate Sweep(states: seq<State>, labels: seq<Label>, i: nat, j: nat)
    requires |states| == |labels| + 1
  {
    && i <= j <= |labels| && Turns(labels, i, j) >= 6
    && exists m: nat, p: nat, q: nat :: Served(states, labels, i, m, p, q) && q < j
  }

  // ---------- Steps that bring nothing ----------

  /** The step submits nothing and is not productive. */
  predicate Idles(s: State, l: Label) { !Submits(l) && !Productive(s, l) }

  ghost predicate AllIdle(states: seq<State>, labels: seq<Label>, i: nat, j: nat)
    requires |states| == |labels| + 1 && j <= |labels|
  {
    forall k :: i <= k < j ==> Idles(states[k], labels[k])
  }

  lemma LooksOnly(s: State)
    requires Wf(s) && !Stuck(s) && !Acts(s.ctl.pc)
    ensures Work(s) == s.d && Walk(s.ctl, See(s)) == s.ctl.(pc := Walk(s.ctl, See(s)).pc)
  {
  }

  /** Such a step changes at most the place of the work thread, and that only in a step of the work thread. */
  lemma IdleStep(s: State, l: Label, s': State)
    requires Core(s) && Step(s, l, s') && Idles(s, l)
    ensures s'.ctl == s.ctl.(pc := s'.ctl.pc) && (!l.Worker? ==> s'.ctl == s.ctl)
    ensures l.Worker? ==> !Stuck(s) && !Acts(s.ctl.pc) && s'.ctl == Walk(s.ctl, See(s))
    ensures s'.d.log == s.d.log && s'.d.dev.fencePos == s.d.dev.fencePos
  {
    match l
    case Worker =>
      NotStuck(s);
      LooksOnly(s);
    case User(u) => UserKeeps(s.d, u);
    case Dev(step) => DeviceKeeps(s, step);
    case Rel(r) => ReleaseKeeps(s.d, r);
  }

  /** The bit of the fence stays until the handler sees it. */
  lemma IdleBit(s: State, l: Label, s': State)
    requires Core(s) && Step(s, l, s') && Idles(s, l) && s.d.dev.reg.fence
    ensures s'.d.dev.reg.fence
  {
    match l
    case Worker =>
      NotStuck(s);
      LooksOnly(s);
    case User(u) => UserKeeps(s.d, u);
    case Dev(step) => KeepsBit(s, step);
    case Rel(r) => ReleaseKeeps(s.d, r);
  }

  lemma KeepsBit(s: State, step: DeviceStep)
    requires Wf(s) && DeviceEnabled(s.d, step) && s.d.dev.reg.fence && !SeesFence(s.d, step)
    ensures DeviceData(s, step).dev.reg.fence
  {
  }

  /** A handler that has read the fence bit stays where it is. */
  lemma IdleHandler(s: State, l: Label, s': State)
    requires Core(s) && Step(s, l, s') && Idles(s, l) && s.d.isr.In? && s.d.isr.st.fence
    ensures s'.d.isr == s.d.isr
  {
    match l
    case Worker =>
      NotStuck(s);
      LooksOnly(s);
    case User(u) => UserKeeps(s.d, u);
    case Dev(step) =>
    case Rel(r) => ReleaseKeeps(s.d, r);
  }

  // ---------- A stretch of such steps ----------

  lemma IdleAt(states: seq<State>, labels: seq<Label>, k: nat)
    requires IsRun(states, labels) && k < |labels| && Idles(states[k], labels[k])
    ensures var s, s' := states[k], states[k + 1];
            && s'.ctl == s.ctl.(pc := s'.ctl.pc) && (!labels[k].Worker? ==> s'.ctl == s.ctl)
            && (labels[k].Worker? ==> !Acts(s.ctl.pc))
  {
    RunStep(states, labels, k);
    IdleStep(states[k], labels[k], states[k + 1]);
  }

  lemma BitAt(states: seq<State>, labels: seq<Label>, k: nat)
    requires IsRun(states, labels) && k < |labels| && Idles(states[k], labels[k]) && states[k].d.dev.reg.fence
    ensures states[k + 1].d.dev.reg.fence
  {
    RunStep(states, labels, k);
    IdleBit(states[k], labels[k], states[k + 1]);
  }

  lemma HandlerAt(states: seq<State>, labels: seq<Label>, k: nat)
    requires IsRun(states, labels) && k < |labels| && Idles(states[k], labels[k])
    requires states[k].d.isr.In? && states[k].d.isr.st.fence
    ensures states[k + 1].d.isr == states[k].d.isr && labels[k] != Dev(IsrHandle)
  {
    RunStep(states, labels, k);
    IdleHandler(states[k], labels[k], states[k + 1]);
  }

  lemma AwaitsAt(states: seq<State>, labels: seq<Label>, k: nat)
    requires IsRun(states, labels) && k < |labels| && Idles(states[k], labels[k]) && AwaitsFence(states[k].ctl)
    ensures AwaitsFence(states[k + 1].ctl) && states[k + 1].d.dev.fencePos == states[k].d.dev.fencePos
  {
    RunStep(states, labels, k);
    IdleStep(states[k], labels[k], states[k + 1]);
  }

  lemma ReadAt(states: seq<State>, labels: seq<Label>, k: nat)
    requires IsRun(states, labels) && k < |labels| && labels[k] == Dev(IsrRead) && states[k].d.dev.reg.fence
    ensures states[k + 1].d.isr.In? && states[k + 1].d.isr.st.fence
  {
    RunStep(states, labels, k);
  }

  /** A work thread that is about to act and does not, takes no step at all. */
  lemma {:induction false} NoTurn(states: seq<State>, labels: seq<Label>, i: nat, k: nat)
    requires IsRun(states, labels) && i <= k <= |labels| && AllIdle(states, labels, i, k) && Acts(states[i].ctl.pc)
    ensures Turns(labels, i, k) == 0 && states[k].ctl == states[i].ctl
    decreases k
  {
    if i < k {
      NoTurn(states, labels, i, k - 1);
      IdleAt(states, labels, k - 1);
    }
  }

  // ---------- The work thread comes to act ----------

  /** Nothing is left to do, or the task that is due is blocked. */
  ghost predicate Settled(s: State) { Wf(s) && (AllDone(s) || Blocked(s)) }

  ghost predicate Unsettled(states: seq<State>, i: nat, j: nat)
    requires j < |states|
  {
    forall k :: i <= k <= j ==> !Settled(states[k])
  }

  lemma StarvingIsSettled(s: State)
    requires Core(s) && Starving(s)
    ensures Settled(s)
  {
    StarvingIsBlocked(s);
  }

  /** Unless the fence is awaited, each look brings the work thread closer to an action. */
  lemma LooksCloser(s: State)
    requires Inv(s) && !Settled(s) && !Stuck(s) && !Acts(s.ctl.pc) && !s.ctl.fence.Waiting?
    ensures PollWork(Walk(s.ctl, See(s))) < PollWork(s.ctl)
  {
    if Starving(s) {
      StarvingIsSettled(s);
      assert false;
    }
    if s.ctl.pc.PollNext? && s.ctl.fence.Idle? && s.ctl.next.None? && s.ctl.pending == [] {
      forall t | 0 <= t < |s.d.log| ensures EndOk(s.d.hist, |s.d.log|, s.ctl, t) { assert TaskInv(s, t); }
      NothingToDo(s);
      assert false;
    }
    PollCloser(|s.d.log|, s.ctl, See(s));
  }

  lemma CloserAt(states: seq<State>, labels: seq<Label>, k: nat)
    requires IsRun(states, labels) && k < |labels| && Idles(states[k], labels[k]) && labels[k].Worker?
    requires !Settled(states[k]) && !states[k].ctl.fence.Waiting?
    ensures PollWork(states[k + 1].ctl) < PollWork(states[k].ctl)
  {
    RunStep(states, labels, k);
    IdleStep(states[k], labels[k], states[k + 1]);
    RunInv(states, labels, k, states[k]);
    LooksCloser(states[k]);
  }

  lemma {:induction false} LooksRunOut(states: seq<State>, labels: seq<Label>, i: nat, k: nat)
    requires IsRun(states, labels) && i <= k <= |labels| && AllIdle(states, labels, i, k) && Unsettled(states, i, k)
    requires !states[i].ctl.fence.Waiting?
    ensures states[k].ctl.fence == states[i].ctl.fence
    ensures Turns(labels, i, k) + PollWork(states[k].ctl) <= PollWork(states[i].ctl)
    decreases k
  {
    if i < k {
      LooksRunOut(states, labels, i, k - 1);
      IdleAt(states, labels, k - 1);
      if labels[k - 1].Worker? {
        CloserAt(states, labels, k - 1);
      }
    }
  }

  // ---------- The fence comes to be seen ----------

  lemma {:induction false} StillAwaits(states: seq<State>, labels: seq<Label>, i: nat, k: nat)
    requires IsRun(states, labels) && i <= k <= |labels| && AllIdle(states, labels, i, k)
    requires AwaitsFence(states[i].ctl)
    ensures AwaitsFence(states[k].ctl) && states[k].d.dev.fencePos == states[i].d.dev.fencePos
    decreases k
  {
    if i < k {
      StillAwaits(states, labels, i, k - 1);
      AwaitsAt(states, labels, k - 1);
    }
  }

  lemma {:induction false} BitStays(states: seq<State>, labels: seq<Label>, i: nat, k: nat)
    requires IsRun(states, labels) && i <= k <= |labels| && AllIdle(states, labels, i, k)
    requires states[i].d.dev.reg.fence
    ensures states[k].d.dev.reg.fence
    decreases k
  {
    if i < k {
      BitStays(states, labels, i, k - 1);
      BitAt(states, labels, k - 1);
    }
  }

  lemma {:induction false} HandlerStays(states: seq<State>, labels: seq<Label>, i: nat, k: nat)
    requires IsRun(states, labels) && i <= k <= |labels| && AllIdle(states, labels, i, k)
    requires states[i].d.isr.In? && states[i].d.isr.st.fence
    ensures states[k].d.isr == states[i].d.isr
    decreases k
  {
    if i < k {
      HandlerStays(states, labels, i, k - 1);
      HandlerAt(states, labels, k - 1);
    }
  }

  /** While a fence is awaited, its bit is set or it is still to be consumed. */
  lemma FenceIsOut(s: State)
    requires Core(s) && AwaitsFence(s.ctl)
    ensures s.d.dev.reg.fence || s.d.dev.done <= s.d.dev.fencePos < |s.d.dev.fed|
  {
    assert s.ctl.running.Some?;
  }

  /** Once the device has consumed what it had been fed, the bit of the fence is set. */
  lemma BitIsSet(states: seq<State>, labels: seq<Label>, i: nat, m: nat)
    requires IsRun(states, labels) && i <= m <= |labels| && AllIdle(states, labels, i, m)
    requires AwaitsFence(states[i].ctl) && |states[i].d.dev.fed| <= states[m].d.dev.done
    ensures states[m].d.dev.reg.fence
  {
    StillAwaits(states, labels, i, m);
    CoreAt(states, labels, i);
    FenceIsOut(states[i]);
    if states[i].d.dev.reg.fence {
      BitStays(states, labels, i, m);
    } else {
      CoreAt(states, labels, m);
      FenceIsOut(states[m]);
    }
  }

  lemma CoreAt(states: seq<State>, labels: seq<Label>, i: nat)
    requires IsRun(states, labels) && i < |states|
    ensures Core(states[i])
  {
    RunInv(states, labels, i, states[i]);
  }

  /** The handler cannot run without a fence being seen. */
  lemma FenceIsSeen(states: seq<State>, labels: seq<Label>, i: nat, m: nat, p: nat, q: nat)
    requires IsRun(states, labels) && Served(states, labels, i, m, p, q) && AwaitsFence(states[i].ctl)
    ensures !AllIdle(states, labels, i, q + 1)
  {
    if AllIdle(states, labels, i, q + 1) {
      BitIsSet(states, labels, i, m);
      BitStays(states, labels, m, p);
      ReadAt(states, labels, p);
      HandlerStays(states, labels, p + 1, q);
      HandlerAt(states, labels, q);
      assert false;
    }
  }

  // ---------- Every sweep brings something ----------

  lemma PollsAtMost(ctl: Ctl)
    ensures PollWork(ctl) <= 5
  {
  }

  lemma SweepIsNotIdle(states: seq<State>, labels: seq<Label>, i: nat, j: nat)
    requires IsRun(states, labels) && Sweep(states, labels, i, j) && Unsettled(states, i, j)
    ensures !AllIdle(states, labels, i, j)
  {
    if AllIdle(states, labels, i, j) {
      if Acts(states[i].ctl.pc) {
        NoTurn(states, labels, i, j);
      } else if states[i].ctl.fence.Waiting? {
        var m: nat, p: nat, q: nat :| Served(states, labels, i, m, p, q) && q < j;
        FenceIsSeen(states, labels, i, m, p, q);
      } else {
        LooksRunOut(states, labels, i, j);
        PollsAtMost(states[i].ctl);
      }
      assert false;
    }
  }

  ghost predicate NoneSubmitted(labels: seq<Label>, i: nat, j: nat)
    requires j <= |labels|
  {
    forall k :: i <= k < j ==> !Submits(labels[k])
  }

  lemma {:induction false} NoActions(states: seq<State>, labels: seq<Label>, i: nat, j: nat)
    requires |states| == |labels| + 1 && i <= j <= |labels| && NoneSubmitted(labels, i, j)
    requires Actions(states, labels, i, j) == 0
    ensures AllIdle(states, labels, i, j)
    decreases j
  {
    if i < j {
      NoActions(states, labels, i, j - 1);
    }
  }

  /** A sweep in which the driver does not settle has a productive step, so that less is left to do. */
  lemma SweepIsProductive(states: seq<State>, labels: seq<Label>, i: nat, j: nat)
    requires IsRun(states, labels) && Sweep(states, labels, i, j)
    requires NoneSubmitted(labels, i, j) && Unsettled(states, i, j)
    ensures Wf(states[i]) && Wf(states[j]) && Measure(states[j]) < Measure(states[i])
  {
    BoundedActions(states, labels, i, j);
    if Actions(states, labels, i, j) == 0 {
      NoActions(states, labels, i, j);
      SweepIsNotIdle(states, labels, i, j);
      assert false;
    }
  }

  // ---------- Sweep after sweep ----------

  /** The cuts divide a stretch of the run into sweeps. */
  ghost predicate Sweeps(states: seq<State>, labels: seq<Label>, cuts: seq<nat>)
    requires |states| == |labels| + 1
  {
    && cuts != [] && cuts[0] <= |labels|
    && forall n :: 0 <= n < |cuts| - 1 ==> Sweep(states, labels, cuts[n], cuts[n + 1])
  }

  lemma {:induction false} CutsInOrder(states: seq<State>, labels: seq<Label>, cuts: seq<nat>, n: nat)
    requires |states| == |labels| + 1 && Sweeps(states, labels, cuts) && n < |cuts|
    ensures cuts[0] <= cuts[n] <= cuts[|cuts| - 1] <= |labels|
    decreases |cuts|
  {
    if |cuts| > 1 {
      var front := cuts[..|cuts| - 1];
      assert Sweeps(states, labels, front) by {
        forall x | 0 <= x < |front| - 1 ensures Sweep(states, labels, front[x], front[x + 1]) {
          assert Sweep(states, labels, cuts[x], cuts[x + 1]);
        }
      }
      CutsInOrder(states, labels, front, if n < |front| then n else 0);
      assert Sweep(states, labels, cuts[|cuts| - 2], cuts[|cuts| - 1]);
    }
  }

  lemma {:induction false} LessAndLess(states: seq<State>, labels: seq<Label>, cuts: seq<nat>, n: nat)
    requires IsRun(states, labels) && Sweeps(states, labels, cuts) && n < |cuts| && cuts[|cuts| - 1] <= |labels|
    requires NoneSubmitted(labels, cuts[0], cuts[|cuts| - 1]) && Unsettled(states, cuts[0], cuts[|cuts| - 1])
    ensures cuts[n] <= |labels| && Wf(states[cuts[0]]) && Wf(states[cuts[n]])
    ensures Measure(states[cuts[n]]) + n <= Measure(states[cuts[0]])
    decreases n
  {
    CutsInOrder(states, labels, cuts, n);
    if n == 0 {
      WfAt(states, labels, cuts[0]);
    } else {
      LessAndLess(states, labels, cuts, n - 1);
      CutsInOrder(states, labels, cuts, n - 1);
      assert Sweep(states, labels, cuts[n - 1], cuts[n]);
      SweepIsProductive(states, labels, cuts[n - 1], cuts[n]);
    }
  }

  /** In every run, a stretch without submissions that has more sweeps than the measure of the work left at its start
      comes to a state in which all tasks are done or the one that is due is blocked. */
  lemma FairRunsSettle(states: seq<State>, labels: seq<Label>, cuts: seq<nat>) returns (k: nat)
    requires IsRun(states, labels) && Sweeps(states, labels, cuts) && cuts[|cuts| - 1] <= |labels|
    requires NoneSubmitted(labels, cuts[0], cuts[|cuts| - 1])
    requires Wf(states[cuts[0]]) && |cuts| - 1 > Measure(states[cuts[0]])
    ensures cuts[0] <= k <= cuts[|cuts| - 1] && Settled(states[k])
  {
    var i, j := cuts[0], cuts[|cuts| - 1];
    if Unsettled(states, i, j) {
      LessAndLess(states, labels, cuts, |cuts| - 1);
      assert false;
    }
    k :| i <= k <= j && Settled(states[k]);
  }

  // ---------- What is settled ----------

  lemma SameLogStep(s: State, l: Label, s': State)
    requires Core(s) && Step(s, l, s') && !Submits(l)
    ensures s'.d.log == s.d.log
  {
    match l
    case Worker =>
      NotStuck(s);
      WorkHistoryOk(s);
    case User(u) => UserKeeps(s.d, u);
    case Dev(step) => DeviceKeeps(s, step);
    case Rel(r) => ReleaseKeeps(s.d, r);
  }

  lemma {:induction false} SameLog(states: seq<State>, labels: seq<Label>, i: nat, j: nat)
    requires IsRun(states, labels) && i <= j <= |labels| && NoneSubmitted(labels, i, j)
    ensures states[j].d.log == states[i].d.log
    decreases j
  {
    if i < j {
      SameLog(states, labels, i, j - 1);
      RunStep(states, labels, j - 1);
      SameLogStep(states[j - 1], labels[j - 1], states[j]);
    }
  }

  lemma DoneStays(states: seq<State>, labels: seq<Label>, k: nat, j: nat)
    requires IsRun(states, labels) && k <= j <= |labels| && NoneSubmitted(labels, k, j) && AllDone(states[k])
    ensures AllDone(states[j])
  {
    SameLog(states, labels, k, j);
    RunGrows(states, labels, k, j);
  }

  /** If moreover no context and no buffer is released meanwhile, that is so at the end. */
  lemma FairRunsEnd(states: seq<State>, labels: seq<Label>, cuts: seq<nat>)
    requires IsRun(states, labels) && Sweeps(states, labels, cuts) && cuts[|cuts| - 1] <= |labels|
    requires NoneSubmitted(labels, cuts[0], cuts[|cuts| - 1])
    requires Wf(states[cuts[0]]) && |cuts| - 1 > Measure(states[cuts[0]])
    requires forall k :: cuts[0] <= k < cuts[|cuts| - 1] ==> !labels[k].Rel?
    ensures Settled(states[cuts[|cuts| - 1]])
  {
    var j := cuts[|cuts| - 1];
    var k := FairRunsSettle(states, labels, cuts);
    WfAt(states, labels, j);
    if AllDone(states[k]) {
      DoneStays(states, labels, k, j);
    } else {
      BlockedForGood(states, labels, k, j);
    }
  }

  lemma NotBlocked(states: seq<State>, labels: seq<Label>, i: nat, k: nat)
    requires IsRun(states, labels) && i <= k <= |labels| && NoneSubmitted(labels, i, k)
    requires |Writers(states[i].d)| < 16 && Wf(states[k])
    ensures !Blocked(states[k])
  {
    SameLog(states, labels, i, k);
    RunGrows(states, labels, i, k);
    WfAt(states, labels, i);
    WritersShrink(states[i].d, states[k].d);
    SubsetSize(Writers(states[k].d), Writers(states[i].d));
    PrefixReachable(states, labels, k);
    FewWritersNeverBlock(states[k]);
  }

  /** Whatever is released meanwhile, as long as fewer than sixteen buffers that were written to are held by their
      contexts, at the end all tasks are done, and the count of a context is that of its submissions in flight. */
  lemma FairRunsFinish(states: seq<State>, labels: seq<Label>, cuts: seq<nat>)
    requires IsRun(states, labels) && Sweeps(states, labels, cuts) && cuts[|cuts| - 1] <= |labels|
    requires NoneSubmitted(labels, cuts[0], cuts[|cuts| - 1])
    requires Wf(states[cuts[0]]) && |cuts| - 1 > Measure(states[cuts[0]])
    requires |Writers(states[cuts[0]].d)| < 16
    ensures var s := states[cuts[|cuts| - 1]];
            AllDone(s) && forall c :: c in s.d.ctxs ==> s.d.ctxs[c].taskCount == |s.d.ctxs[c].inflight|
  {
    var j := cuts[|cuts| - 1];
    var k := FairRunsSettle(states, labels, cuts);
    NotBlocked(states, labels, cuts[0], k);
    DoneStays(states, labels, k, j);
    PrefixReachable(states, labels, j);
    forall c | c in states[j].d.ctxs ensures states[j].d.ctxs[c].taskCount == |states[j].d.ctxs[c].inflight| {
      NoneLeft(states[j], c);
    }
  }

  lemma NoneLeft(s: State, c: CtxId)
    requires Reachable(s) && AllDone(s) && c in s.d.ctxs
    ensures s.d.ctxs[c].taskCount == |s.d.ctxs[c].inflight|
  {
    TaskCountIsExact(s, c);
    assert Unfinished(s.d, c) == {};
  }

  // ---------- A sweep is always possible ----------

  /** The longer run goes on with steps of the work thread, the device and the handler alone. */
  ghost predicate GoesOn(states: seq<State>, labels: seq<Label>, ss: seq<State>, ls: seq<Label>) {
    && IsRun(ss, ls) && |states| == |labels| + 1 && states <= ss && labels <= ls
    && forall k :: |labels| <= k < |ls| ==> ls[k].Worker? || ls[k].Dev?
  }

  lemma OneStep(states: seq<State>, labels: seq<Label>, l: Label) returns (ss: seq<State>, ls: seq<Label>)
    requires IsRun(states, labels) && (l.Worker? || l.Dev?)
    requires Wf(states[|labels|]) && Enabled(states[|labels|], l)
    ensures GoesOn(states, labels, ss, ls) && ls == labels + [l] && ss == states + [Apply(states[|labels|], l)]
  {
    ss, ls := states + [Apply(states[|labels|], l)], labels + [l];
    forall k | 0 <= k < |ls| ensures StepAt(ss, ls, k) {
      if k < |labels| {
        assert StepAt(states, labels, k);
      }
    }
  }

  lemma {:induction false} SameTurns(labels: seq<Label>, ls: seq<Label>, i: nat, j: nat)
    requires labels <= ls && i <= j <= |labels|
    ensures Turns(ls, i, j) == Turns(labels, i, j)
    decreases j
  {
    if i < j {
      SameTurns(labels, ls, i, j - 1);
    }
  }

  /** The handler comes to its end, if it is running. */
  lemma LeaveHandler(states: seq<State>, labels: seq<Label>) returns (ss: seq<State>, ls: seq<Label>)
    requires IsRun(states, labels)
    ensures GoesOn(states, labels, ss, ls) && ss[|ls|].d.isr.Out?
    ensures ss[|ls|].d.dev.fed == states[|labels|].d.dev.fed
  {
    var s := states[|labels|];
    if s.d.isr.In? {
      WfAt(states, labels, |labels|);
      DeviceKeeps(s, IsrHandle);
      ss, ls := OneStep(states, labels, Dev(IsrHandle));
    } else {
      ss, ls := states, labels;
    }
  }

  /** The device works on what it has. */
  function NextOf(dev: Device): DeviceStep { if dev.brewing != [] then Latch else Consume([]) }

  lemma DeviceGoesOn(s: State)
    requires Wf(s) && s.d.dev.done < |s.d.dev.fed|
    ensures DeviceEnabled(s.d, NextOf(s.d.dev))
    ensures var s' := Apply(s, Dev(NextOf(s.d.dev)));
            && s'.d.isr == s.d.isr && s'.d.dev.fed == s.d.dev.fed && s'.d.dev.done <= |s.d.dev.fed|
            && DeviceWork(s'.d.dev) < DeviceWork(s.d.dev)
  {
  }

  lemma {:induction false} Drain(states: seq<State>, labels: seq<Label>) returns (ss: seq<State>, ls: seq<Label>)
    requires IsRun(states, labels) && states[|labels|].d.isr.Out?
    requires states[|labels|].d.dev.done <= |states[|labels|].d.dev.fed|
    ensures GoesOn(states, labels, ss, ls) && ss[|ls|].d.isr.Out?
    ensures |states[|labels|].d.dev.fed| <= ss[|ls|].d.dev.done
    decreases DeviceWork(states[|labels|].d.dev)
  {
    var s := states[|labels|];
    if s.d.dev.done < |s.d.dev.fed| {
      WfAt(states, labels, |labels|);
      DeviceGoesOn(s);
      var states1, labels1 := OneStep(states, labels, Dev(NextOf(s.d.dev)));
      ss, ls := Drain(states1, labels1);
    } else {
      ss, ls := states, labels;
    }
  }

  lemma WorkerGoesOn(s: State)
    requires Core(s) && s.d.isr.Out?
    ensures Enabled(s, Worker) && Apply(s, Worker).d.isr.Out?
  {
    NotStuck(s);
  }

  lemma TakeTurn(states: seq<State>, labels: seq<Label>) returns (ss: seq<State>, ls: seq<Label>)
    requires IsRun(states, labels) && states[|labels|].d.isr.Out?
    ensures GoesOn(states, labels, ss, ls) && ls == labels + [Worker] && ss[|ls|].d.isr.Out?
  {
    CoreAt(states, labels, |labels|);
    WorkerGoesOn(states[|labels|]);
    ss, ls := OneStep(states, labels, Worker);
  }

  lemma {:induction false} TakeTurns(states: seq<State>, labels: seq<Label>, i: nat, n: nat)
    returns (ss: seq<State>, ls: seq<Label>)
    requires IsRun(states, labels) && states[|labels|].d.isr.Out? && i <= |labels|
    ensures GoesOn(states, labels, ss, ls) && ss[|ls|].d.isr.Out? && Turns(ls, i, |ls|) >= n
  {
    if n == 0 {
      ss, ls := states, labels;
    } else {
      var states1, labels1 := TakeTurns(states, labels, i, n - 1);
      ss, ls := TakeTurn(states1, labels1);
      SameTurns(labels1, ls, i, |labels1|);
    }
  }

  /** The handler runs. */
  lemma TakeInterrupt(states: seq<State>, labels: seq<Label>) returns (ss: seq<State>, ls: seq<Label>)
    requires IsRun(states, labels) && states[|labels|].d.isr.Out?
    ensures GoesOn(states, labels, ss, ls) && ss[|ls|].d.isr.Out? && |ls| == |labels| + 2
    ensures ls[|labels|] == Dev(IsrRead) && ls[|labels| + 1] == Dev(IsrHandle)
  {
    WfAt(states, labels, |labels|);
    var states1, labels1 := OneStep(states, labels, Dev(IsrRead));
    WfAt(states1, labels1, |labels1|);
    ss, ls := OneStep(states1, labels1, Dev(IsrHandle));
  }

  /** Every run can go on with a sweep, without submissions and without releases. */
  lemma SweepIsPossible(states: seq<State>, labels: seq<Label>) returns (ss: seq<State>, ls: seq<Label>)
    requires IsRun(states, labels)
    ensures GoesOn(states, labels, ss, ls) && Sweep(ss, ls, |labels|, |ls|)
  {
    var i := |labels|;
    var states1, labels1 := LeaveHandler(states, labels);
    WfAt(states1, labels1, |labels1|);
    var states2, labels2 := Drain(states1, labels1);
    var m := |labels2|;
    var states3, labels3 := TakeInterrupt(states2, labels2);
    ss, ls := TakeTurns(states3, labels3, i, 6);
    assert Served(ss, ls, i, m, m, m + 1);
  }
}
