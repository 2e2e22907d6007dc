/** When the driver can finish no further task, exactly: all slots are kept for writers, and the task that is due has
    none. Then nothing but a release helps. */
module Blocking {
  import opened Basics
  import opened Slots
  import opened Protocol
  import Evolution
  import Conservation
  import opened Control
  import opened Signals
  import opened Counting
  import opened Lifetime
  import opened Aim
  import opened Readers
  import opened Invariant
  import opened WorkerSteps
  import opened UserSteps
  import opened DeviceSteps
  import opened Runs
  import opened Progress
  import opened Completion

  /** The task that is due: prefetched, held, or first in the list. */
  function Due(ctl: Ctl): Option<TaskId> {
    if Prefetched(ctl).Some? then Prefetched(ctl)
    else if Held(ctl).Some? then Held(ctl)
    else if ctl.pending != [] then Some(ctl.pending[0])
    else None
  }

  /** No task is running, and the one that is due is neither being dropped nor about to be. */
  predicate Waits(s: State)
    requires Wf(s)
  {
    && LiveRunning(s.ctl).None? && Due(s.ctl).Some? && !s.ctl.pc.DropUnbind? && !s.ctl.pc.DropCount?
    && (Prefetched(s.ctl).None? ==> !s.d.ctxs[s.d.log[Due(s.ctl).value].ctx].failed)
  }

  /** The task that is due waits for a slot, and there is none. */
  predicate Blocked(s: State)
    requires Wf(s)
  {
    Waits(s) && !Bound(s.d, s.d.log[Due(s.ctl).value].buf) && s.d.slots.free <= 0
  }

  lemma NextIsDue(n: nat, ctl: Ctl)
    requires AtPc(n, ctl) && ctl.next.Some?
    ensures LiveRunning(ctl).None? ==> Prefetched(ctl) == Due(ctl) == ctl.next
    ensures !ctl.pc.DropUnbind? && !ctl.pc.DropCount?
    ensures ctl.fence.Idle? ==> LiveRunning(ctl).None?
  {
  }

  /** The work thread that starves is blocked. */
  lemma StarvingIsBlocked(s: State)
    requires Wf(s) && AtPc(|s.d.log|, s.ctl) && Starving(s)
    ensures Blocked(s)
  {
    NextIsDue(|s.d.log|, s.ctl);
  }

  // ---------- Who holds the slots ----------

  /** The buffer is kept bound for a writer: the last task destroyed on it since it was bound was a write, its context
      had not failed then, and the release of the context has not reached the buffer. */
  predicate KeptForWriter(d: Data, b: BufId) {
    b in d.bufs && d.bufs[b].life.ctxRef && KeptForWrite(d.log, b, d.bufs[b].reader.last)
  }

  predicate AllKept(d: Data) {
    forall k :: 0 <= k < |d.slots.table| ==> d.slots.table[k].Some? && KeptForWriter(d, d.slots.table[k].value)
  }

  lemma KeeperAtRest(s: State, b: BufId)
    requires Wf(s) && Controlled(|s.d.log|, s.ctl) && KeeperOk(s.d, s.ctl, b) && LiveRunning(s.ctl).None?
             && !NextBound(s)
    requires b in s.d.bufs && s.d.bufs[b].slot != NO_SLOT
    ensures KeptForWrite(s.d.log, b, s.d.bufs[b].reader.last)
  {
  }

  lemma {:induction false} NoneFree(table: seq<Option<BufId>>)
    ensures CountFree(table) == 0 <==> forall k :: 0 <= k < |table| ==> table[k].Some?
  {
    if table != [] {
      var n := |table| - 1;
      NoneFree(table[..n]);
      assert forall k :: 0 <= k < n ==> table[..n][k] == table[k];
      assert table[n].Some? || CountFree(table) > 0;
    }
  }

  lemma SlotHolder(s: State, k: Slot)
    requires Reachable(s) && k < |s.d.slots.table| && s.d.slots.table[k].Some?
    ensures var b := s.d.slots.table[k].value; b in s.d.bufs && s.d.bufs[b].slot == k && s.d.bufs[b].life.ctxRef
  {
    ReachableCore(s);
    var b := s.d.slots.table[k].value;
    assert PairOk(s.d.ctxs[s.d.bufs[b].ctx], s.d.bufs[b]);
  }

  /** While no task runs and the prefetched one has no slot, there is no free slot exactly when every slot holds a
      buffer that is kept for a writer. */
  lemma NoSlotExactly(s: State)
    requires Reachable(s) && Wf(s) && LiveRunning(s.ctl).None? && !NextBound(s)
    ensures s.d.slots.free <= 0 <==> AllKept(s.d)
  {
    ReachableCore(s);
    NoneFree(s.d.slots.table);
    if s.d.slots.free <= 0 {
      forall k | 0 <= k < |s.d.slots.table|
        ensures s.d.slots.table[k].Some? && KeptForWriter(s.d, s.d.slots.table[k].value)
      {
        SlotHolder(s, k);
        ReachableBuf(s, s.d.slots.table[k].value);
        KeeperAtRest(s, s.d.slots.table[k].value);
      }
    }
  }

  /** A task that waits is blocked exactly when its buffer has no slot and every slot is kept for a writer. */
  lemma BlockedExactly(s: State)
    requires Reachable(s) && Wf(s) && Waits(s)
    ensures Blocked(s) <==> !Bound(s.d, s.d.log[Due(s.ctl).value].buf) && AllKept(s.d)
  {
    if !Bound(s.d, s.d.log[Due(s.ctl).value].buf) {
      ReachableAtPc(s);
      if s.ctl.next.Some? {
        NextIsDue(|s.d.log|, s.ctl);
      }
      NoSlotExactly(s);
    }
  }

  lemma ReachableAtPc(s: State)
    requires Reachable(s)
    ensures AtPc(|s.d.log|, s.ctl)
  {
    ReachableCore(s);
  }

  // ---------- How many buffers it takes ----------

  /** The buffers that were ever written to. */
  function Written(log: seq<Task>): set<BufId> { set t | 0 <= t < |log| && log[t].kind.Write? :: log[t].buf }

  /** The buffers that were written to and that their contexts still hold. */
  function Writers(d: Data): set<BufId> {
    set b | b in Written(d.log) && b in d.bufs && d.bufs[b].life.ctxRef
  }

  /** Without new tasks there are never more of them. */
  lemma WritersShrink(d: Data, d': Data)
    requires WfData(d) && Evolution.Grows(d, d') && d'.log == d.log
    ensures Writers(d') <= Writers(d)
  {
    forall b | b in Writers(d') ensures b in Writers(d) {
      var t :| 0 <= t < |d.log| && d.log[t].kind.Write? && d.log[t].buf == b;
      assert TaskWf(d.log[t], d.ctxs, d.bufs);
    }
  }

  lemma KeptIsWritten(d: Data, b: BufId)
    requires KeptForWriter(d, b)
    ensures b in Writers(d)
  {
    var t := d.bufs[b].reader.last.value.0;
    assert d.log[t].kind.Write? && d.log[t].buf == b;
  }

  /** The buffers in the first `n` slots. */
  function Holders(table: seq<Option<BufId>>, n: nat): set<BufId>
    requires n <= |table| && forall k :: 0 <= k < n ==> table[k].Some?
  {
    set k | 0 <= k < n :: table[k].value
  }

  lemma {:induction false} HoldersCount(table: seq<Option<BufId>>, n: nat)
    requires n <= |table| && forall k :: 0 <= k < n ==> table[k].Some?
    requires forall j, k :: 0 <= j < k < n ==> table[j] != table[k]
    ensures |Holders(table, n)| == n
  {
    if n == 0 {
      assert Holders(table, 0) == {};
    } else {
      HoldersCount(table, n - 1);
      assert Holders(table, n) == Holders(table, n - 1) + {table[n - 1].value};
    }
  }

  lemma SubsetSize(a: set<BufId>, b: set<BufId>)
    requires a <= b
    ensures |a| <= |b|
  {
    assert a + (b - a) == b;
  }

  /** As long as fewer than sixteen buffers that were written to are held by their contexts, no task is blocked. */
  lemma FewWritersNeverBlock(s: State)
    requires Reachable(s) && Wf(s) && |Writers(s.d)| < 16
    ensures !Blocked(s)
  {
    if Blocked(s) {
      BlockedExactly(s);
      EnoughWritten(s);
      assert false;
    }
  }

  lemma EnoughWritten(s: State)
    requires Reachable(s) && AllKept(s.d)
    ensures |Writers(s.d)| >= 16
  {
    var table := s.d.slots.table;
    ReachableWf(s);
    forall j, k | 0 <= j < k < |table| ensures table[j] != table[k] {
      SlotHolder(s, j);
      SlotHolder(s, k);
    }
    HoldersCount(table, |table|);
    forall b | b in Holders(table, |table|) ensures b in Writers(s.d) { KeptIsWritten(s.d, b); }
    SubsetSize(Holders(table, |table|), Writers(s.d));
  }

  lemma {:induction false} MachineGrows(d: Data, s: State, labels: seq<Label>, s': State)
    requires Evolution.Grows(d, s.d) && Machine(s, labels, s')
    ensures Evolution.Grows(d, s'.d)
    decreases |labels|
  {
    if labels != [] {
      NextGrows(d, s, labels[0], Apply(s, labels[0]));
      MachineGrows(d, Apply(s, labels[0]), labels[1..], s');
    }
  }

  /** As long as fewer than sixteen buffers that were written to are held by their contexts, all tasks can be brought
      to their end. */
  lemma FewWritersCanFinish(s: State)
    requires Reachable(s) && |Writers(s.d)| < 16
    ensures exists labels, s' :: Machine(s, labels, s') && AllDone(s') && s'.d.log == s.d.log
  {
    ReachableInv(s);
    var labels, s' := FinishAll(s);
    MachineReaches(s, labels, s');
    if Starving(s') {
      ReachableAtPc(s');
      StarvingIsBlocked(s');
      GrowsReflexive(s.d);
      MachineGrows(s.d, s, labels, s');
      WritersShrink(s.d, s'.d);
      SubsetSize(Writers(s'.d), Writers(s.d));
      FewWritersNeverBlock(s');
    }
  }

  // ---------- Blocked for good ----------

  /** The work thread only looks around while it is blocked. */
  lemma BlockedWorks(s: State)
    requires Wf(s) && AtPc(|s.d.log|, s.ctl) && AimOk(s) && Blocked(s) && !Stuck(s)
    ensures Work(s) == s.d
  {
    if s.ctl.next.Some? {
      NextIsDue(|s.d.log|, s.ctl);
    }
  }

  lemma WalkDue(n: nat, ctl: Ctl, sight: Sight)
    requires AtPc(n, ctl) && LiveRunning(ctl).None? && Due(ctl).Some? && !ctl.pc.DropUnbind? && !ctl.pc.DropCount?
    requires ctl.pc.Got? ==> !sight.failed
    requires !ctl.pc.RunSet? && !ctl.pc.BindSlot?
    ensures var ctl' := Walk(ctl, sight);
            && LiveRunning(ctl').None? && Due(ctl') == Due(ctl) && !ctl'.pc.DropUnbind? && !ctl'.pc.DropCount?
            && (Prefetched(ctl').None? ==> Prefetched(ctl).None?)
  {
  }

  lemma BlockedWorker(s: State)
    requires Core(s) && Blocked(s)
    ensures !Stuck(s) && Work(s) == s.d && Wf(Worked(s)) && Blocked(Worked(s))
  {
    NotStuck(s);
    BlockedWorks(s);
    if s.ctl.next.Some? {
      NextIsDue(|s.d.log|, s.ctl);
    }
    WalkDue(|s.d.log|, s.ctl, See(s));
    Evolution.WalkNames(|s.d.log|, s.ctl, See(s));
  }

  /** The step leaves the work thread alone, and the slots, buffers and failures that matter to the task that is due. */
  lemma BlockedKept(s: State, s': State)
    requires Wf(s) && Wf(s') && Blocked(s) && s.d.log <= s'.d.log
    requires s'.ctl == s.ctl.(pending := s'.ctl.pending, fence := s'.ctl.fence) && s.ctl.pending <= s'.ctl.pending
    requires s'.d.slots == s.d.slots
    requires var task := s.d.log[Due(s.ctl).value];
             && s'.d.bufs[task.buf].slot == s.d.bufs[task.buf].slot
             && s'.d.ctxs[task.ctx].failed == s.d.ctxs[task.ctx].failed
    ensures Blocked(s')
  {
  }

  lemma BlockedUser(s: State, u: UserStep)
    requires Wf(s) && Blocked(s) && UserEnabled(s.d, u)
    ensures Wf(Used(s, u)) && Blocked(Used(s, u)) && UserData(s.d, u).hist == s.d.hist
  {
    var task := s.d.log[Due(s.ctl).value];
    Evolution.UserWf(s, u);
    UserKeeps(s.d, u);
    UserKeepsBuf(s.d, u, task.buf);
    UserKeepsCtx(s.d, u, task.ctx);
    BlockedKept(s, Used(s, u));
  }

  /** While no task runs, the handler fails nobody. */
  lemma QuietHandler(s: State, step: DeviceStep)
    requires Wf(s) && AtPc(|s.d.log|, s.ctl) && SignalsOk(s.d.dev, s.d.isr, StageOf(s.ctl)) && DeviceEnabled(s.d, step)
    requires LiveRunning(s.ctl).None?
    ensures DeviceData(s, step).ctxs == s.d.ctxs
  {
  }

  lemma BlockedDevice(s: State, step: DeviceStep)
    requires Core(s) && Blocked(s) && DeviceEnabled(s.d, step)
    ensures Wf(Signalled(s, step)) && Blocked(Signalled(s, step))
    ensures DeviceData(s, step).hist.destroyed == s.d.hist.destroyed
  {
    Evolution.DeviceWf(s, step);
    DeviceKeeps(s, step);
    QuietHandler(s, step);
    BlockedKept(s, Signalled(s, step));
  }

  /** Only a release helps. */
  lemma BlockedStep(s: State, l: Label, s': State)
    requires Core(s) && Blocked(s) && Step(s, l, s') && !l.Rel?
    ensures Wf(s') && Blocked(s') && s'.d.hist.destroyed == s.d.hist.destroyed
  {
    match l
    case Worker => BlockedWorker(s);
    case User(u) => BlockedUser(s, u);
    case Dev(step) => BlockedDevice(s, step);
  }

  lemma BlockedAt(states: seq<State>, labels: seq<Label>, k: nat)
    requires IsRun(states, labels) && k < |labels| && !labels[k].Rel? && Wf(states[k]) && Blocked(states[k])
    ensures Wf(states[k + 1]) && Blocked(states[k + 1])
    ensures states[k + 1].d.hist.destroyed == states[k].d.hist.destroyed
  {
    RunStep(states, labels, k);
    BlockedStep(states[k], labels[k], states[k + 1]);
  }

  /** Along every run, what is blocked stays blocked and no task is destroyed, until a step of a release. */
  lemma {:induction false} BlockedForGood(states: seq<State>, labels: seq<Label>, i: nat, j: nat)
    requires IsRun(states, labels) && i <= j < |states| && Wf(states[i]) && Blocked(states[i])
    requires forall k :: i <= k < j ==> !labels[k].Rel?
    ensures Wf(states[j]) && Blocked(states[j]) && states[j].d.hist.destroyed == states[i].d.hist.destroyed
    decreases j
  {
    if i < j {
      BlockedForGood(states, labels, i, j - 1);
      BlockedAt(states, labels, j - 1);
    }
  }

  // ---------- No further task is finished, exactly ----------

  /** Whatever the work thread, the device and the handler do, they destroy no further task. */
  ghost predicate NoMore(s: State) {
    forall labels, s' :: Machine(s, labels, s') ==> s'.d.hist.destroyed == s.d.hist.destroyed
  }

  lemma {:induction false} BlockedMachine(s: State, labels: seq<Label>, s': State)
    requires Inv(s) && Blocked(s) && Machine(s, labels, s')
    ensures s'.d.hist.destroyed == s.d.hist.destroyed
    decreases |labels|
  {
    if labels != [] {
      var s1 := Apply(s, labels[0]);
      BlockedStep(s, labels[0], s1);
      NextInv(s, labels[0], s1);
      BlockedMachine(s1, labels[1..], s');
    }
  }

  predicate Dropping(ctl: Ctl) { ctl.pc.DropUnbind? || ctl.pc.DropCount? }

  /** A step that retires nobody makes no task wait that did not wait before. */
  lemma WalkUndue(n: nat, ctl: Ctl, sight: Sight)
    requires AtPc(n, ctl) && Retires(ctl.pc).None?
    requires var ctl' := Walk(ctl, sight); LiveRunning(ctl').None? && Due(ctl').Some? && !Dropping(ctl')
    ensures var ctl' := Walk(ctl, sight);
            && LiveRunning(ctl).None? && Due(ctl) == Due(ctl') && !Dropping(ctl) && !ctl.pc.RunSet?
            && (ctl.pc.Got? ==> !sight.failed)
            && (Prefetched(ctl).None? && !ctl.pc.Got? ==> Prefetched(ctl').None?)
  {
  }

  lemma QuietWork(s: State)
    requires Wf(s) && !Stuck(s) && AtPc(|s.d.log|, s.ctl)
    requires LiveRunning(s.ctl).None? && !Dropping(s.ctl) && !s.ctl.pc.RunSet? && !s.ctl.pc.BindSlot?
    ensures Work(s) == s.d
  {
  }

  lemma BindsDue(s: State)
    requires Wf(s) && !Stuck(s) && AtPc(|s.d.log|, s.ctl) && s.ctl.pc.BindSlot? && Wf(Worked(s))
    ensures !Blocked(Worked(s))
  {
  }

  lemma UnblockedWorker(s: State)
    requires Wf(s) && !Stuck(s) && AtPc(|s.d.log|, s.ctl) && Retires(s.ctl.pc).None? && Wf(Worked(s))
             && Blocked(Worked(s))
    ensures Blocked(s)
  {
    if s.ctl.pc.BindSlot? {
      BindsDue(s);
    } else {
      WalkUndue(|s.d.log|, s.ctl, See(s));
      QuietWork(s);
    }
  }

  lemma UnblockedDevice(s: State, step: DeviceStep)
    requires Core(s) && DeviceEnabled(s.d, step) && Wf(Signalled(s, step)) && Blocked(Signalled(s, step))
    ensures Blocked(s)
  {
    DeviceKeeps(s, step);
    QuietHandler(s, step);
  }

  lemma RetiresNobody(s: State)
    requires Inv(s) && !Stuck(s) && Work(s).hist.destroyed == s.d.hist.destroyed
    ensures Retires(s.ctl.pc).None?
  {
    if Retires(s.ctl.pc).Some? {
      var t := s.ctl.pc.task;
      assert TaskInv(s, t);
      Conservation.RetiresAlive(s, t);
      Conservation.RetiredIsDestroyed(s, t);
    }
  }

  /** A step of the work thread, the device or the handler that destroys no task does not block anything. */
  lemma UnblockedStep(s: State, l: Label, s': State)
    requires Inv(s) && Step(s, l, s') && (l.Worker? || l.Dev?) && s'.d.hist.destroyed == s.d.hist.destroyed
    requires Wf(s') && Blocked(s')
    ensures Blocked(s)
  {
    match l
    case Worker =>
      NotStuck(s);
      RetiresNobody(s);
      UnblockedWorker(s);
    case Dev(step) => UnblockedDevice(s, step);
  }

  lemma {:induction false} FinishOne(s: State) returns (labels: seq<Label>, s': State)
    requires Inv(s) && !AllDone(s) && !Blocked(s)
    ensures Machine(s, labels, s') && s'.d.hist.destroyed != s.d.hist.destroyed
    decreases Measure(s), DeviceWork(s.d.dev), HandlerWork(s.d.isr), PollWork(s.ctl)
  {
    if Starving(s) {
      StarvingIsBlocked(s);
      assert false;
    }
    var l, s1 := BetterStep(s);
    if s1.d.hist.destroyed != s.d.hist.destroyed {
      labels, s' := [], s1;
    } else {
      if Blocked(s1) {
        UnblockedStep(s, l, s1);
        assert false;
      }
      StillLeft(s, s1);
      labels, s' := FinishOne(s1);
    }
    MachineCons(s, l, s1, labels, s');
    labels := [l] + labels;
  }

  lemma StillLeft(s: State, s': State)
    requires !AllDone(s) && s'.d.log == s.d.log && s'.d.hist.destroyed == s.d.hist.destroyed
    ensures !AllDone(s')
  {
  }

  lemma BlockedIsLeft(s: State)
    requires Reachable(s) && Wf(s) && Blocked(s)
    ensures !AllDone(s)
  {
    var t := Due(s.ctl).value;
    Conservation.NoTaskIsLost(s, t);
    assert t !in s.d.hist.destroyed;
  }

  /** While there are tasks left, the work thread, the device and the handler can never finish another one exactly when
      the task that is due is blocked. */
  lemma NoMoreExactly(s: State)
    requires Reachable(s) && Wf(s) && !AllDone(s)
    ensures NoMore(s) <==> Blocked(s)
  {
    ReachableInv(s);
    if Blocked(s) {
      forall labels, s' | Machine(s, labels, s') ensures s'.d.hist.destroyed == s.d.hist.destroyed {
        BlockedMachine(s, labels, s');
      }
    } else {
      var labels, s' := FinishOne(s);
      assert Machine(s, labels, s');
    }
  }
}
