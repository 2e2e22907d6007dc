/** No run-time check of the driver fails, no dangling pointer is followed, and what the work thread chose to do
    can be done, in every reachable state. */
module Safety {
  import opened Basics
  import opened Slots
  import opened Protocol
  import opened Control
  import opened Signals
  import opened Binding
  import opened Counting
  import opened Lifetime
  import opened Aim
  import opened Fates
  import opened Blame
  import opened Invariant
  import opened Runs

  // ---------- Tasks and what they point to ----------

  /** The memory of a task, of its context and of its output buffer is there. */
  ghost predicate Usable(d: Data, t: TaskId) {
    && t < |d.log| && t !in d.hist.destroyed
    && d.log[t].ctx in d.ctxs && !Dying(d.ctxs[d.log[t].ctx])
    && d.log[t].buf in d.bufs && !d.bufs[d.log[t].buf].life.freed
  }

  lemma CountedUsable(d: Data, t: TaskId)
    requires WfData(d) && LifeOk(d.ctxs, d.bufs) && t < |d.log| && t !in d.hist.destroyed
    requires d.ctxs[d.log[t].ctx].taskCount > 0
    ensures Usable(d, t)
  {
    var c, b := d.log[t].ctx, d.log[t].buf;
    assert TaskWf(d.log[t], d.ctxs, d.bufs);
    assert PairOk(d.ctxs[c], d.bufs[b]) && AloneOk(d.ctxs[c]);
  }

  lemma AliveUsable(s: State, t: TaskId)
    requires Core(s) && t < |s.d.log| && Alive(s.ctl, t) && FateOk(s.d.hist, |s.d.log|, s.ctl, t)
    ensures Usable(s.d, t)
  {
    LiveCounts(s.d, s.ctl, t);
    CountedUsable(s.d, t);
  }

  /** Every task that the work thread holds, has prefetched or is running, and has not retired, is still there, and
      so are its context and its buffer, whatever has been released meanwhile. */
  lemma WorkThreadPointsToLive(s: State, t: TaskId)
    requires Reachable(s) && Alive(s.ctl, t)
    ensures Usable(s.d, t)
  {
    ReachableCore(s);
    ReachableTask(s, t);
    AliveUsable(s, t);
  }

  // ---------- The run-time checks ----------

  /** The interrupt handler finds a running task whenever it has read an error or a fence, and may follow it. */
  lemma HandlerFindsTask(s: State)
    requires Reachable(s) && s.d.isr.In? && (s.d.isr.st.cmd || s.d.isr.st.mem || s.d.isr.st.fence)
    ensures s.ctl.running.Some? && s.ctl.fence.Waiting? && Usable(s.d, s.ctl.running.value)
    ensures s.d.isr.st.fence ==> AwaitsFence(s.ctl)
  {
    ReachableCore(s);
    HandleSignals(s.d.dev, s.d.isr.st, StageOf(s.ctl));
    StageIsAlive(s.ctl);
    WorkThreadPointsToLive(s, s.ctl.running.value);
  }

  lemma StageIsAlive(ctl: Ctl)
    requires !StageOf(ctl).Silent? && AtPcAlive(ctl)
    ensures ctl.running.Some? && ctl.fence.Waiting? && Alive(ctl, ctl.running.value)
    ensures StageOf(ctl).Awaiting? ==> AwaitsFence(ctl)
  {
  }

  /** While a fence is awaited the running task is not retired. */
  predicate AtPcAlive(ctl: Ctl) { ctl.fence.Waiting? ==> !ctl.pc.FinFence? && !ctl.pc.FinClear? }

  /** The work thread never follows a null pointer, never takes a task from an empty list, finds an empty slot when
      it binds, finds the buffer bound when it runs a task, and a running task when it finishes one. */
  lemma NoCheckFails(s: State)
    requires Reachable(s)
    ensures Wf(s) && !Stuck(s)
    ensures s.ctl.pc.BindSlot? ==> 0 <= FreeSlot(s.d.slots) < NUM_SLOTS && s.d.slots.table[FreeSlot(s.d.slots)].None?
    ensures forall b :: b in s.d.bufs && Bound(s.d, b) ==>
              0 <= s.d.bufs[b].slot < NUM_SLOTS && s.d.slots.table[s.d.bufs[b].slot] == Some(b)
  {
    ReachableCore(s);
    NotStuck(s);
    FreeSlotOk(s.d.slots);
  }

  /** A command or fence of a task that the device has not consumed is the running task's, whose fence is awaited. */
  lemma OutstandingIsRunning(s: State, p: nat)
    requires Reachable(s) && s.d.dev.done <= p < |s.d.dev.fed| && s.d.dev.fed[p].tag.Some?
    ensures s.ctl.running == s.d.dev.fed[p].tag && s.ctl.fence.Waiting?
  {
    ReachableCore(s);
  }

  /** The same for a fault that the handler has not cleared. */
  lemma UnhandledIsRunning(s: State, t: TaskId)
    requires Reachable(s) && Unhandled(s.d.dev, t)
    ensures s.ctl.running == Some(t) && s.ctl.fence.Waiting?
  {
    ReachableCore(s);
  }

  // ---------- Events ----------

  /** What the work thread acts on when it acts on an event. */
  ghost predicate EventHolds(s: State) {
    && Wf(s)
    && (s.ctl.pc.GetNext? ==> s.ctl.pending != [] && s.ctl.next.None?)
    && (s.ctl.pc.BindSlot? ==> s.ctl.next.Some? && s.ctl.running.None? && s.d.slots.free > 0 && !Bound(s.d, NextBuf(s)))
    && (s.ctl.pc.RunTask? ==> s.ctl.fence.Idle? && s.ctl.running.None?)
    && (SawBound(s.ctl.pc) ==> s.ctl.next.Some? && Bound(s.d, NextBuf(s)))
    && (s.ctl.pc.Finish? ==> s.ctl.fence.Reached? && s.ctl.running.Some?)
    && (s.ctl.pc.RunCmd? ==> s.ctl.running == s.ctl.next && s.ctl.next.value in s.d.hist.slotOf
                             && s.d.hist.slotOf[s.ctl.next.value] == s.d.bufs[NextBuf(s)].slot)
  }

  lemma AimedEvents(s: State)
    requires Wf(s) && AtPc(|s.d.log|, s.ctl) && AimOk(s)
    ensures EventHolds(s)
  {
  }

  /** The event that the work thread has chosen: what it acts on is so when it acts, however many steps of the
      others came between the choice and the act. */
  lemma EventsAreStable(s: State)
    requires Reachable(s)
    ensures EventHolds(s)
  {
    ReachableCore(s);
    AimedEvents(s);
  }
}
