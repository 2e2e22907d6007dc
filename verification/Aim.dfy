/** Stability of events: what the work thread saw when it chose an event is still so when it acts, whatever the
    other threads and the device did in between. */
module Aim {
  import opened Slots
  import opened Protocol
  import opened Control
  import opened Lifetime

  /** The output buffer of the prefetched task. */
  function NextBuf(s: State): BufId
    requires Wf(s) && s.ctl.next.Some?
  {
    s.d.log[s.ctl.next.value].buf
  }

  /** Places where the buffer of the prefetched task was seen bound, or not bound. */
  predicate SawBound(pc: Pc) { pc.RunTask? || pc.RunSet? || pc.RunCmd? }

  predicate SawUnbound(pc: Pc) { pc.PollFree? || pc.BindSlot? }

  /** The precondition of the chosen event. */
  ghost predicate AimOk(s: State)
    requires Wf(s)
  {
    && (SawBound(s.ctl.pc) ==> s.ctl.next.Some? && Bound(s.d, NextBuf(s)))
    && (SawUnbound(s.ctl.pc) ==> s.ctl.next.Some? && !Bound(s.d, NextBuf(s)))
    && (s.ctl.pc.BindSlot? ==> s.d.slots.free > 0)
    && (s.ctl.pc.RunCmd? ==> s.ctl.next.value in s.d.hist.slotOf
                             && s.d.hist.slotOf[s.ctl.next.value] == s.d.bufs[NextBuf(s)].slot)
  }

  lemma WorkAim(s: State)
    requires Wf(s) && !Stuck(s) && AtPc(|s.d.log|, s.ctl) && AimOk(s)
    requires Wf(State(Walk(s.ctl, See(s)), Work(s)))
    ensures AimOk(State(Walk(s.ctl, See(s)), Work(s)))
  {
    if s.ctl.pc.RunSet? {
      assert DeedOf(s) == DoStart(s.ctl.next.value);
    } else if s.ctl.pc.RunCmd? {
      assert Work(s).bufs == s.d.bufs && Work(s).hist.slotOf == s.d.hist.slotOf;
    } else if Aims(s.ctl.pc) {
      assert Work(s) == s.d;
    } else {
      WalkAims(s.ctl, See(s));
    }
  }

  /** Places from which the work thread goes on to act on what it saw. */
  predicate Aims(pc: Pc) { pc.PollSlot? || pc.PollFree? || pc.RunTask? || pc.RunSet? || pc.RunCmd? }

  lemma WalkAims(ctl: Ctl, sight: Sight)
    requires !Aims(ctl.pc)
    ensures !SawBound(Walk(ctl, sight).pc) && !SawUnbound(Walk(ctl, sight).pc)
  {
  }

  /** Steps of others that keep the slot of the buffer in question, the counter and the record of starts. */
  lemma KeptAim(s: State, s': State)
    requires Wf(s) && Wf(s') && AimOk(s) && s.d.log <= s'.d.log
    requires s'.ctl.pc == s.ctl.pc && s'.ctl.next == s.ctl.next
    requires s.ctl.next.Some? ==> NextBuf(s) in s'.d.bufs && s'.d.bufs[NextBuf(s)].slot == s.d.bufs[NextBuf(s)].slot
    requires s'.d.slots.free >= s.d.slots.free && s'.d.hist.slotOf == s.d.hist.slotOf
    ensures AimOk(s')
  {
  }

  lemma UserAim(s: State, u: UserStep)
    requires Wf(s) && UserEnabled(s.d, u) && AimOk(s) && Wf(State(UserCtl(s, u), UserData(s.d, u)))
    ensures AimOk(State(UserCtl(s, u), UserData(s.d, u)))
  {
    KeptAim(s, State(UserCtl(s, u), UserData(s.d, u)));
  }

  lemma DeviceAim(s: State, step: DeviceStep)
    requires Wf(s) && DeviceEnabled(s.d, step) && AimOk(s) && Wf(State(DeviceCtl(s, step), DeviceData(s, step)))
    ensures AimOk(State(DeviceCtl(s, step), DeviceData(s, step)))
  {
    KeptAim(s, State(DeviceCtl(s, step), DeviceData(s, step)));
  }

  /** A buffer loses its slot to a release only if its context has no task left. */
  lemma ReleaseAim(s: State, r: ReleaseStep)
    requires Wf(s) && ReleaseEnabled(s.d, r) && AimOk(s) && Wf(State(s.ctl, ReleaseData(s.d, r)))
    requires LifeOk(s.d.ctxs, s.d.bufs)
    requires s.ctl.next.Some? ==> s.d.ctxs[s.d.log[s.ctl.next.value].ctx].taskCount > 0
    ensures AimOk(State(s.ctl, ReleaseData(s.d, r)))
  {
    if s.ctl.next.Some? {
      var b, c := NextBuf(s), s.d.log[s.ctl.next.value].ctx;
      assert TaskWf(s.d.log[s.ctl.next.value], s.d.ctxs, s.d.bufs);
      assert PairOk(s.d.ctxs[c], s.d.bufs[b]) && AloneOk(s.d.ctxs[c]);
    }
    KeptAim(s, State(s.ctl, ReleaseData(s.d, r)));
  }
}
