/** The fate of every task: each task ever put on the pending list is in exactly one place, is destroyed once, and
    leaves as a task that was dropped or as a task that was started. */
module Fates {
  import opened Basics
  import opened Protocol
  import opened Control
  import opened Counting

  /** Taken from the list and not retired yet. */
  predicate Alive(ctl: Ctl, t: TaskId) {
    LiveRunning(ctl) == Some(t) || Held(ctl) == Some(t) || Prefetched(ctl) == Some(t)
  }

  /** A task is destroyed exactly when it was taken from the list and is not alive, and was dropped or started. */
  predicate EndOk(h: History, n: nat, ctl: Ctl, t: TaskId) {
    && (t in h.destroyed <==> t < Taken(n, ctl) && !Alive(ctl, t))
    && (t in h.dropped ==> t in h.destroyed && t !in h.slotOf)
    && (t in h.destroyed ==> t in h.dropped || t in h.slotOf)
  }

  /** The running task is the latest that was started, and what is held or prefetched was not started. */
  predicate StartOk(h: History, n: nat, ctl: Ctl, t: TaskId) {
    && (t in h.slotOf ==> t < Taken(n, ctl) && Held(ctl) != Some(t) && Prefetched(ctl) != Some(t))
    && (t in h.slotOf && ctl.running.Some? ==> t <= ctl.running.value)
    && (ctl.running == Some(t) ==> t in h.slotOf)
  }

  predicate FateOk(h: History, n: nat, ctl: Ctl, t: TaskId) { EndOk(h, n, ctl, t) && StartOk(h, n, ctl, t) }

  /** History mentions only tasks that exist. */
  ghost predicate HistNames(h: History, n: nat) {
    && (forall t :: t in h.destroyed || t in h.dropped || t in h.rejected || t in h.raised || t in h.slotOf ==> t < n)
    && (forall p :: p in h.charged ==> p.0 < n)
  }

  /** The history of starts, retirements and drops after a step of the work thread. */
  predicate WorkHistory(h: History, h': History, ctl: Ctl, slot: int) {
    && h'.destroyed == (if Retires(ctl.pc).Some? then h.destroyed + {Retires(ctl.pc).value} else h.destroyed)
    && h'.dropped == (if ctl.pc.DropCount? then h.dropped + {ctl.pc.task} else h.dropped)
    && h'.slotOf == (if ctl.pc.RunSet? && ctl.next.Some? then h.slotOf[ctl.next.value := slot] else h.slotOf)
    && h'.raised == h.raised && h'.charged == h.charged
  }

  /** The history of starts, retirements and drops after a deed. */
  lemma DeedHistory(d: Data, x: Deed)
    requires Can(d, x)
    ensures var h, h' := d.hist, Effect(d, x).hist;
            && h'.destroyed == (if RetiredBy(x).Some? then h.destroyed + {x.task} else h.destroyed)
            && h'.dropped == (if x.DoDrop? then h.dropped + {x.task} else h.dropped)
            && h'.slotOf == (if x.DoStart? then h.slotOf[x.task := d.bufs[d.log[x.task].buf].slot] else h.slotOf)
            && h'.raised == h.raised && h'.charged == h.charged
    ensures Effect(d, x).log == d.log
  {
  }

  lemma WorkHistoryOk(s: State)
    requires Wf(s) && !Stuck(s)
    ensures WorkHistory(s.d.hist, Work(s).hist, s.ctl,
                        if s.ctl.next.Some? then s.d.bufs[s.d.log[s.ctl.next.value].buf].slot else 0)
    ensures Work(s).log == s.d.log
  {
    DeedHistory(s.d, DeedOf(s));
  }

  /** What the order of the list says about the numbers of tasks. */
  predicate Numbered(n: nat, ctl: Ctl) {
    && (ctl.pending != [] ==> ctl.pending[0] == Taken(n, ctl))
    && (ctl.next.Some? ==> ctl.next.value == Taken(n, ctl) - 1)
    && (ctl.running.Some? ==> ctl.running.value < Taken(n, ctl))
  }

  lemma WalkEnd(h: History, h': History, n: nat, ctl: Ctl, sight: Sight, slot: int, t: TaskId)
    requires AtPc(n, ctl) && Numbered(n, ctl) && FateOk(h, n, ctl, t) && WorkHistory(h, h', ctl, slot)
    ensures EndOk(h', n, Walk(ctl, sight), t)
  {
  }

  lemma WalkStart(h: History, h': History, n: nat, ctl: Ctl, sight: Sight, slot: int, t: TaskId)
    requires AtPc(n, ctl) && Numbered(n, ctl) && FateOk(h, n, ctl, t) && WorkHistory(h, h', ctl, slot)
    ensures StartOk(h', n, Walk(ctl, sight), t)
  {
  }
}
