/** Tasks are conserved: none is lost, none is destroyed twice, and the task count of a context is the number of its
    submissions in flight and of its tasks that are not destroyed. */
module Conservation {
  import opened Basics
  import opened Protocol
  import opened Control
  import opened Counting
  import opened Fates
  import opened Invariant
  import opened Runs

  /** The tasks of a context that were put on the list and are not destroyed. */
  function Unfinished(d: Data, c: CtxId): set<TaskId> {
    set t | 0 <= t < |d.log| && d.log[t].ctx == c && t !in d.hist.destroyed
  }

  // ---------- Counting tasks ----------

  function OneSet(log: seq<Task>, id: Option<TaskId>, c: CtxId): (s: set<TaskId>)
    ensures |s| == One(log, id, c)
  {
    if id.Some? && id.value < |log| && log[id.value].ctx == c then {id.value} else {}
  }

  /** The tasks of a context from number `lo` on. */
  function From(log: seq<Task>, lo: nat, c: CtxId): set<TaskId> { set t | lo <= t < |log| && log[t].ctx == c }

  lemma {:induction false} OwnedIsFrom(log: seq<Task>, ids: seq<TaskId>, lo: nat, c: CtxId)
    requires lo + |ids| == |log| && forall i :: 0 <= i < |ids| ==> ids[i] == lo + i
    ensures Owned(log, ids, c) == |From(log, lo, c)|
  {
    if ids == [] {
      assert From(log, lo, c) == {};
    } else {
      OwnedIsFrom(log, ids[1..], lo + 1, c);
      assert From(log, lo, c) == OneSet(log, Some(lo), c) + From(log, lo + 1, c);
    }
  }

  /** At most one task each is running, held and prefetched, and these are three different tasks. */
  lemma AliveApart(n: nat, ctl: Ctl)
    requires Controlled(n, ctl)
    ensures LiveRunning(ctl).Some? ==> LiveRunning(ctl) != Held(ctl) && LiveRunning(ctl) != Prefetched(ctl)
    ensures Held(ctl).Some? ==> Held(ctl) != Prefetched(ctl)
  {
  }

  /** Membership in the four places where an unfinished task can be. */
  lemma UnfinishedPart(d: Data, ctl: Ctl, lo: nat, c: CtxId, t: TaskId)
    requires t < |d.log| ==> (t in d.hist.destroyed <==> t < lo && !Alive(ctl, t))
    ensures t in Unfinished(d, c) <==>
              || t in OneSet(d.log, LiveRunning(ctl), c) || t in OneSet(d.log, Held(ctl), c)
              || t in OneSet(d.log, Prefetched(ctl), c) || t in From(d.log, lo, c)
  {
  }

  lemma UnfinishedParts(d: Data, ctl: Ctl, lo: nat, c: CtxId)
    requires forall t :: 0 <= t < |d.log| ==> (t in d.hist.destroyed <==> t < lo && !Alive(ctl, t))
    ensures Unfinished(d, c) == OneSet(d.log, LiveRunning(ctl), c) + OneSet(d.log, Held(ctl), c)
                              + OneSet(d.log, Prefetched(ctl), c) + From(d.log, lo, c)
  {
    forall t { UnfinishedPart(d, ctl, lo, c, t); }
  }

  lemma AliveTaken(n: nat, ctl: Ctl)
    requires Controlled(n, ctl)
    ensures LiveRunning(ctl).Some? ==> LiveRunning(ctl).value < Taken(n, ctl)
    ensures Held(ctl).Some? ==> Held(ctl).value < Taken(n, ctl)
    ensures Prefetched(ctl).Some? ==> Prefetched(ctl).value < Taken(n, ctl)
  {
  }

  lemma DisjointSum(a: set<TaskId>, b: set<TaskId>, e: set<TaskId>, f: set<TaskId>)
    requires a !! b !! e !! f
    ensures |a + b + e + f| == |a| + |b| + |e| + |f|
  {
    assert |a + b| == |a| + |b|;
    assert |a + b + e| == |a + b| + |e|;
    assert |a + b + e + f| == |a + b + e| + |f|;
  }

  lemma LiveIsUnfinished(d: Data, ctl: Ctl, c: CtxId)
    requires Controlled(|d.log|, ctl)
    requires forall t :: 0 <= t < |d.log| ==> EndOk(d.hist, |d.log|, ctl, t)
    ensures Live(d.log, ctl, c) == |Unfinished(d, c)|
  {
    var lo := Taken(|d.log|, ctl);
    forall t | 0 <= t < |d.log| ensures t in d.hist.destroyed <==> t < lo && !Alive(ctl, t) {
      assert EndOk(d.hist, |d.log|, ctl, t);
    }
    UnfinishedParts(d, ctl, lo, c);
    OwnedIsFrom(d.log, ctl.pending, lo, c);
    PartsApart(d.log, ctl, c);
    DisjointSum(OneSet(d.log, LiveRunning(ctl), c), OneSet(d.log, Held(ctl), c),
                OneSet(d.log, Prefetched(ctl), c), From(d.log, lo, c));
  }

  lemma PartsApart(log: seq<Task>, ctl: Ctl, c: CtxId)
    requires Controlled(|log|, ctl)
    ensures OneSet(log, LiveRunning(ctl), c) !! OneSet(log, Held(ctl), c)
            !! OneSet(log, Prefetched(ctl), c) !! From(log, Taken(|log|, ctl), c)
  {
    AliveApart(|log|, ctl);
    AliveTaken(|log|, ctl);
  }

  // ---------- The laws ----------

  /** The task count of a context is exact. */
  lemma TaskCountIsExact(s: State, c: CtxId)
    requires Reachable(s) && c in s.d.ctxs
    ensures s.d.ctxs[c].taskCount == |s.d.ctxs[c].inflight| + |Unfinished(s.d, c)|
  {
    ReachableCore(s);
    forall t | 0 <= t < |s.d.log| ensures EndOk(s.d.hist, |s.d.log|, s.ctl, t) { ReachableTask(s, t); }
    LiveIsUnfinished(s.d, s.ctl, c);
  }

  /** Every task ever put on the list is in exactly one place: waiting in the list, with the work thread, or
      destroyed; and a task that is destroyed was either dropped or started, and not both. */
  lemma NoTaskIsLost(s: State, t: TaskId)
    requires Reachable(s) && t < |s.d.log|
    ensures t in s.d.hist.destroyed <==> t !in s.ctl.pending && !Alive(s.ctl, t)
    ensures t in s.ctl.pending ==> !Alive(s.ctl, t)
    ensures t in s.d.hist.destroyed ==> (t in s.d.hist.dropped <==> t !in s.d.hist.slotOf)
  {
    ReachableCore(s);
    ReachableTask(s, t);
    TaskPlace(s.d.hist, |s.d.log|, s.ctl, t);
  }

  lemma TaskPlace(h: History, n: nat, ctl: Ctl, t: TaskId)
    requires Controlled(n, ctl) && t < n && FateOk(h, n, ctl, t)
    ensures t in h.destroyed <==> t !in ctl.pending && !Alive(ctl, t)
    ensures t in ctl.pending ==> !Alive(ctl, t)
    ensures t in h.destroyed ==> (t in h.dropped <==> t !in h.slotOf)
  {
    PendingIsInterval(n, ctl, t);
    AliveTaken(n, ctl);
  }

  lemma PendingIsInterval(n: nat, ctl: Ctl, t: TaskId)
    requires Controlled(n, ctl) && t < n
    ensures t in ctl.pending <==> Taken(n, ctl) <= t
  {
    if Taken(n, ctl) <= t {
      assert ctl.pending[t - Taken(n, ctl)] == t;
    }
  }

  /** Step `i` of a run destroys task `t`. */
  predicate Destroys(states: seq<State>, labels: seq<Label>, i: nat, t: TaskId)
    requires i < |labels| && |states| == |labels| + 1
  {
    labels[i].Worker? && Retires(states[i].ctl.pc) == Some(t)
  }

  lemma RetiresAlive(s: State, t: TaskId)
    requires AtPc(|s.d.log|, s.ctl) && Retires(s.ctl.pc) == Some(t) && FateOk(s.d.hist, |s.d.log|, s.ctl, t)
    ensures t !in s.d.hist.destroyed
  {
  }

  lemma RetiredIsDestroyed(s: State, t: TaskId)
    requires Wf(s) && !Stuck(s) && Retires(s.ctl.pc) == Some(t)
    ensures t in Work(s).hist.destroyed
  {
    WorkHistoryOk(s);
  }

  /** The task is not destroyed before the step, and is after it. */
  lemma DestroysIt(states: seq<State>, labels: seq<Label>, i: nat, t: TaskId)
    requires IsRun(states, labels) && i < |labels| && Destroys(states, labels, i, t)
    ensures t !in states[i].d.hist.destroyed && t in states[i + 1].d.hist.destroyed
  {
    RunStep(states, labels, i);
    NotStuck(states[i]);
    RetiredIsDestroyed(states[i], t);
    PrefixReachable(states, labels, i);
    ReachableTask(states[i], t);
    RetiresAlive(states[i], t);
  }

  /** No task is destroyed twice. */
  lemma DestroyedOnce(states: seq<State>, labels: seq<Label>, i: nat, j: nat, t: TaskId)
    requires IsRun(states, labels) && i < j < |labels| && Destroys(states, labels, i, t)
    ensures !Destroys(states, labels, j, t)
  {
    DestroysIt(states, labels, i, t);
    RunGrows(states, labels, i + 1, j);
    if Destroys(states, labels, j, t) {
      DestroysIt(states, labels, j, t);
    }
  }
}
