/** Where the work thread is, and what that says about the fence, the prefetched task, the running task and the
    pending list. */
module Control {
  import opened Basics
  import opened Protocol

  /** The number of tasks ever taken from the pending list. */
  function Taken(n: nat, ctl: Ctl): int { n - |ctl.pending| }

  /** The pending list holds the tasks not taken yet, in the order in which they came. */
  ghost predicate InOrder(n: nat, ctl: Ctl) {
    && |ctl.pending| <= n
    && (forall i :: 0 <= i < |ctl.pending| ==> ctl.pending[i] == Taken(n, ctl) + i)
    && (ctl.next.Some? ==> ctl.next.value == Taken(n, ctl) - 1)
    && (ctl.running.Some? ==> ctl.running.value < Taken(n, ctl))
  }

  /** The running task was taken before the prefetched one. */
  predicate RunningFirst(ctl: Ctl) { ctl.running.Some? && ctl.next.Some? ==> ctl.running.value < ctl.next.value }

  /** There is a running task exactly while its fence is awaited or reached. */
  predicate Steady(ctl: Ctl) { (ctl.fence.Idle? <==> ctl.running.None?) && RunningFirst(ctl) }

  /** The work thread took `t` from the list and prefetches nothing. */
  predicate Holds(n: nat, ctl: Ctl, t: TaskId) {
    Steady(ctl) && ctl.next.None? && t == Taken(n, ctl) - 1 && (ctl.running.Some? ==> ctl.running.value < t)
  }

  /** What holds at each place of the work thread. */
  predicate AtPc(n: nat, ctl: Ctl) {
    match ctl.pc
    case Poll => Steady(ctl)
    case PollNext => Steady(ctl)
    case PollFence => Steady(ctl) && ctl.next.Some?
    case PollSlot => ctl.fence.Idle? && ctl.running.None? && ctl.next.Some?
    case PollFree => ctl.fence.Idle? && ctl.running.None? && ctl.next.Some?
    case GetNext => Steady(ctl) && ctl.next.None? && ctl.pending != []
    case BindSlot => ctl.fence.Idle? && ctl.running.None? && ctl.next.Some?
    case RunTask => ctl.fence.Idle? && ctl.running.None? && ctl.next.Some?
    case Finish => ctl.fence.Reached? && ctl.running.Some? && RunningFirst(ctl)
    case Got(t) => Holds(n, ctl, t)
    case DropUnbind(t) => Holds(n, ctl, t)
    case DropCount(t) => Holds(n, ctl, t)
    case RunSet => ctl.fence.Waiting? && ctl.running.None? && ctl.next.Some?
    case RunCmd(_) => ctl.fence.Waiting? && ctl.next.Some? && ctl.running == ctl.next
    case RunClear => ctl.fence.Waiting? && ctl.next.Some? && ctl.running == ctl.next
    case RunFence => ctl.fence.Waiting? && ctl.next.None? && ctl.running.Some?
    case FinUnbind(t) => ctl.fence.Reached? && ctl.running == Some(t) && RunningFirst(ctl)
    case FinCount(t) => ctl.fence.Reached? && ctl.running == Some(t) && RunningFirst(ctl)
    case FinFence => ctl.fence.Reached? && ctl.running.Some? && RunningFirst(ctl)
    case FinClear => ctl.fence.Idle? && ctl.running.Some? && RunningFirst(ctl)
  }

  ghost predicate Controlled(n: nat, ctl: Ctl) { InOrder(n, ctl) && AtPc(n, ctl) }

  lemma WalkInOrder(n: nat, ctl: Ctl, sight: Sight)
    requires Controlled(n, ctl)
    ensures InOrder(n, Walk(ctl, sight))
  {
    var ctl' := Walk(ctl, sight);
    if ctl.pc.GetNext? {
      forall i | 0 <= i < |ctl'.pending| ensures ctl'.pending[i] == Taken(n, ctl') + i {
        assert ctl'.pending[i] == ctl.pending[i + 1];
      }
    } else {
      assert ctl'.pending == ctl.pending;
    }
  }

  lemma WalkAtPc(n: nat, ctl: Ctl, sight: Sight)
    requires AtPc(n, ctl)
    requires ctl.pending != [] ==> ctl.pending[0] == Taken(n, ctl)
    requires ctl.next.Some? ==> ctl.next.value == Taken(n, ctl) - 1
    requires ctl.running.Some? ==> ctl.running.value < Taken(n, ctl)
    ensures AtPc(n, Walk(ctl, sight))
  {
  }

  lemma WalkControlled(n: nat, ctl: Ctl, sight: Sight)
    requires Controlled(n, ctl)
    ensures Controlled(n, Walk(ctl, sight))
  {
    WalkInOrder(n, ctl, sight);
    WalkAtPc(n, ctl, sight);
  }

  lemma EnqueueControlled(n: nat, ctl: Ctl)
    requires Controlled(n, ctl)
    ensures Controlled(n + 1, ctl.(pending := ctl.pending + [n]))
  {
  }

  /** Places of the work thread where the fence of the running task has been fed and not been seen. */
  predicate AwaitsFence(ctl: Ctl) {
    ctl.fence.Waiting? && !ctl.pc.RunSet? && !ctl.pc.RunCmd? && !ctl.pc.RunClear? && !ctl.pc.RunFence?
  }

  lemma ReachedControlled(n: nat, ctl: Ctl)
    requires Controlled(n, ctl) && AwaitsFence(ctl)
    ensures ctl.running.Some?
    ensures Controlled(n, ctl.(fence := Reached))
  {
  }
}
