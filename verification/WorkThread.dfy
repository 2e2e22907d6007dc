/** The work thread as the program it is. Run without interference, every statement of it is a step of the transition
    system, so that the system makes no other choices and takes no other steps than the program. */
module WorkThread {
  import opened Basics
  import opened Slots
  import opened Protocol
  import opened Evolution
  import opened Control
  import opened Binding
  import opened Readers
  import opened WorkerSteps
  import opened Runs
  import opened Progress
  import opened Completion

  // ---------- Steps in a row ----------

  ghost predicate WorksAt(trace: seq<State>, i: nat)
    requires i + 1 < |trace|
  {
    Step(trace[i], Worker, trace[i + 1])
  }

  ghost predicate Works(trace: seq<State>) { |trace| > 0 && forall i :: 0 <= i < |trace| - 1 ==> WorksAt(trace, i) }

  /** `t` is a state after some steps of the work thread from `s`. */
  ghost predicate Follows(s: State, t: State) {
    exists trace :: Works(trace) && trace[0] == s && trace[|trace| - 1] == t
  }

  lemma FollowsSelf(s: State)
    ensures Follows(s, s)
  {
    assert Works([s]);
  }

  lemma FollowsStep(s: State, t: State)
    requires Step(s, Worker, t)
    ensures Follows(s, t)
  {
    var trace := [s, t];
    assert WorksAt(trace, 0);
    assert Works(trace);
  }

  lemma FollowsOn(s: State, t: State, u: State)
    requires Follows(s, t) && Follows(t, u)
    ensures Follows(s, u)
  {
    var a :| Works(a) && a[0] == s && a[|a| - 1] == t;
    var b :| Works(b) && b[0] == t && b[|b| - 1] == u;
    var trace := a + b[1..];
    forall i | 0 <= i < |trace| - 1 ensures WorksAt(trace, i) {
      if i < |a| - 1 {
        assert WorksAt(a, i);
      } else {
        assert WorksAt(b, i - (|a| - 1));
      }
    }
    assert Works(trace) && trace[|trace| - 1] == u;
  }

  lemma NextReachable(s: State, t: State)
    requires Reachable(s) && Step(s, Worker, t)
    ensures Reachable(t)
  {
    ReachableStep(s, Worker);
  }

  lemma {:induction false} TraceReachable(s: State, trace: seq<State>, i: nat, t: State)
    requires Works(trace) && trace[0] == s && Reachable(s) && i < |trace| && trace[i] == t
    ensures Reachable(t)
    decreases i
  {
    if i > 0 {
      var u := trace[i - 1];
      TraceReachable(s, trace, i - 1, u);
      assert WorksAt(trace, i - 1);
      NextReachable(u, t);
    }
  }

  lemma FollowsReachable(s: State, t: State)
    requires Reachable(s) && Follows(s, t)
    ensures Reachable(t)
  {
    var trace :| Works(trace) && trace[0] == s && trace[|trace| - 1] == t;
    TraceReachable(s, trace, |trace| - 1, t);
  }

  /** A step of the work thread with the lock free. */
  lemma Goes(s: State, t: State)
    requires Wf(s) && !Stuck(s) && s.d.isr.Out? && t == Worked(s)
    ensures Follows(s, t) && Wf(t)
  {
    WorkWf(s);
    WalkNames(|s.d.log|, s.ctl, See(s));
    FollowsStep(s, t);
  }

  function At(s: State, pc: Pc): State { s.(ctl := s.ctl.(pc := pc)) }

  /** A step that only looks at the state. */
  lemma Looks(s: State, pc: Pc)
    requires Wf(s) && !Stuck(s) && s.d.isr.Out? && !Acts(s.ctl.pc) && Walk(s.ctl, See(s)) == s.ctl.(pc := pc)
    ensures Follows(s, At(s, pc))
  {
    assert Work(s) == s.d;
    FollowsStep(s, At(s, pc));
  }

  // ---------- The program ----------

  datatype Event = NoEvent | TaskGetNext | TaskBindSlot | TaskRun | TaskFinish

  /** Where the work thread is once it has chosen an event. */
  function PcOf(e: Event): Pc {
    match e
    case NoEvent => Poll
    case TaskGetNext => GetNext
    case TaskBindSlot => BindSlot
    case TaskRun => RunTask
    case TaskFinish => Finish
  }

  /** The event that the work thread chooses when it looks at a state that nobody changes meanwhile. */
  function EventOf(s: State): Event
    requires Wf(s)
  {
    if s.ctl.fence.Reached? then TaskFinish
    else if s.ctl.next.None? then if s.ctl.pending != [] then TaskGetNext else NoEvent
    else if !s.ctl.fence.Idle? then NoEvent
    else if NextBound(s) then TaskRun
    else if s.d.slots.free > 0 then TaskBindSlot
    else NoEvent
  }

  predicate Unlocked(s: State, pc: Pc) { s.d.isr.Out? && s.ctl.pc == pc }

  lemma FromPollFree(s: State)
    requires Wf(s) && Unlocked(s, PollFree)
    ensures var e := if s.d.slots.free > 0 then TaskBindSlot else NoEvent;
            Follows(s, At(s, PcOf(e)))
  {
    Looks(s, if s.d.slots.free > 0 then BindSlot else Poll);
  }

  lemma FromPollSlot(s: State)
    requires Wf(s) && Unlocked(s, PollSlot) && s.ctl.next.Some?
    ensures var e := if NextBound(s) then TaskRun else if s.d.slots.free > 0 then TaskBindSlot else NoEvent;
            Follows(s, At(s, PcOf(e)))
  {
    if NextBound(s) {
      Looks(s, RunTask);
    } else {
      Looks(s, PollFree);
      FromPollFree(At(s, PollFree));
      FollowsOn(s, At(s, PollFree), At(s, if s.d.slots.free > 0 then BindSlot else Poll));
    }
  }

  lemma FromPollFence(s: State)
    requires Wf(s) && Unlocked(s, PollFence) && !s.ctl.fence.Reached? && s.ctl.next.Some?
    ensures Follows(s, At(s, PcOf(EventOf(s))))
  {
    if s.ctl.fence.Idle? {
      Looks(s, PollSlot);
      FromPollSlot(At(s, PollSlot));
      FollowsOn(s, At(s, PollSlot), At(s, PcOf(EventOf(s))));
    } else {
      Looks(s, Poll);
    }
  }

  lemma FromPollNext(s: State)
    requires Wf(s) && Unlocked(s, PollNext) && !s.ctl.fence.Reached?
    ensures Follows(s, At(s, PcOf(EventOf(s))))
  {
    if s.ctl.next.Some? {
      Looks(s, PollFence);
      FromPollFence(At(s, PollFence));
      FollowsOn(s, At(s, PollFence), At(s, PcOf(EventOf(s))));
    } else {
      Looks(s, if s.ctl.pending != [] then GetNext else Poll);
    }
  }

  /** The steps that look around choose the event that the program chooses. */
  lemma EventSteps(s: State)
    requires Wf(s) && Unlocked(s, Poll)
    ensures Follows(s, At(s, PcOf(EventOf(s))))
  {
    if s.ctl.fence.Reached? {
      Looks(s, Finish);
    } else {
      Looks(s, PollNext);
      FromPollNext(At(s, PollNext));
      FollowsOn(s, At(s, PollNext), At(s, PcOf(EventOf(s))));
    }
  }

  // ---------- What each event amounts to ----------

  /** Both halves of the destruction of a task. */
  function Destroyed(d: Data, t: TaskId, results: nat, drop: bool): Data
    requires WfData(d) && t < |d.log| && WfData(Released(d, t)) && Released(d, t).log == d.log
  {
    if drop then Dropped(Released(d, t), t) else Retired(Released(d, t), t, results)
  }

  lemma ReleasedWf(d: Data, t: TaskId)
    requires WfData(d) && t < |d.log|
    ensures WfData(Released(d, t)) && Released(d, t).log == d.log
  {
    ReleasedGrows(d, t);
    GrowsWf(d, Released(d, t));
  }

  lemma StartedWf(d: Data, t: TaskId)
    requires WfData(d) && t < |d.log|
    ensures WfData(Started(d, t))
  {
    StartedGrows(d, t);
    GrowsWf(d, Started(d, t));
  }

  /** The first `k` commands of the running task are fed. */
  function FedMany(d: Data, t: TaskId, k: nat): Data
    requires WfData(d) && t < |d.log| && k <= |d.log[t].parsed.cmds|
    ensures var r := FedMany(d, t, k); r.log == d.log && r.ctxs == d.ctxs && r.bufs == d.bufs && WfData(r)
    ensures FedMany(d, t, k).isr == d.isr && FedMany(d, t, k).slots == d.slots
  {
    if k == 0 then d else FedOne(FedMany(d, t, k - 1), t, k - 1)
  }

  /** A task is taken from the list, and prefetched or, if its context has failed, destroyed. */
  function AfterGetNext(s: State): State
    requires Wf(s) && s.ctl.pending != []
  {
    var t := s.ctl.pending[0];
    var ctl := s.ctl.(pending := s.ctl.pending[1..], pc := Poll);
    if s.d.ctxs[s.d.log[t].ctx].failed then ReleasedWf(s.d, t); State(ctl, Destroyed(s.d, t, 0, true))
    else State(ctl.(next := Some(t)), s.d)
  }

  function AfterBind(s: State): State
    requires Wf(s) && s.ctl.next.Some? && FreeSlot(s.d.slots) >= 0
  {
    State(s.ctl.(pc := Poll), BoundTo(s.d, s.d.log[s.ctl.next.value].buf, FreeSlot(s.d.slots)))
  }

  /** A task is started, and its commands are fed. */
  function Ran(d: Data, t: TaskId): Data
    requires WfData(d) && t < |d.log|
  {
    StartedWf(d, t);
    LoopEnded(FedMany(Started(d, t), t, |d.log[t].parsed.cmds|), t)
  }

  /** The prefetched task becomes the running task, and its commands and its fence are fed. */
  function AfterRun(s: State): State
    requires Wf(s) && s.ctl.next.Some?
  {
    var t := s.ctl.next.value;
    State(s.ctl.(fence := Waiting, running := Some(t), made := Total(s.d.log[t]), next := None, pc := Poll),
          Fenced(Ran(s.d, t), t))
  }

  /** The running task is destroyed. */
  function AfterFinish(s: State): State
    requires Wf(s) && s.ctl.running.Some?
  {
    var t := s.ctl.running.value;
    ReleasedWf(s.d, t);
    State(s.ctl.(fence := Idle, running := None, pc := Poll), Destroyed(s.d, t, s.ctl.made, false))
  }

  lemma DropSteps(s: State, t: TaskId)
    requires Wf(s) && Unlocked(s, DropUnbind(t))
    ensures WfData(Released(s.d, t)) && Released(s.d, t).log == s.d.log
    ensures Follows(s, State(s.ctl.(pc := Poll), Destroyed(s.d, t, 0, true)))
  {
    ReleasedWf(s.d, t);
    var s1 := State(s.ctl.(pc := DropCount(t)), Released(s.d, t));
    Goes(s, s1);
    DropLast(s1, t);
    FollowsOn(s, s1, State(s.ctl.(pc := Poll), Destroyed(s.d, t, 0, true)));
  }

  lemma DropLast(s: State, t: TaskId)
    requires Wf(s) && Unlocked(s, DropCount(t))
    ensures Follows(s, State(s.ctl.(pc := Poll), Dropped(s.d, t)))
  {
    Goes(s, State(s.ctl.(pc := Poll), Dropped(s.d, t)));
  }

  lemma UnbindSteps(s: State, t: TaskId)
    requires Wf(s) && Unlocked(s, FinUnbind(t))
    ensures WfData(Released(s.d, t)) && Released(s.d, t).log == s.d.log
    ensures Follows(s, State(s.ctl.(pc := FinFence), Destroyed(s.d, t, s.ctl.made, false)))
  {
    ReleasedWf(s.d, t);
    var s1 := State(s.ctl.(pc := FinCount(t)), Released(s.d, t));
    Goes(s, s1);
    CountLast(s1, t);
    FollowsOn(s, s1, State(s.ctl.(pc := FinFence), Destroyed(s.d, t, s.ctl.made, false)));
  }

  lemma CountLast(s: State, t: TaskId)
    requires Wf(s) && Unlocked(s, FinCount(t))
    ensures Follows(s, State(s.ctl.(pc := FinFence), Retired(s.d, t, s.ctl.made)))
  {
    Goes(s, State(s.ctl.(pc := FinFence), Retired(s.d, t, s.ctl.made)));
  }

  lemma GetNextSteps(s: State)
    requires Wf(s) && Unlocked(s, GetNext) && s.ctl.pending != []
    ensures Follows(s, AfterGetNext(s))
  {
    var t := s.ctl.pending[0];
    var s1 := s.(ctl := s.ctl.(pending := s.ctl.pending[1..], pc := Got(t)));
    Goes(s, s1);
    if s.d.ctxs[s.d.log[t].ctx].failed {
      Goes(s1, At(s1, DropUnbind(t)));
      DropSteps(At(s1, DropUnbind(t)), t);
      FollowsOn(s1, At(s1, DropUnbind(t)), AfterGetNext(s));
    } else {
      Goes(s1, AfterGetNext(s));
    }
    FollowsOn(s, s1, AfterGetNext(s));
  }

  lemma BindSteps(s: State)
    requires Wf(s) && Unlocked(s, BindSlot) && !Stuck(s)
    ensures Follows(s, AfterBind(s))
  {
    Goes(s, AfterBind(s));
  }

  lemma FinishSteps(s: State)
    requires Wf(s) && Unlocked(s, Finish) && s.ctl.running.Some?
    ensures Follows(s, AfterFinish(s))
  {
    var t := s.ctl.running.value;
    Goes(s, At(s, FinUnbind(t)));
    DestroySteps(At(s, FinUnbind(t)), t);
    FollowsOn(s, At(s, FinUnbind(t)), AfterFinish(s));
  }

  lemma DestroySteps(s: State, t: TaskId)
    requires Wf(s) && Unlocked(s, FinUnbind(t))
    ensures WfData(Released(s.d, t)) && Released(s.d, t).log == s.d.log
    ensures Follows(s, State(s.ctl.(fence := Idle, running := None, pc := Poll), Destroyed(s.d, t, s.ctl.made, false)))
  {
    UnbindSteps(s, t);
    var s1 := State(s.ctl.(pc := FinFence), Destroyed(s.d, t, s.ctl.made, false));
    DestroyedWf(s.d, t, s.ctl.made);
    LastSteps(s1);
    FollowsOn(s, s1, State(s.ctl.(fence := Idle, running := None, pc := Poll), Destroyed(s.d, t, s.ctl.made, false)));
  }

  lemma DestroyedWf(d: Data, t: TaskId, results: nat)
    requires WfData(d) && t < |d.log| && WfData(Released(d, t)) && Released(d, t).log == d.log
    ensures WfData(Destroyed(d, t, results, false)) && Destroyed(d, t, results, false).log == d.log
    ensures Destroyed(d, t, results, false).isr == d.isr
  {
    RetiredGrows(Released(d, t), t, results);
    GrowsWf(Released(d, t), Retired(Released(d, t), t, results));
  }

  lemma LastSteps(s: State)
    requires Wf(s) && Unlocked(s, FinFence)
    ensures Follows(s, s.(ctl := s.ctl.(fence := Idle, running := None, pc := Poll)))
  {
    var s1 := s.(ctl := s.ctl.(fence := Idle, pc := FinClear));
    Goes(s, s1);
    var s2 := s.(ctl := s.ctl.(fence := Idle, running := None, pc := Poll));
    Goes(s1, s2);
    FollowsOn(s, s1, s2);
  }

  /** The running task after `k` of its commands. */
  function FedState(s: State, t: TaskId, k: nat): State
    requires Wf(s) && t < |s.d.log| && k <= |s.d.log[t].parsed.cmds|
  {
    State(s.ctl.(made := SumTo(s.d.log[t].counts, k), pc := RunCmd(k)), FedMany(s.d, t, k))
  }

  lemma FeedStep(s: State, t: TaskId, k: nat)
    requires Wf(s) && Unlocked(s, RunCmd(0)) && s.ctl.next == Some(t)
    requires k < |s.d.log[t].parsed.cmds| && Bound(s.d, s.d.log[t].buf)
    ensures Step(FedState(s, t, k), Worker, FedState(s, t, k + 1))
  {
    SendStep(FedState(s, t, k), t, k);
  }

  lemma SendStep(s: State, t: TaskId, k: nat)
    requires Wf(s) && Unlocked(s, RunCmd(k)) && s.ctl.next == Some(t) && k < |s.d.log[t].parsed.cmds|
    requires Bound(s.d, s.d.log[t].buf)
    ensures Step(s, Worker,
            State(s.ctl.(made := s.ctl.made + s.d.log[t].counts[k], pc := RunCmd(k + 1)), FedOne(s.d, t, k)))
  {
    assert DeedOf(s) == DoSend(t, k);
  }

  function FeedTrace(s: State, t: TaskId, n: nat): seq<State>
    requires Wf(s) && t < |s.d.log| && n <= |s.d.log[t].parsed.cmds|
  {
    seq(n + 1, k requires 0 <= k < n + 1 => FedState(s, t, k))
  }

  lemma FeedSteps(s: State, t: TaskId, n: nat)
    requires Wf(s) && Unlocked(s, RunCmd(0)) && s.ctl.next == Some(t) && s.ctl.made == 0
    requires n <= |s.d.log[t].parsed.cmds| && Bound(s.d, s.d.log[t].buf)
    ensures Follows(s, FedState(s, t, n))
  {
    var trace := FeedTrace(s, t, n);
    forall k | 0 <= k < |trace| - 1 ensures WorksAt(trace, k) { FeedStep(s, t, k); }
    assert FedState(s, t, 0) == s;
    Exhibit(trace, s, FedState(s, t, n));
  }

  lemma Exhibit(trace: seq<State>, s: State, t: State)
    requires Works(trace) && trace[0] == s && trace[|trace| - 1] == t
    ensures Follows(s, t)
  {
  }

  /** The start of the prefetched task. */
  lemma StartSteps(s: State)
    requires Wf(s) && Unlocked(s, RunTask) && s.ctl.next.Some? && Bound(s.d, s.d.log[s.ctl.next.value].buf)
    ensures var t := s.ctl.next.value;
            Follows(s, State(s.ctl.(fence := Waiting, running := Some(t), made := 0, pc := RunCmd(0)), Started(s.d, t)))
  {
    var t := s.ctl.next.value;
    var s1 := s.(ctl := s.ctl.(fence := Waiting, pc := RunSet));
    Goes(s, s1);
    var s2 := State(s.ctl.(fence := Waiting, running := Some(t), made := 0, pc := RunCmd(0)), Started(s.d, t));
    Goes(s1, s2);
    FollowsOn(s, s1, s2);
  }

  /** The end of the running task, from the last of its commands on. */
  lemma EndSteps(s: State, t: TaskId)
    requires Wf(s) && s.ctl.running == s.ctl.next == Some(t) && Unlocked(s, RunCmd(|s.d.log[t].parsed.cmds|))
    requires Bound(s.d, s.d.log[t].buf)
    ensures Follows(s, State(s.ctl.(next := None, pc := Poll), Fenced(LoopEnded(s.d, t), t)))
  {
    var s1 := State(s.ctl.(pc := RunClear), LoopEnded(s.d, t));
    assert DeedOf(s) == DoEnd(t);
    Goes(s, s1);
    FenceSteps(s1, t);
    FollowsOn(s, s1, State(s.ctl.(next := None, pc := Poll), Fenced(LoopEnded(s.d, t), t)));
  }

  lemma FenceSteps(s: State, t: TaskId)
    requires Wf(s) && s.ctl.running == Some(t) && Unlocked(s, RunClear)
    ensures Follows(s, State(s.ctl.(next := None, pc := Poll), Fenced(s.d, t)))
  {
    var s1 := State(s.ctl.(next := None, pc := RunFence), s.d);
    Goes(s, s1);
    var s2 := State(s.ctl.(next := None, pc := Poll), Fenced(s.d, t));
    assert DeedOf(s1) == DoFence(t);
    Goes(s1, s2);
    FollowsOn(s, s1, s2);
  }

  lemma RunSteps(s: State)
    requires Wf(s) && Unlocked(s, RunTask) && s.ctl.next.Some? && Bound(s.d, s.d.log[s.ctl.next.value].buf)
    ensures Follows(s, AfterRun(s))
  {
    var t := s.ctl.next.value;
    StartedWf(s.d, t);
    var s1 := State(s.ctl.(fence := Waiting, running := Some(t), made := 0, pc := RunCmd(0)), Started(s.d, t));
    StartSteps(s);
    var n := |s.d.log[t].parsed.cmds|;
    FeedSteps(s1, t, n);
    FollowsOn(s, s1, FedState(s1, t, n));
    EndSteps(FedState(s1, t, n), t);
    FollowsOn(s, FedState(s1, t, n), AfterRun(s));
  }

  // ---------- One round of the loop ----------

  ghost predicate Ready(s: State) {
    && Wf(s)
    && (EventOf(s).TaskBindSlot? ==> FreeSlot(s.d.slots) >= 0)
    && (EventOf(s).TaskFinish? ==> s.ctl.running.Some?)
  }

  lemma PollIsReady(s: State)
    requires Wf(s) && AtPc(|s.d.log|, s.ctl) && s.d.slots.free == CountFree(s.d.slots.table) && s.ctl.pc.Poll?
    ensures Ready(s)
  {
    FreeSlotOk(s.d.slots);
  }

  /** One round of the loop of the work thread: the choice of an event, and the event. */
  function RoundOf(s: State): State
    requires Ready(s)
  {
    match EventOf(s)
    case NoEvent => s
    case TaskGetNext => AfterGetNext(s)
    case TaskBindSlot => AfterBind(s)
    case TaskRun => AfterRun(s)
    case TaskFinish => AfterFinish(s)
  }

  lemma EventFollows(s: State)
    requires Ready(s) && s.d.isr.Out?
    ensures var e := EventOf(s); Follows(At(s, PcOf(e)), if e.NoEvent? then At(s, Poll) else RoundOf(s))
  {
    var s1 := At(s, PcOf(EventOf(s)));
    match EventOf(s)
    case NoEvent => FollowsSelf(s1);
    case TaskGetNext => GetNextSteps(s1);
    case TaskBindSlot => BindSteps(s1);
    case TaskRun => RunSteps(s1);
    case TaskFinish => FinishSteps(s1);
  }

  /** One round of the program is a number of steps of the transition system. */
  lemma RoundFollows(s: State)
    requires Reachable(s) && Unlocked(s, Poll)
    ensures Ready(s) && Follows(s, RoundOf(s)) && Reachable(RoundOf(s))
  {
    ReachableCore(s);
    PollIsReady(s);
    EventSteps(s);
    EventFollows(s);
    FollowsOn(s, At(s, PcOf(EventOf(s))), RoundOf(s));
    FollowsReachable(s, RoundOf(s));
  }
}
