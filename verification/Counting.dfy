/** Conservation of tasks: the task count of a context is exactly the number of its tasks that are in flight,
    pending, held, prefetched or running. */
module Counting {
  import opened Basics
  import opened Protocol
  import opened Control

  // ---------- Counting ----------

  /** The number of tasks of a context in a list. */
  function Owned(log: seq<Task>, ids: seq<TaskId>, c: CtxId): nat {
    if ids == [] then 0 else One(log, Some(ids[0]), c) + Owned(log, ids[1..], c)
  }

  function One(log: seq<Task>, id: Option<TaskId>, c: CtxId): nat {
    if id.Some? && id.value < |log| && log[id.value].ctx == c then 1 else 0
  }

  /** The running task, until it is retired. */
  function LiveRunning(ctl: Ctl): Option<TaskId> {
    if ctl.pc.FinFence? || ctl.pc.FinClear? then None else ctl.running
  }

  /** The task just taken from the list, until it is prefetched or retired. */
  function Held(ctl: Ctl): Option<TaskId> {
    match ctl.pc
    case Got(t) => Some(t)
    case DropUnbind(t) => Some(t)
    case DropCount(t) => Some(t)
    case _ => None
  }

  /** The prefetched task, until it is the running task. */
  function Prefetched(ctl: Ctl): Option<TaskId> {
    if ctl.pc.RunCmd? || ctl.pc.RunClear? then None else ctl.next
  }

  /** The number of tasks of a context that were put on the list and not retired. */
  function Live(log: seq<Task>, ctl: Ctl, c: CtxId): nat {
    One(log, LiveRunning(ctl), c) + One(log, Held(ctl), c) + One(log, Prefetched(ctl), c) + Owned(log, ctl.pending, c)
  }

  ghost predicate Counted(d: Data, ctl: Ctl) {
    forall c :: c in d.ctxs ==> d.ctxs[c].taskCount == |d.ctxs[c].inflight| + Live(d.log, ctl, c)
  }

  /** The task that the step of the work thread retires. */
  function Retires(pc: Pc): Option<TaskId> {
    match pc
    case DropCount(t) => Some(t)
    case FinCount(t) => Some(t)
    case _ => None
  }

  lemma WalkLive(log: seq<Task>, ctl: Ctl, sight: Sight, c: CtxId)
    requires AtPc(|log|, ctl)
    ensures Live(log, Walk(ctl, sight), c) + One(log, Retires(ctl.pc), c) == Live(log, ctl, c)
  {
  }

  lemma {:induction false} OwnedAppend(log: seq<Task>, ids: seq<TaskId>, t: Task, c: CtxId)
    requires forall i :: 0 <= i < |ids| ==> ids[i] < |log|
    ensures Owned(log + [t], ids + [|log|], c) == Owned(log, ids, c) + if t.ctx == c then 1 else 0
  {
    if ids != [] {
      assert (ids + [|log|])[1..] == ids[1..] + [|log|];
      OwnedAppend(log, ids[1..], t, c);
    } else {
      assert (ids + [|log|])[1..] == [];
    }
  }

  lemma EnqueueLive(log: seq<Task>, ctl: Ctl, t: Task, c: CtxId)
    requires WfNames(|log|, ctl)
    ensures Live(log + [t], ctl.(pending := ctl.pending + [|log|]), c)
         == Live(log, ctl, c) + if t.ctx == c then 1 else 0
  {
    OwnedAppend(log, ctl.pending, t, c);
  }

  /** The counts change by the retirement of one task, or not at all. */
  ghost predicate CountsKept(d: Data, d': Data, retired: Option<TaskId>) {
    && d'.log == d.log
    && d'.ctxs.Keys == d.ctxs.Keys
    && forall c :: c in d.ctxs ==>
         && d'.ctxs[c].inflight == d.ctxs[c].inflight
         && d'.ctxs[c].taskCount + One(d.log, retired, c) == d.ctxs[c].taskCount
  }

  /** The task that a deed retires. */
  function RetiredBy(x: Deed): Option<TaskId> { if x.DoDrop? || x.DoRetire? then Some(x.task) else None }

  lemma DeedCounts(d: Data, x: Deed, retired: Option<TaskId>)
    requires Can(d, x) && retired == RetiredBy(x)
    ensures CountsKept(d, Effect(d, x), retired)
  {
    match x
    case DoDrop(t) => RetiredCounts(d, t, 0);
    case DoStart(t) => StartedCounts(d, t);
    case DoEnd(t) => LoopEndedCounts(d, t);
    case DoRetire(t, made) => RetiredCounts(d, t, made);
    case _ => assert Effect(d, x).ctxs == d.ctxs;
  }

  lemma WorkCounts(s: State)
    requires Wf(s) && !Stuck(s)
    ensures CountsKept(s.d, Work(s), Retires(s.ctl.pc))
  {
    DeedCounts(s.d, DeedOf(s), Retires(s.ctl.pc));
  }

  lemma RetiredCounts(d: Data, t: TaskId, made: nat)
    requires WfData(d) && t < |d.log|
    ensures CountsKept(d, Retired(d, t, made), Some(t))
  {
  }

  lemma StartedCounts(d: Data, t: TaskId)
    requires WfData(d) && t < |d.log|
    ensures CountsKept(d, Started(d, t), None)
  {
  }

  lemma LoopEndedCounts(d: Data, t: TaskId)
    requires WfData(d) && t < |d.log|
    ensures CountsKept(d, LoopEnded(d, t), None)
  {
  }

  lemma WorkCounted(s: State)
    requires Wf(s) && !Stuck(s) && AtPc(|s.d.log|, s.ctl) && Counted(s.d, s.ctl)
    ensures Counted(Work(s), Walk(s.ctl, See(s)))
  {
    WorkCounts(s);
    forall c { WalkLive(s.d.log, s.ctl, See(s), c); }
  }

  lemma EnqueueCounted(d: Data, ctl: Ctl, sub: Submission, words: seq<Word>)
    requires WfNames(|d.log|, ctl) && InFlight(d, sub) && Counted(d, ctl)
    ensures Counted(Enqueued(d, sub, words), ctl.(pending := ctl.pending + [|d.log|]))
  {
    var t := NewTask(sub, d.bufs[sub.buf].ctx, words, d.bufs[sub.buf].allowed);
    assert |d.ctxs[t.ctx].inflight - multiset{sub}| == |d.ctxs[t.ctx].inflight| - 1;
    forall c { EnqueueLive(d.log, ctl, t, c); }
  }

  lemma {:induction false} OwnedNone(log: seq<Task>, ids: seq<TaskId>, c: CtxId)
    requires forall t :: 0 <= t < |log| ==> log[t].ctx != c
    ensures Owned(log, ids, c) == 0
  {
    if ids != [] {
      OwnedNone(log, ids[1..], c);
    }
  }

  lemma OpenCounted(s: State, c: CtxId)
    requires Wf(s) && Counted(s.d, s.ctl) && c !in s.d.ctxs
    ensures Counted(s.d.(ctxs := s.d.ctxs[c := Ctx(false, 0, Open, multiset{}, 0, false)]), s.ctl)
  {
    assert forall t :: 0 <= t < |s.d.log| ==> TaskWf(s.d.log[t], s.d.ctxs, s.d.bufs);
    OwnedNone(s.d.log, s.ctl.pending, c);
    assert Live(s.d.log, s.ctl, c) == 0;
  }

  lemma BeginCounted(d: Data, ctl: Ctl, sub: Submission)
    requires sub.buf in d.bufs && d.bufs[sub.buf].ctx in d.ctxs && Counted(d, ctl)
    ensures Counted(Begun(d, sub), ctl)
  {
    var c := d.bufs[sub.buf].ctx;
    assert |d.ctxs[c].inflight + multiset{sub}| == |d.ctxs[c].inflight| + 1;
    CountedUpdate(d, Begun(d, sub), ctl, c);
  }

  lemma AbortCounted(d: Data, ctl: Ctl, sub: Submission)
    requires InFlight(d, sub) && Counted(d, ctl)
    ensures Counted(Aborted(d, sub), ctl)
  {
    var c := d.bufs[sub.buf].ctx;
    assert |d.ctxs[c].inflight - multiset{sub}| == |d.ctxs[c].inflight| - 1;
    CountedUpdate(d, Aborted(d, sub), ctl, c);
  }

  /** One context changes, and its count with its submissions. */
  lemma CountedUpdate(d: Data, d': Data, ctl: Ctl, c: CtxId)
    requires Counted(d, ctl) && c in d.ctxs && d'.log == d.log && c in d'.ctxs && d'.ctxs == d.ctxs[c := d'.ctxs[c]]
    requires d'.ctxs[c].taskCount - |d'.ctxs[c].inflight| == d.ctxs[c].taskCount - |d.ctxs[c].inflight|
    ensures Counted(d', ctl)
  {
  }

  lemma UserCounted(s: State, u: UserStep)
    requires Wf(s) && UserEnabled(s.d, u) && Counted(s.d, s.ctl)
    ensures Counted(UserData(s.d, u), UserCtl(s, u))
  {
    match u
    case OpenCtx(c) => OpenCounted(s, c);
    case Begin(sub) => BeginCounted(s.d, s.ctl, sub);
    case Abort(b) => AbortCounted(s.d, s.ctl, Submission(Write, b));
    case Enqueue(sub, words) => EnqueueCounted(s.d, s.ctl, sub, words);
    case _ =>
  }

  lemma DeviceCounted(s: State, step: DeviceStep)
    requires Wf(s) && DeviceEnabled(s.d, step) && Counted(s.d, s.ctl)
    ensures Counted(DeviceData(s, step), DeviceCtl(s, step))
  {
    assert CountsKept(s.d, DeviceData(s, step), None);
    assert DeviceCtl(s, step) == s.ctl.(fence := DeviceCtl(s, step).fence);
  }

  lemma ReleaseCounted(d: Data, ctl: Ctl, r: ReleaseStep)
    requires WfData(d) && ReleaseEnabled(d, r) && Counted(d, ctl)
    ensures Counted(ReleaseData(d, r), ctl)
  {
    forall c { ReleaseCounts(d, r, c); }
  }

  lemma ReleaseCounts(d: Data, r: ReleaseStep, c: CtxId)
    requires WfData(d) && ReleaseEnabled(d, r)
    ensures ReleaseData(d, r).log == d.log && (c in ReleaseData(d, r).ctxs <==> c in d.ctxs)
    ensures c in d.ctxs ==>
              var y := ReleaseData(d, r).ctxs[c];
              y.inflight == d.ctxs[c].inflight && y.taskCount == d.ctxs[c].taskCount
  {
  }

  /** A task that is not retired is counted. */
  lemma LiveCounts(d: Data, ctl: Ctl, t: TaskId)
    requires Counted(d, ctl) && t < |d.log| && d.log[t].ctx in d.ctxs
    requires Some(t) == LiveRunning(ctl) || Some(t) == Held(ctl) || Some(t) == Prefetched(ctl)
    ensures d.ctxs[d.log[t].ctx].taskCount > 0
  {
    assert Live(d.log, ctl, d.log[t].ctx) > 0;
  }
}
