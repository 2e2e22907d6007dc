/** The program itself: the fields of the device structure, the loop of the work thread, the interrupt handler, and the
    critical sections of submission and release. Every piece is the step, or the steps, of the transition system that
    stand for it, and leaves what the next piece asks for, so that whatever is called in whatever order leads to
    reachable states only (`Serve`). */
module Program {
  import opened Basics
  import opened Words
  import opened Commands
  import opened Slots
  import opened Iterators
  import opened FeedPort
  import opened Translator
  import opened Protocol
  import opened Binding
  import opened Script
  import opened Readers
  import opened Invariant
  import opened DeviceSteps
  import opened Runs
  import opened Safety
  import opened Completion
  import opened Stream
  import opened WorkThread
  import Results

  /** The slot of a buffer is a place of the table, if it is bound. */
  predicate SlotOk(d: Data, b: BufId) {
    b in d.bufs ==> d.bufs[b].slot == NO_SLOT || 0 <= d.bufs[b].slot < |d.slots.table|
  }

  /** The buffer is neither on the list of its context nor in a slot. */
  predicate Closed(d: Data, b: BufId) { b in d.bufs && !d.bufs[b].life.ctxRef && d.bufs[b].slot == NO_SLOT }

  /** The buffer is on the list of the context, which is being closed. */
  predicate ToClose(d: Data, c: CtxId, b: BufId) {
    b in d.bufs && d.bufs[b].ctx == c && d.bufs[b].life.ctxRef && c in d.ctxs && d.ctxs[c].phase.Closing?
  }

  lemma CloseStep(s: State, c: CtxId, b: BufId)
    requires Reachable(s) && s.d.isr.Out? && ToClose(s.d, c, b)
    ensures SlotOk(s.d, b) && Reachable(s.(d := ClosedOne(s.d, b)))
  {
    ReachableCore(s);
    ReachableStep(s, Rel(CloseBuf(b)));
  }

  lemma CloseOther(d: Data, b: BufId, x: BufId)
    requires b in d.bufs && SlotOk(d, b)
    ensures Closed(ClosedOne(d, b), b)
    ensures x in d.bufs && x != b ==> ClosedOne(d, b).bufs[x] == d.bufs[x]
    ensures ClosedOne(d, b).ctxs == d.ctxs && ClosedOne(d, b).isr == d.isr && ClosedOne(d, b).bufs.Keys == d.bufs.Keys
  {
  }

  /** The buffers of a list are taken off it one after the other. */
  function ClosedMany(d: Data, list: seq<BufId>): Data
    decreases |list|
  {
    if list == [] || list[0] !in d.bufs then d else ClosedMany(ClosedOne(d, list[0]), list[1..])
  }

  /** All buffers of the list are on the list of the context, once each. */
  ghost predicate IsList(d: Data, c: CtxId, list: seq<BufId>) {
    && (forall i :: 0 <= i < |list| ==> ToClose(d, c, list[i]))
    && (forall i, j :: 0 <= i < j < |list| ==> list[i] != list[j])
  }

  lemma ListTail(d: Data, c: CtxId, list: seq<BufId>)
    requires IsList(d, c, list) && list != [] && SlotOk(d, list[0])
    ensures IsList(ClosedOne(d, list[0]), c, list[1..])
  {
    forall i | 0 <= i < |list[1..]| ensures ToClose(ClosedOne(d, list[0]), c, list[1..][i]) {
      assert ToClose(d, c, list[i + 1]);
      CloseOther(d, list[0], list[i + 1]);
    }
  }

  /** The first buffer of the list is closed: a step, after which the rest is still to be closed. */
  lemma CloseHead(s: State, c: CtxId, list: seq<BufId>)
    requires Reachable(s) && s.d.isr.Out? && IsList(s.d, c, list) && list != []
    ensures SlotOk(s.d, list[0]) && list[0] in s.d.bufs
    ensures var d := ClosedOne(s.d, list[0]);
            && Reachable(s.(d := d)) && d.isr.Out? && IsList(d, c, list[1..])
            && ClosedMany(s.d, list) == ClosedMany(d, list[1..])
  {
    CloseStep(s, c, list[0]);
    CloseOther(s.d, list[0], list[0]);
    ListTail(s.d, c, list);
  }

  /** The rest of the list is still to be closed, and will lead to `r`. */
  ghost predicate StillToClose(s: State, c: CtxId, list: seq<BufId>, r: Data) {
    Reachable(s) && s.d.isr.Out? && IsList(s.d, c, list) && ClosedMany(s.d, list) == r
  }

  /** The loop over the list is so many steps; it closes the buffers of the list, and leaves the others alone. */
  lemma {:induction false} CloseSteps(s: State, c: CtxId, list: seq<BufId>, x: BufId)
    requires Reachable(s) && s.d.isr.Out? && IsList(s.d, c, list) && x in s.d.bufs
    ensures var r := ClosedMany(s.d, list);
            && Reachable(s.(d := r)) && r.bufs.Keys == s.d.bufs.Keys
            && (x in list ==> Closed(r, x)) && (x !in list ==> r.bufs[x] == s.d.bufs[x])
    decreases |list|
  {
    if list == [] {
      assert s.(d := ClosedMany(s.d, list)) == s;
    } else {
      CloseHead(s, c, list);
      CloseOther(s.d, list[0], x);
      CloseSteps(s.(d := ClosedOne(s.d, list[0])), c, list[1..], x);
      assert list == [list[0]] + list[1..];
    }
  }

  /** Afterwards the context can be freed, and none of its buffers is in a slot. */
  lemma ListIsClosed(s: State, c: CtxId, list: seq<BufId>)
    requires Reachable(s) && s.d.isr.Out? && IsList(s.d, c, list)
    requires forall b :: b in s.d.bufs && s.d.bufs[b].ctx == c && s.d.bufs[b].life.ctxRef ==> b in list
    ensures NoneListed(ClosedMany(s.d, list).bufs, c)
    ensures forall b :: b in list ==> Closed(ClosedMany(s.d, list), b)
  {
    var r := ClosedMany(s.d, list);
    forall b | b in r.bufs && r.bufs[b].ctx == c ensures !r.bufs[b].life.ctxRef {
      if list != [] {
        CloseSteps(s, c, list, list[0]);
      }
      CloseSteps(s, c, list, b);
    }
    forall b | b in list ensures Closed(r, b) {
      var i :| 0 <= i < |list| && list[i] == b;
      assert ToClose(s.d, c, list[i]);
      CloseSteps(s, c, list, b);
    }
  }

  /** The handler has read the interrupt register. */
  function HandlerIn(s: State): State { s.(d := s.d.(isr := In(ReadStatus(s.d.dev.reg)))) }

  /** The run-time checks of the handler hold. */
  lemma FindsRunning(s: State)
    requires Reachable(s) && s.d.isr.In?
    ensures s.d.isr.st.cmd || s.d.isr.st.mem || s.d.isr.st.fence
            ==> s.ctl.running.Some? && s.ctl.running.value < |s.d.log|
  {
    if s.d.isr.st.cmd || s.d.isr.st.mem || s.d.isr.st.fence {
      HandlerFindsTask(s);
    }
  }

  lemma ReadReachable(s: State)
    requires Reachable(s) && s.d.isr.Out?
    ensures Reachable(HandlerIn(s)) && Wf(HandlerIn(s))
  {
    ReachableCore(s);
    ReachableStep(s, Dev(IsrRead));
    ReachableCore(HandlerIn(s));
  }

  datatype WriteResult = Queued | NotPermitted | NoCopy

  // ---------- Submission of a write ----------

  /** A submission that is given up leaves no trace. */
  lemma AbortUndoesBegin(d: Data, sub: Submission)
    requires sub.buf in d.bufs && d.bufs[sub.buf].ctx in d.ctxs
    ensures InFlight(Begun(d, sub), sub) && Aborted(Begun(d, sub), sub) == d
  {
    var c := d.bufs[sub.buf].ctx;
    assert d.ctxs[c].inflight + multiset{sub} - multiset{sub} == d.ctxs[c].inflight;
    assert d.ctxs[c := d.ctxs[c]] == d.ctxs;
  }

  /** The state after both steps of a write. */
  function AfterWrite(s: State, b: BufId, cmd: seq<Word>): State
    requires b in s.d.bufs && s.d.bufs[b].ctx in s.d.ctxs
  {
    AbortUndoesBegin(s.d, Submission(Write, b));
    State(s.ctl.(pending := s.ctl.pending + [|s.d.log|]),
          Enqueued(Begun(s.d, Submission(Write, b)), Submission(Write, b), cmd))
  }

  /** A write is two steps, and in the end its context counts one more task and has in flight what it had. */
  lemma WriteSteps(s: State, b: BufId, cmd: seq<Word>)
    requires Reachable(s) && s.d.isr.Out? && b in s.d.bufs && s.d.bufs[b].life.userRef && !s.d.bufs[b].life.destroyed
    requires s.d.bufs[b].ctx in s.d.ctxs && Ends(cmd, s.d.bufs[b].allowed)
    ensures Reachable(AfterWrite(s, b, cmd))
    ensures var c := s.d.bufs[b].ctx;
            var x, y := s.d.ctxs[c], AfterWrite(s, b, cmd).d.ctxs[c];
            y.taskCount == x.taskCount + 1 && y.inflight == x.inflight
  {
    var sub := Submission(Write, b);
    ReachableWf(s);
    ReachableStep(s, User(Begin(sub)));
    var s1 := s.(d := Begun(s.d, sub));
    ReachableWf(s1);
    AbortUndoesBegin(s.d, sub);
    ReachableStep(s1, User(Enqueue(sub, cmd)));
    assert s.d.ctxs[s.d.bufs[b].ctx].inflight + multiset{sub} - multiset{sub} == s.d.ctxs[s.d.bufs[b].ctx].inflight;
  }

  lemma WriteReaches(s: State, b: BufId, cmd: seq<Word>)
    requires Reachable(s) && s.d.isr.Out? && b in s.d.bufs && s.d.bufs[b].life.userRef && !s.d.bufs[b].life.destroyed
    ensures s.d.bufs[b].ctx in s.d.ctxs
    ensures Ends(cmd, s.d.bufs[b].allowed) ==> Reachable(AfterWrite(s, b, cmd))
  {
    BufferContext(s, b);
    if Ends(cmd, s.d.bufs[b].allowed) {
      WriteSteps(s, b, cmd);
    }
  }

  lemma BufferContext(s: State, b: BufId)
    requires Reachable(s) && b in s.d.bufs
    ensures s.d.bufs[b].ctx in s.d.ctxs
  {
    ReachableWf(s);
  }

  // ---------- The commands of a task ----------

  /** The device with the commands of a task at the end of its queue. */
  function Issued(dev: Device, t: TaskId, cmds: seq<UserCmd>, slot: int): Device {
    if cmds == [] then dev
    else Feed(Issued(dev, t, cmds[..|cmds| - 1], slot), TaskReq(cmds[|cmds| - 1], slot), Some(t))
  }

  lemma {:induction false} FedManyIs(d: Data, t: TaskId, k: nat)
    requires WfData(d) && t < |d.log| && k <= |d.log[t].parsed.cmds|
    ensures FedMany(d, t, k)
         == d.(dev := Issued(d.dev, t, d.log[t].parsed.cmds[..k], d.bufs[d.log[t].buf].slot))
  {
    if k > 0 {
      FedManyIs(d, t, k - 1);
      assert d.log[t].parsed.cmds[..k][..k - 1] == d.log[t].parsed.cmds[..k - 1];
    }
  }

  /** The words of the commands of a task. */
  lemma {:induction false} IssuedWords(dev: Device, t: TaskId, cmds: seq<UserCmd>, slot: Slot)
    requires Ranged(dev.fed)
    ensures Ranged(Issued(dev, t, cmds, slot).fed)
    ensures StreamOf(Issued(dev, t, cmds, slot).fed) == StreamOf(dev.fed) + FedWords(cmds, SlotBits(slot))
  {
    if cmds != [] {
      var n := |cmds| - 1;
      IssuedWords(dev, t, cmds[..n], slot);
      StreamAppend(Issued(dev, t, cmds[..n], slot).fed, Fed(TaskReq(cmds[n], slot), Some(t)));
    }
  }

  /** What the translation of a task feeds and publishes. */
  lemma FedAll(d: Data, t: TaskId)
    requires WfData(d) && t < |d.log| && Translated(d.log[t], d.bufs[d.log[t].buf].allowed)
    ensures var cmds := d.log[t].parsed.cmds;
            && FedMany(d, t, |cmds|) == d.(dev := Issued(d.dev, t, cmds, d.bufs[d.log[t].buf].slot))
            && Total(d.log[t]) == PublishedSum(cmds)
  {
    var cmds := d.log[t].parsed.cmds;
    FedManyIs(d, t, |cmds|);
    Results.SumIsPublished(cmds, d.log[t].counts, |cmds|);
    assert cmds[..|cmds|] == cmds;
  }

  /** The words of every task are those that its iterator hands out. */
  ghost predicate HandedOut(tasks: seq<Task>, sources: seq<TaskSource>) {
    |sources| == |tasks| && forall t :: 0 <= t < |tasks| ==> IsSource(tasks[t], sources[t])
  }

  ghost predicate IsSource(task: Task, source: TaskSource) { ValidSource(source) && Handed(source) == task.words }

  /** The task can be run: it is what the translation makes of the words handed out, and its buffer is bound. */
  ghost predicate Runnable(task: Task, source: TaskSource, buf: Buf) {
    IsSource(task, source) && Translated(task, buf.allowed) && 0 <= buf.slot < NUM_SLOTS
  }

  lemma HandedOutMore(tasks: seq<Task>, sources: seq<TaskSource>, task: Task, source: TaskSource)
    requires HandedOut(tasks, sources) && IsSource(task, source)
    ensures HandedOut(tasks + [task], sources + [source])
  {
  }

  /** What a round of the work thread needs. */
  lemma RoundNeeds(s: State, sources: seq<TaskSource>)
    requires Reachable(s) && Unlocked(s, Poll) && HandedOut(s.d.log, sources)
    ensures Wf(s) && TableOk(s.d.slots, s.d.bufs)
    ensures EventOf(s).TaskRun? ==>
              var t := s.ctl.next.value;
              Runnable(s.d.log[t], sources[t], s.d.bufs[s.d.log[t].buf])
  {
    ReachableCore(s);
    if EventOf(s).TaskRun? {
      ReachableTask(s, s.ctl.next.value);
    }
  }

  lemma HandleReachable(s: State)
    requires Reachable(s) && Wf(s) && s.d.isr.In?
    ensures Reachable(Signalled(s, IsrHandle)) && Signalled(s, IsrHandle).d.isr.Out?
  {
    ReachableStep(s, Dev(IsrHandle));
  }

  lemma StartReachable()
    ensures Reachable(INITIAL)
  {
    var labels: seq<Label> := [];
    assert IsRun([INITIAL], labels) && [INITIAL][|labels|] == INITIAL;
  }

  /** What may happen to the driver between two rounds of the work thread. */
  datatype Call =
    | Round
    | Irq
    | WriteTo(buf: BufId, cmd: seq<Word>, copied: bool)
    | DeviceDoes(step: DeviceStep)

  class Driver {
    const port: Port
    var pendingTasks: seq<TaskId>
    var nextTask: Option<TaskId>
    var runningTask: Option<TaskId>
    var resultCount: nat
    var fenceState: FenceState
    var tasks: seq<Task>
    var sources: seq<TaskSource>
    var ctxs: map<CtxId, Ctx>
    var bufs: map<BufId, Buf>
    var slots: SlotTable
    var dev: Device
    var isr: Isr
    ghost var hist: History

    constructor ()
      ensures Now(Poll) == INITIAL && Reachable(Now(Poll)) && Valid() && fresh(port)
    {
      StartReachable();
      port := new Port();
      pendingTasks, nextTask, runningTask, resultCount, fenceState := [], None, None, 0, Idle;
      tasks, sources, ctxs, bufs := [], [], map[], map[];
      slots, dev, isr, hist := INITIAL.d.slots, INITIAL.d.dev, Out, INITIAL.d.hist;
    }

    ghost function Now(pc: Pc): State
      reads this
    {
      State(Ctl(pendingTasks, nextTask, runningTask, resultCount, fenceState, pc),
            Data(tasks, ctxs, bufs, slots, dev, isr, hist))
    }

    /** Chooses an event, partly without the lock. */
    method GetEvent() returns (e: Event)
      requires Wf(Now(Poll))
      ensures e == EventOf(Now(Poll))
    {
      if fenceState.Reached? {
        return TaskFinish;
      }
      if nextTask.None? {
        return if pendingTasks != [] then TaskGetNext else NoEvent;
      }
      if !fenceState.Idle? {
        return NoEvent;
      }
      if bufs[tasks[nextTask.value].buf].slot == NO_SLOT {
        return if slots.free > 0 then TaskBindSlot else NoEvent;
      }
      e := TaskRun;
    }

    ghost function Rest(): Data
      reads `tasks, `ctxs, `bufs, `slots, `dev, `isr, `hist
    {
      Data(tasks, ctxs, bufs, slots, dev, isr, hist)
    }

    /** The words written to the feed register are those of the commands issued. */
    ghost predicate Wired()
      reads `dev, port
    {
      Ranged(dev.fed) && port.stream == StreamOf(dev.fed)
    }

    ghost predicate Valid()
      reads this, port
    {
      HandedOut(tasks, sources) && Wired()
    }

    /** Writes a command of the driver or of a task to the feed register. */
    method Issue(req: Request, tag: Option<TaskId>)
      requires Wired() && InRange(req)
      modifies `dev, port
      ensures Wired() && dev == Feed(old(dev), req, tag)
    {
      StreamAppend(dev.fed, Fed(req, tag));
      port.FeedCmd(Encode(CmdOf(req)));
      dev := Feed(dev, req, tag);
    }

    // ---------- Critical sections ----------

    method UnbindSlot(b: BufId)
      requires Wired() && b in bufs && 0 <= bufs[b].slot < |slots.table| == NUM_SLOTS
      modifies `slots, `bufs, `dev, port
      ensures Wired() && Rest() == Unbound(old(Rest()), b)
    {
      var slot := bufs[b].slot;
      slots := SlotTable(slots.table[slot := None], slots.free + 1);
      bufs := bufs[b := bufs[b].(slot := NO_SLOT)];
      Issue(UnbindReq(slot), None);
    }

    /** Unbinds the buffer of a task that is being destroyed, unless it is kept for the next write. */
    method ReleaseBuffer(t: TaskId)
      requires Wired() && WfData(Rest()) && TableOk(slots, bufs) && t < |tasks|
      modifies `slots, `bufs, `dev, port
      ensures Wired() && Rest() == Released(old(Rest()), t)
    {
      var b := tasks[t].buf;
      if bufs[b].slot != NO_SLOT {
        if tasks[t].kind.Run? || ctxs[tasks[t].ctx].failed {
          UnbindSlot(b);
        }
      }
      bufs := bufs[b := bufs[b].(reader := bufs[b].reader.(last := Some((t, ctxs[tasks[t].ctx].failed))))];
    }

    /** Takes a task out of the count of its context and publishes its results. */
    method RetireTask(t: TaskId, results: nat, ghost drop: bool)
      requires WfData(Rest()) && t < |tasks| && (drop ==> results == 0)
      modifies `ctxs, `bufs, `hist
      ensures Rest() == if drop then Dropped(old(Rest()), t) else Retired(old(Rest()), t, results)
    {
      var c, b := tasks[t].ctx, tasks[t].buf;
      ctxs := ctxs[c := ctxs[c].(taskCount := ctxs[c].taskCount - 1)];
      var r := bufs[b].reader;
      bufs := bufs[b := bufs[b].(reader := r.(count := r.count + results, since := r.since + [(t, results)]))];
      hist := hist.(destroyed := hist.destroyed + {t});
      if drop {
        hist := hist.(dropped := hist.dropped + {t});
      }
    }

    method BindBuffer(b: BufId, k: Slot)
      requires Wired() && b in bufs && |slots.table| == NUM_SLOTS
      modifies `slots, `bufs, `dev, port
      ensures Wired() && Rest() == BoundTo(old(Rest()), b, k)
    {
      var buf := bufs[b];
      slots := SlotTable(slots.table[k := Some(b)], slots.free - 1);
      bufs := bufs[b := buf.(slot := k, reader := Reader(0, 0, [], None))];
      Issue(BindReq(k, buf.seed, buf.allowed, buf.table, b), None);
    }

    // ---------- The events ----------

    /** Destroys a task that was taken from the list and is dropped, or the running task. */
    method DestroyTask(t: TaskId, results: nat, ghost drop: bool)
      requires Wired() && WfData(Rest()) && TableOk(slots, bufs) && t < |tasks| && (drop ==> results == 0)
      modifies `slots, `bufs, `dev, `ctxs, `hist, port
      ensures WfData(Released(old(Rest()), t)) && Released(old(Rest()), t).log == old(tasks)
      ensures Wired() && Rest() == Destroyed(old(Rest()), t, results, drop)
    {
      ReleasedWf(Rest(), t);
      ReleaseBuffer(t);
      RetireTask(t, results, drop);
    }

    /** The loop over the words of the running task: each is read from its pages, checked, and written to the feed
        register with the slot of the output buffer. That is what it takes to issue the commands of the task. */
    method FeedCommands(t: TaskId) returns (verdict: Verdict)
      requires Wired() && WfData(Rest()) && t < |tasks| == |sources|
      requires Runnable(tasks[t], sources[t], bufs[tasks[t].buf])
      modifies `dev, `resultCount, port
      ensures Wired() && Rest() == FedMany(old(Rest()), t, |tasks[t].parsed.cmds|)
      ensures resultCount == Total(tasks[t]) && verdict == tasks[t].parsed.verdict
    {
      var slot := bufs[tasks[t].buf].slot;
      FedAll(Rest(), t);
      IssuedWords(dev, t, tasks[t].parsed.cmds, slot);
      var it := new TaskIterator(sources[t]);
      verdict, resultCount := RunLoop(it, bufs[tasks[t].buf].allowed, SlotBits(slot), port);
      dev := Issued(dev, t, tasks[t].parsed.cmds, slot);
    }

    method GetNextTask()
      requires Wired() && Wf(Now(Poll)) && TableOk(slots, bufs) && pendingTasks != []
      modifies `pendingTasks, `nextTask, `slots, `bufs, `dev, `ctxs, `hist, port
      ensures Wired() && Now(Poll) == AfterGetNext(old(Now(Poll)))
    {
      var t := pendingTasks[0];
      pendingTasks := pendingTasks[1..];
      if ctxs[tasks[t].ctx].failed {
        DestroyTask(t, 0, true);
      } else {
        nextTask := Some(t);
      }
    }

    method BindNextTask()
      requires Wired() && Wf(Now(Poll)) && nextTask.Some? && FreeSlot(slots) >= 0
      modifies `slots, `bufs, `dev, port
      ensures Wired() && Now(Poll) == AfterBind(old(Now(Poll)))
    {
      BindBuffer(tasks[nextTask.value].buf, FreeSlot(slots));
    }

    method RunNextTask()
      requires Wired() && Wf(Now(Poll)) && nextTask.Some? && |tasks| == |sources|
      requires Runnable(tasks[nextTask.value], sources[nextTask.value], bufs[tasks[nextTask.value].buf])
      modifies `fenceState, `runningTask, `nextTask, `resultCount, `ctxs, `dev, `hist, port
      ensures Wired() && Now(Poll) == AfterRun(old(Now(Poll)))
    {
      fenceState := Waiting;
      RunAndFence(nextTask.value, Rest());
    }

    method RunAndFence(t: TaskId, ghost d: Data)
      requires Wired() && d == Rest() && WfData(d) && t < |tasks| == |sources|
      requires Runnable(tasks[t], sources[t], bufs[tasks[t].buf])
      modifies `runningTask, `nextTask, `resultCount, `ctxs, `dev, `hist, port
      ensures Wired() && Rest() == Fenced(Ran(d, t), t)
      ensures runningTask == Some(t) && nextTask.None? && resultCount == Total(tasks[t])
    {
      RunTask(t, d);
      nextTask := None;
      FeedFence(t);
    }

    /** Runs a task: its commands are fed up to the first that is not acceptable, which fails its context. */
    method RunTask(t: TaskId, ghost d: Data)
      requires Wired() && d == Rest() && WfData(d) && t < |tasks| == |sources|
      requires Runnable(tasks[t], sources[t], bufs[tasks[t].buf])
      modifies `runningTask, `resultCount, `ctxs, `dev, `hist, port
      ensures Wired()
      ensures Rest() == Ran(d, t)
      ensures runningTask == Some(t) && resultCount == Total(tasks[t])
    {
      StartTask(t);
      runningTask := Some(t);
      var verdict := FeedCommands(t);
      if verdict.Rejected? {
        Reject(t);
      }
    }

    method FeedFence(t: TaskId)
      requires Wired()
      modifies `dev, port
      ensures Wired() && Rest() == Fenced(old(Rest()), t)
    {
      dev := dev.(awaited := TASK_FENCE, fencePos := |dev.fed|);
      Issue(FenceReq(TASK_FENCE), Some(t));
    }

    /** History only: which slot the task is given, and whether its context has failed already. */
    method StartTask(t: TaskId)
      requires WfData(Rest()) && t < |tasks|
      modifies `ctxs, `hist
      ensures Rest() == Started(old(Rest()), t) && WfData(Rest())
    {
      StartedWf(Rest(), t);
      var c := tasks[t].ctx;
      hist := hist.(slotOf := hist.slotOf[t := bufs[tasks[t].buf].slot]);
      ctxs := ctxs[c := ctxs[c].(lateStarts := ctxs[c].lateStarts + if ctxs[c].failed then 1 else 0)];
    }

    /** A command that is not acceptable fails the context. */
    method Reject(t: TaskId)
      requires WfData(Rest()) && t < |tasks| && tasks[t].parsed.verdict.Rejected?
      modifies `ctxs, `hist
      ensures Rest() == LoopEnded(old(Rest()), t)
    {
      var c := tasks[t].ctx;
      ctxs := ctxs[c := ctxs[c].(failed := true, parseFailed := true)];
      hist := hist.(rejected := hist.rejected + {t});
    }

    method FinishTask()
      requires Wired() && Wf(Now(Poll)) && TableOk(slots, bufs) && runningTask.Some?
      modifies `slots, `bufs, `dev, `ctxs, `hist, `fenceState, `runningTask, port
      ensures Wired() && Now(Poll) == AfterFinish(old(Now(Poll)))
    {
      DestroyTask(runningTask.value, resultCount, false);
      fenceState := Idle;
      runningTask := None;
    }

    /** One round of the loop, with nobody else at work. */
    method RunRound()
      requires Reachable(Now(Poll)) && isr.Out? && Valid()
      modifies `pendingTasks, `nextTask, `runningTask, `resultCount, `fenceState
      modifies `ctxs, `bufs, `slots, `dev, `hist, port
      ensures Ready(old(Now(Poll))) && Now(Poll) == RoundOf(old(Now(Poll)))
      ensures Follows(old(Now(Poll)), Now(Poll)) && Reachable(Now(Poll)) && Valid()
    {
      RoundFollows(Now(Poll));
      RoundNeeds(Now(Poll), sources);
      var e := GetEvent();
      Act(e);
    }

    method Act(e: Event)
      requires Wired() && TableOk(slots, bufs) && Ready(Now(Poll)) && e == EventOf(Now(Poll)) && |tasks| == |sources|
      requires e.TaskRun? ==>
                 Runnable(tasks[nextTask.value], sources[nextTask.value], bufs[tasks[nextTask.value].buf])
      modifies `pendingTasks, `nextTask, `runningTask, `resultCount, `fenceState
      modifies `ctxs, `bufs, `slots, `dev, `hist, port
      ensures Wired() && Now(Poll) == RoundOf(old(Now(Poll)))
    {
      match e
      case NoEvent =>
      case TaskGetNext => GetNextTask();
      case TaskBindSlot => BindNextTask();
      case TaskRun => RunNextTask();
      case TaskFinish => FinishTask();
    }

    /** The loop of the work thread. */
    method RunRounds(n: nat)
      requires Reachable(Now(Poll)) && isr.Out? && Valid()
      modifies `pendingTasks, `nextTask, `runningTask, `resultCount, `fenceState
      modifies `ctxs, `bufs, `slots, `dev, `hist, port
      ensures Follows(old(Now(Poll)), Now(Poll)) && Reachable(Now(Poll)) && Valid()
    {
      ghost var s := Now(Poll);
      FollowsSelf(s);
      for i := 0 to n
        invariant Follows(s, Now(Poll)) && Reachable(Now(Poll)) && Valid()
      {
        ghost var before := Now(Poll);
        RunRound();
        FollowsOn(s, before, Now(Poll));
      }
    }

    // ---------- The interrupt handler ----------

    /** Reads the register, clears what it read, fails the context of the running task on an error and notes the
        fence. The two assertions are the run-time checks of the handler. */
    method Interrupt(ghost pc: Pc)
      requires Reachable(Now(pc)) && isr.Out?
      modifies `isr, `dev, `ctxs, `hist, `fenceState
      ensures Reachable(HandlerIn(old(Now(pc)))) && Wf(HandlerIn(old(Now(pc))))
      ensures Now(pc) == Signalled(HandlerIn(old(Now(pc))), IsrHandle)
    {
      ReadReachable(Now(pc));
      ghost var before := HandlerIn(Now(pc));
      var st := ReadStatus(dev.reg);
      ghost var culprits := Culprits(dev.reg, st);
      FindsRunning(before);
      if st.cmd || st.mem || st.fence || st.slot {
        dev := dev.(reg := Cleared(dev.reg, st));
        if st.cmd || st.mem {
          assert runningTask.Some?;
          FailContext(runningTask.value, culprits);
        }
        if st.fence {
          assert runningTask.Some?;
          fenceState := Reached;
        }
      }
    }

    method FailContext(t: TaskId, ghost culprits: set<TaskId>)
      requires t < |tasks| && tasks[t].ctx in ctxs
      modifies `ctxs, `hist
      ensures var c := tasks[t].ctx;
              && ctxs == old(ctxs)[c := old(ctxs)[c].(failed := true)]
              && hist == old(hist).(charged := old(hist).charged + set x | x in culprits :: (x, c))
    {
      var c := tasks[t].ctx;
      ctxs := ctxs[c := ctxs[c].(failed := true)];
      hist := hist.(charged := hist.charged + set x | x in culprits :: (x, c));
    }

    // ---------- Release of a context ----------

    /** Marks every buffer on the list of the context. */
    method MarkBuffers(c: CtxId, list: seq<BufId>)
      requires forall b :: b in list <==> b in bufs && bufs[b].ctx == c
      modifies `bufs
      ensures bufs == MarkDestroyed(old(bufs), c)
    {
      for i := 0 to |list|
        invariant bufs.Keys == old(bufs).Keys
        invariant forall b :: b in bufs ==>
                    bufs[b] == if b in list[..i] then old(bufs)[b].(life := old(bufs)[b].life.(destroyed := true))
                               else old(bufs)[b]
      {
        var b := list[i];
        bufs := bufs[b := bufs[b].(life := bufs[b].life.(destroyed := true))];
        assert list[..i + 1] == list[..i] + [b];
      }
      assert list[..|list|] == list;
    }

    /** Takes the buffers of the context off its list one by one, each unbound first if it is bound: so many steps of
        the transition system, after which the context can be freed. */
    method CloseBuffers(c: CtxId, list: seq<BufId>, ghost pc: Pc)
      requires Wired() && Reachable(Now(pc)) && isr.Out? && IsList(Rest(), c, list)
      requires forall b :: b in bufs && bufs[b].ctx == c && bufs[b].life.ctxRef ==> b in list
      modifies `bufs, `slots, `dev, port
      ensures Wired() && Reachable(Now(pc)) && NoneListed(bufs, c)
      ensures forall b :: b in list ==> Closed(Rest(), b)
    {
      ghost var s, left, r := Now(pc), list, ClosedMany(Rest(), list);
      ListIsClosed(s, c, list);
      for i := 0 to |list|
        invariant Wired() && Now(pc) == s && left == list[i..] && StillToClose(s, c, left, r)
      {
        CloseHead(s, c, left);
        ReachableWf(s);
        CloseBuffer(list[i]);
        s, left := s.(d := ClosedOne(s.d, left[0])), left[1..];
      }
    }

    method CloseBuffer(b: BufId)
      requires Wired() && b in bufs && SlotOk(Rest(), b) && |slots.table| == NUM_SLOTS
      modifies `bufs, `slots, `dev, port
      ensures Wired() && Rest() == ClosedOne(old(Rest()), b)
    {
      if bufs[b].slot != NO_SLOT {
        UnbindSlot(b);
      }
      bufs := bufs[b := bufs[b].(life := bufs[b].life.(ctxRef := false))];
    }

    // ---------- Submission ----------

    /** A write: it enters unless the context of its buffer is being released, and is put on the list if its words can
        be copied. A write that fails, at whatever point, leaves no trace. */
    method WriteBuffer(b: BufId, cmd: seq<Word>, copied: bool, ghost pc: Pc) returns (r: WriteResult)
      requires Reachable(Now(pc)) && isr.Out? && Valid() && b in bufs && bufs[b].life.userRef
      modifies `ctxs, `tasks, `sources, `pendingTasks
      ensures bufs[b].ctx in old(ctxs) && Valid()
      ensures r.NotPermitted? <==> bufs[b].life.destroyed
      ensures r.Queued? <==> !bufs[b].life.destroyed && copied
      ensures !r.Queued? ==> Now(pc) == old(Now(pc)) && sources == old(sources)
      ensures r.Queued? ==> Now(pc) == AfterWrite(old(Now(pc)), b, cmd) && sources == old(sources) + [WriteSource(cmd)]
      ensures r.Queued? && Ends(cmd, bufs[b].allowed) ==> Reachable(Now(pc))
    {
      var sub := Submission(Write, b);
      ghost var s := Now(pc);
      BufferContext(s, b);
      if bufs[b].life.destroyed {
        return NotPermitted;
      }
      BeginWrite(b);
      if !copied {
        AbortUndoesBegin(s.d, sub);
        AbortWrite(b);
        return NoCopy;
      }
      WriteReaches(s, b, cmd);
      AddTask(sub, WriteSource(cmd));
      r := Queued;
    }

    method BeginWrite(b: BufId)
      requires b in bufs && bufs[b].ctx in ctxs
      modifies `ctxs
      ensures Rest() == Begun(old(Rest()), Submission(Write, b))
    {
      var c := bufs[b].ctx;
      ctxs := ctxs[c := ctxs[c].(taskCount := ctxs[c].taskCount + 1,
                                 inflight := ctxs[c].inflight + multiset{Submission(Write, b)})];
    }

    method AbortWrite(b: BufId)
      requires InFlight(Rest(), Submission(Write, b))
      modifies `ctxs
      ensures Rest() == Aborted(old(Rest()), Submission(Write, b))
    {
      var c := bufs[b].ctx;
      ctxs := ctxs[c := ctxs[c].(taskCount := ctxs[c].taskCount - 1,
                                 inflight := ctxs[c].inflight - multiset{Submission(Write, b)})];
    }

    /** Puts a task at the end of the pending list. */
    method AddTask(sub: Submission, source: TaskSource)
      requires InFlight(Rest(), sub) && ValidSource(source) && HandedOut(tasks, sources)
      modifies `tasks, `sources, `ctxs, `pendingTasks
      ensures Rest() == Enqueued(old(Rest()), sub, Handed(source))
      ensures HandedOut(tasks, sources) && sources == old(sources) + [source]
      ensures pendingTasks == old(pendingTasks) + [|old(tasks)|]
    {
      var c := bufs[sub.buf].ctx;
      var task := NewTask(sub, c, Handed(source), bufs[sub.buf].allowed);
      HandedOutMore(tasks, sources, task, source);
      pendingTasks := pendingTasks + [|tasks|];
      tasks := tasks + [task];
      sources := sources + [source];
      ctxs := ctxs[c := ctxs[c].(inflight := ctxs[c].inflight - multiset{sub})];
    }

    // ---------- Everything together ----------

    /** The device does something on its own. */
    method Tick(step: DeviceStep)
      requires Reachable(Now(Poll)) && isr.Out? && Valid() && !step.IsrRead? && !step.IsrHandle?
      modifies `dev, `hist
      ensures Reachable(Now(Poll)) && Valid()
    {
      ghost var s := Now(Poll);
      ReachableWf(s);
      if DeviceEnabled(INITIAL.d.(dev := dev, isr := isr), step) {
        ReachableStep(s, Dev(step));
        hist := if step.Consume? then hist.(raised := hist.raised + RaisedBy(dev, step.faults)) else hist;
        dev := match step
          case Consume(faults) => Consumed(dev, faults)
          case Latch => Latched(dev)
          case _ => dev.(reg := dev.reg.(slot := true));
        assert Now(Poll) == Apply(s, Dev(step));
      }
    }

    method TakeInterrupt()
      requires Reachable(Now(Poll)) && isr.Out? && Valid()
      modifies `isr, `dev, `ctxs, `hist, `fenceState
      ensures Reachable(Now(Poll)) && isr.Out? && Valid()
    {
      ghost var s := HandlerIn(Now(Poll));
      Interrupt(Poll);
      HandleReachable(s);
      DeviceKeeps(s, IsrHandle);
    }

    /** Whatever is called and whatever the device does, in whatever order, leads to reachable states only, and the
        words in the feed register are those of the commands issued. */
    method Serve(calls: seq<Call>)
      requires Reachable(Now(Poll)) && isr.Out? && Valid()
      modifies this, port
      ensures Reachable(Now(Poll)) && isr.Out? && Valid()
    {
      for i := 0 to |calls|
        invariant Reachable(Now(Poll)) && isr.Out? && Valid()
      {
        match calls[i]
        case Round => RunRound();
        case Irq => TakeInterrupt();
        case WriteTo(b, cmd, copied) =>
          if b in bufs && bufs[b].life.userRef && !Parse(cmd, bufs[b].allowed).verdict.Truncated? {
            var r := WriteBuffer(b, cmd, copied, Poll);
          }
        case DeviceDoes(step) =>
          if !step.IsrRead? && !step.IsrHandle? {
            Tick(step);
          }
      }
    }
  }
}
