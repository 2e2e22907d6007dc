/** A command whose slot field has its lowest bit set can be executed through the slot of another buffer, and even of
    one that has been freed. */
module StraySlot {
  import opened Basics
  import opened Words
  import opened Translator
  import opened Protocol
  import opened Binding
  import opened Script
  import opened Runs
  import opened Completion
  import opened WorkThread
  import opened Scenario
  import opened Stream
  import opened Ownership

  /** A GET_DIE header with the lowest bit of its slot field set. */
  const HEADER: Word := 0x0100_0012

  const STRAY: UserCmd := UGetDie(HEADER, 0)

  lemma StrayParse()
    ensures Parse([HEADER, 0], 0) == Parsed([STRAY], Accepted)
  {
    assert TypeOf(HEADER) == GET_DIE && GetDieOk(HEADER, 0, 0);
    assert Parse([], 0) == Parsed([], Accepted);
    assert [HEADER, 0][2..] == [];
    assert Parse([HEADER, 0], 0) == Extend(Do(STRAY), Parse([], 0));
  }

  /** Inserted into slot zero, it names slot one. */
  lemma StrayTarget()
    ensures Targeted(TaskReq(STRAY, 0)) == 1
  {
    assert SlotBits(0) == 0 && SlotBits(1) == 1;
    assert SlotAt24(InsertGetDieSlot(HEADER, 0)) == 1;
    SlotIndexOf(1);
  }

  /** Command `p` is next, is the stray command of a task of context zero in slot zero, and slot one is bound for buffer
      one, whose context is context one. */
  ghost predicate Next(s: State, p: nat, t: TaskId) {
    && Reachable(s) && Wf(s) && s.d.isr.Out? && s.d.dev.done == p < |s.d.dev.fed|
    && s.d.dev.fed[p] == Fed(TaskReq(STRAY, 0), Some(t)) && t < |s.d.log| && s.d.log[t].ctx == 0
    && 1 in View(s.d.dev.fed[..p]) && View(s.d.dev.fed[..p])[1].owner == 1
    && 1 in s.d.bufs && s.d.bufs[1].ctx == 1 && 1 in s.d.ctxs
  }

  /** How far the release of context one and of its buffer is. */
  predicate Stage(s: State, phase: Phase, life: Life) {
    1 in s.d.bufs && 1 in s.d.ctxs && s.d.ctxs[1] == QUIET.(phase := phase) && s.d.bufs[1].life == life
  }

  // ---------- The command is fed ----------

  const PAIR: World := World(2, 2, 1, 2, 0, QUIET)

  /** Two contexts, each with one buffer that keeps the slot of its number. */
  lemma TwoBuffers() returns (s: State)
    ensures Known(s, PAIR) && AtRest(s)
  {
    var s0 := Start(1);
    var s1 := OpenOne(s0, 0, 1, 0);
    var s2 := OpenOne(s1, 0, 1, 1);
    var s3 := OneMore(s2, 0, 1, 2, 0);
    s := OneMore(s3, 1, 1, 2, 1);
  }

  /** The write of the stray command is prefetched. */
  lemma Prefetch() returns (s: State, t: TaskId)
    ensures Fetched(s, PAIR.(busy := BUSY), t, Write, 0, [HEADER, 0]) && JustFed(s.d.dev, 0)
  {
    var s0 := TwoBuffers();
    StrayParse();
    var s1;
    s1, t := SubmitOne(s0, PAIR, Write, 0, [HEADER, 0]);
    s := FetchOne(s1, PAIR.(busy := BUSY), t, Write, 0, [HEADER, 0]);
  }

  lemma SlotOneIsBound(s: State, t: TaskId)
    requires Fetched(s, PAIR.(busy := BUSY), t, Write, 0, [HEADER, 0])
    ensures 1 in View(s.d.dev.fed) && View(s.d.dev.fed)[1].owner == 1
  {
    TableIsView(s, 1);
    assert s.d.bufs[1].slot == 1;
  }

  lemma StrayRun(s: State, t: TaskId)
    requires Wf(s) && IsTask(s, 0, t, Write, 0, [HEADER, 0]) && s.ctl.next == Some(t) && s.d.bufs[0].allowed == 0
    requires s.d.bufs[0].slot == 0 && 0 in s.d.ctxs && !s.d.ctxs[0].failed
    ensures var s' := AfterRun(s);
            && s'.d.bufs == s.d.bufs && s'.d.log == s.d.log && s'.d.isr == s.d.isr && s'.d.dev.done == s.d.dev.done
            && s'.d.ctxs.Keys == s.d.ctxs.Keys && (forall c :: c in s.d.ctxs && c != 0 ==> s'.d.ctxs[c] == s.d.ctxs[c])
            && |s'.d.dev.fed| == |s.d.dev.fed| + 2 && s'.d.dev.fed[..|s.d.dev.fed|] == s.d.dev.fed
            && s'.d.dev.fed[|s.d.dev.fed|] == Fed(TaskReq(STRAY, 0), Some(t))
  {
    StrayParse();
    var d := Started(s.d, t);
    StartedWf(s.d, t);
    assert d.log[t].parsed.cmds == [STRAY];
    assert FedMany(d, t, 1) == FedOne(d, t, 0) by {
      assert FedMany(d, t, 0) == d;
    }
  }

  /** The stray command is fed, and the device has consumed everything before it. */
  lemma Feed() returns (s: State, t: TaskId)
    ensures Next(s, s.d.dev.done, t) && Stage(s, Open, NEW)
  {
    var s0;
    s0, t := Prefetch();
    SlotOneIsBound(s0, t);
    RunRound(s0);
    StrayRun(s0, t);
    s := AfterRun(s0);
    ReachableWf(s);
  }

  // ---------- The other context is released ----------

  lemma CloseUser(s: State, p: nat, t: TaskId) returns (s': State)
    requires Next(s, p, t) && Stage(s, Open, NEW)
    ensures Next(s', p, t) && Stage(s', Open, NEW.(userRef := false))
  {
    ReachableStep(s, User(CloseFd(1)));
    s' := Apply(s, User(CloseFd(1)));
    ReachableWf(s');
  }

  lemma MarkOther(s: State, p: nat, t: TaskId, life: Life) returns (s': State)
    requires Next(s, p, t) && Stage(s, Open, life)
    ensures Next(s', p, t) && Stage(s', Marked, life.(destroyed := true))
  {
    ReachableStep(s, Rel(Mark(1)));
    s' := Apply(s, Rel(Mark(1)));
    ReachableWf(s');
  }

  lemma WaitOther(s: State, p: nat, t: TaskId, life: Life) returns (s': State)
    requires Next(s, p, t) && Stage(s, Marked, life)
    ensures Next(s', p, t) && Stage(s', Closing, life)
  {
    ReachableStep(s, Rel(WaitTasks(1)));
    s' := Apply(s, Rel(WaitTasks(1)));
    ReachableWf(s');
  }

  /** The queue of the device only grows at its end. */
  lemma NextKept(s: State, s': State, p: nat, t: TaskId)
    requires Next(s, p, t) && Reachable(s') && Wf(s') && s'.d.isr.Out? && s'.d.dev.done == s.d.dev.done
    requires s.d.dev.fed <= s'.d.dev.fed && s'.d.log == s.d.log
    requires 1 in s'.d.bufs && s'.d.bufs[1].ctx == 1 && 1 in s'.d.ctxs
    ensures Next(s', p, t)
  {
    assert s'.d.dev.fed[..p] == s.d.dev.fed[..p];
  }

  lemma CloseOther(s: State, p: nat, t: TaskId, life: Life) returns (s': State)
    requires Next(s, p, t) && Stage(s, Closing, life) && life.ctxRef
    ensures Next(s', p, t) && Stage(s', Closing, life.(ctxRef := false))
  {
    ReachableStep(s, Rel(CloseBuf(1)));
    s' := Apply(s, Rel(CloseBuf(1)));
    ReachableWf(s');
    NextKept(s, s', p, t);
  }

  lemma FreeOther(s: State, p: nat, t: TaskId, life: Life) returns (s': State)
    requires Next(s, p, t) && Stage(s, Closing, life) && !life.userRef && !life.ctxRef && !life.freed
    ensures Next(s', p, t) && Stage(s', Closing, life.(freed := true))
  {
    ReachableStep(s, Rel(FreeBuf(1)));
    s' := Apply(s, Rel(FreeBuf(1)));
    ReachableWf(s');
    NextKept(s, s', p, t);
  }

  lemma ReleaseOther(s: State, p: nat, t: TaskId) returns (s': State)
    requires Next(s, p, t) && Stage(s, Open, NEW)
    ensures Next(s', p, t) && Stage(s', Closing, Life(true, false, false, true))
  {
    var s1 := CloseUser(s, p, t);
    var s2 := MarkOther(s1, p, t, Life(false, false, true, false));
    var s3 := WaitOther(s2, p, t, Life(true, false, true, false));
    var s4 := CloseOther(s3, p, t, Life(true, false, true, false));
    s' := FreeOther(s4, p, t, Life(true, false, false, false));
  }

  /** There is a run at the end of which the device is about to execute a command of a task through the slot of a buffer
      of another context that has been freed: the condition of `DeviceUsesLiveMemory` cannot be dropped. */
  lemma StrayCommandHappens()
    ensures exists s :: Reachable(s) && StraysToFreed(s)
  {
    var s0, t := Feed();
    var s := ReleaseOther(s0, s0.d.dev.done, t);
    StrayTarget();
    assert ReachesBuffer(s.d.dev, s.d.dev.done, 1);
  }

  /** The next command of the device is a task's, and reaches a freed buffer of another context. */
  ghost predicate StraysToFreed(s: State) {
    && s.d.dev.done < |s.d.dev.fed| && s.d.dev.fed[s.d.dev.done].req.TaskReq? && InRange(s.d.dev.fed[s.d.dev.done].req)
    && s.d.dev.fed[s.d.dev.done].tag.Some? && s.d.dev.fed[s.d.dev.done].tag.value < |s.d.log|
    && exists b :: b in s.d.bufs && ReachesBuffer(s.d.dev, s.d.dev.done, b) && s.d.bufs[b].life.freed
                   && s.d.bufs[b].ctx != s.d.log[s.d.dev.fed[s.d.dev.done].tag.value].ctx
  }
}
