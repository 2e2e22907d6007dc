/** What reaches the device: for every task that was started, its accepted commands in their order with the slot of
    its buffer, then its fence; for every other task, nothing. */
module Script {
  import opened Basics
  import opened Slots
  import opened Translator
  import opened Protocol
  import opened Control
  import opened Binding
  import opened Fates
  import opened Blame

  /** The commands fed for a task. */
  function FedOf(fed: seq<Fed>, t: TaskId): seq<Request> {
    if fed == [] then []
    else FedOf(fed[..|fed| - 1], t) + (if fed[|fed| - 1].tag == Some(t) then [fed[|fed| - 1].req] else [])
  }

  /** The first `k` commands of a task, with the slot inserted. */
  function Sent(cmds: seq<UserCmd>, slot: int, k: nat): seq<Request>
    requires k <= |cmds|
  {
    seq(k, i requires 0 <= i < k => TaskReq(cmds[i], slot))
  }

  /** How far the running task is. */
  predicate Within(ctl: Ctl, task: Task) { ctl.pc.RunCmd? ==> ctl.pc.k <= |task.parsed.cmds| }

  /** What has been fed for a task that was started. */
  function Expected(task: Task, slot: int, ctl: Ctl, t: TaskId): seq<Request>
    requires ctl.running == Some(t) ==> Within(ctl, task)
  {
    var cmds := task.parsed.cmds;
    if ctl.running == Some(t) && ctl.pc.RunCmd? then Sent(cmds, slot, ctl.pc.k)
    else if ctl.running == Some(t) && (ctl.pc.RunClear? || ctl.pc.RunFence?) then Sent(cmds, slot, |cmds|)
    else Sent(cmds, slot, |cmds|) + [FenceReq(TASK_FENCE)]
  }

  predicate ScriptOk(d: Data, ctl: Ctl, t: TaskId)
    requires t < |d.log|
  {
    && (ctl.running == Some(t) ==> Within(ctl, d.log[t]))
    && FedOf(d.dev.fed, t) == (if t in d.hist.slotOf then Expected(d.log[t], d.hist.slotOf[t], ctl, t) else [])
  }

  /** A task with a command that is not acceptable is on record as soon as its loop has ended. */
  predicate RecordOk(d: Data, ctl: Ctl, t: TaskId)
    requires t < |d.log|
  {
    t in d.hist.slotOf && d.log[t].parsed.verdict.Rejected? && !(ctl.running == Some(t) && ctl.pc.RunCmd?) ==>
      t in d.hist.rejected
  }

  // ---------- Steps of the work thread ----------

  /** The first half of the destruction of a task feeds an unbind command when the buffer is bound and not kept. */
  function ReleaseFeeds(d: Data, t: TaskId): Option<Fed>
    requires WfData(d) && t < |d.log|
  {
    var slot := d.bufs[d.log[t].buf].slot;
    if (d.log[t].kind.Run? || d.ctxs[d.log[t].ctx].failed) && 0 <= slot < |d.slots.table| then
      Some(Fed(UnbindReq(slot), None))
    else
      None
  }

  /** The command that a deed feeds, if any. */
  function FedBy(d: Data, x: Deed): Option<Fed>
    requires Can(d, x)
  {
    match x
    case DoRelease(t) => ReleaseFeeds(d, t)
    case DoBind(b, k) => Some(Fed(BindReq(k, d.bufs[b].seed, d.bufs[b].allowed, d.bufs[b].table, b), None))
    case DoSend(t, k) => Some(Fed(TaskReq(d.log[t].parsed.cmds[k], d.bufs[d.log[t].buf].slot), Some(t)))
    case DoFence(t) => Some(Fed(FenceReq(TASK_FENCE), Some(t)))
    case _ => None
  }

  function Feeds(s: State): Option<Fed>
    requires Wf(s) && !Stuck(s)
  {
    FedBy(s.d, DeedOf(s))
  }

  function Extended(fed: seq<Fed>, more: Option<Fed>): seq<Fed> { if more.Some? then fed + [more.value] else fed }

  lemma DeedFed(d: Data, x: Deed)
    requires Can(d, x)
    ensures Effect(d, x).dev.fed == Extended(d.dev.fed, FedBy(d, x))
  {
  }

  lemma WorkFed(s: State)
    requires Wf(s) && !Stuck(s)
    ensures Work(s).dev.fed == Extended(s.d.dev.fed, Feeds(s))
  {
    DeedFed(s.d, DeedOf(s));
  }

  lemma FedOfExtended(fed: seq<Fed>, more: Option<Fed>, t: TaskId)
    ensures FedOf(Extended(fed, more), t)
         == FedOf(fed, t) + if more.Some? && more.value.tag == Some(t) then [more.value.req] else []
  {
    if more.Some? {
      assert (fed + [more.value])[..|fed|] == fed;
    }
  }

  /** The step starts the task, feeds one of its commands, or feeds its fence. */
  predicate Concerns(ctl: Ctl, t: TaskId) {
    (ctl.pc.RunSet? && ctl.next == Some(t)) || ((ctl.pc.RunCmd? || ctl.pc.RunFence?) && ctl.running == Some(t))
  }

  lemma WalkExpected(n: nat, ctl: Ctl, sight: Sight, task: Task, slot: int, t: TaskId)
    requires AtPc(n, ctl) && !Concerns(ctl, t) && (ctl.running == Some(t) ==> Within(ctl, task))
    ensures var ctl' := Walk(ctl, sight);
            (ctl'.running == Some(t) ==> Within(ctl', task))
                && Expected(task, slot, ctl', t) == Expected(task, slot, ctl, t)
  {
  }

  lemma OtherScript(s: State, t: TaskId)
    requires Wf(s) && !Stuck(s) && t < |s.d.log| && AtPc(|s.d.log|, s.ctl) && !Concerns(s.ctl, t)
    requires ScriptOk(s.d, s.ctl, t)
    ensures Work(s).log == s.d.log
    ensures ScriptOk(Work(s), Walk(s.ctl, See(s)), t)
  {
    WorkHistoryOk(s);
    WorkFed(s);
    FedOfExtended(s.d.dev.fed, Feeds(s), t);
    var slot := if t in s.d.hist.slotOf then s.d.hist.slotOf[t] else 0;
    WalkExpected(|s.d.log|, s.ctl, See(s), s.d.log[t], slot, t);
  }

  lemma StartScript(s: State, t: TaskId)
    requires Wf(s) && !Stuck(s) && t < |s.d.log| && AtPc(|s.d.log|, s.ctl) && s.ctl.pc.RunSet? && s.ctl.next == Some(t)
    requires ScriptOk(s.d, s.ctl, t) && t !in s.d.hist.slotOf
    ensures Work(s).log == s.d.log
    ensures ScriptOk(Work(s), Walk(s.ctl, See(s)), t)
  {
  }

  lemma CommandScript(s: State, t: TaskId)
    requires Wf(s) && !Stuck(s) && t < |s.d.log| && AtPc(|s.d.log|, s.ctl) && s.ctl.pc.RunCmd?
             && s.ctl.running == Some(t)
    requires ScriptOk(s.d, s.ctl, t) && t in s.d.hist.slotOf && s.d.hist.slotOf[t] == s.d.bufs[s.d.log[t].buf].slot
    ensures Work(s).log == s.d.log
    ensures ScriptOk(Work(s), Walk(s.ctl, See(s)), t)
  {
    WorkFed(s);
    FedOfExtended(s.d.dev.fed, Feeds(s), t);
    if s.ctl.pc.k < |s.d.log[t].parsed.cmds| {
      SentOne(s.d.log[t].parsed.cmds, s.d.hist.slotOf[t], s.ctl.pc.k);
    }
  }

  lemma FenceScript(s: State, t: TaskId)
    requires Wf(s) && !Stuck(s) && t < |s.d.log| && s.ctl.pc.RunFence? && s.ctl.running == Some(t)
    requires ScriptOk(s.d, s.ctl, t) && t in s.d.hist.slotOf
    ensures Work(s).log == s.d.log
    ensures ScriptOk(Work(s), Walk(s.ctl, See(s)), t)
  {
    WorkFed(s);
    FedOfExtended(s.d.dev.fed, Feeds(s), t);
  }

  lemma WorkScript(s: State, t: TaskId)
    requires Wf(s) && !Stuck(s) && t < |s.d.log| && AtPc(|s.d.log|, s.ctl)
    requires ScriptOk(s.d, s.ctl, t) && StartOk(s.d.hist, |s.d.log|, s.ctl, t)
    requires s.ctl.pc.RunCmd? && s.ctl.running == Some(t) ==>
               t in s.d.hist.slotOf && s.d.hist.slotOf[t] == s.d.bufs[s.d.log[t].buf].slot
    ensures Work(s).log == s.d.log
    ensures ScriptOk(Work(s), Walk(s.ctl, See(s)), t)
  {
    if !Concerns(s.ctl, t) {
      OtherScript(s, t);
    } else if s.ctl.pc.RunSet? {
      StartScript(s, t);
    } else if s.ctl.pc.RunCmd? {
      CommandScript(s, t);
    } else {
      FenceScript(s, t);
    }
  }

  lemma SentOne(cmds: seq<UserCmd>, slot: int, k: nat)
    requires k < |cmds|
    ensures Sent(cmds, slot, k) + [TaskReq(cmds[k], slot)] == Sent(cmds, slot, k + 1)
  {
  }

  lemma WorkRecord(s: State, t: TaskId)
    requires Wf(s) && !Stuck(s) && t < |s.d.log| && AtPc(|s.d.log|, s.ctl)
    requires RecordOk(s.d, s.ctl, t) && FateOk(s.d.hist, |s.d.log|, s.ctl, t)
    ensures Work(s).log == s.d.log
    ensures RecordOk(Work(s), Walk(s.ctl, See(s)), t)
  {
    WorkHistoryOk(s);
    WorkRecords(s);
  }

  // ---------- Steps of others ----------

  lemma KeptScript(d: Data, d': Data, ctl: Ctl, ctl': Ctl, t: TaskId)
    requires t < |d.log| && d.log <= d'.log && ScriptOk(d, ctl, t) && RecordOk(d, ctl, t)
    requires ctl'.running == ctl.running && ctl'.pc == ctl.pc
    requires d'.hist.slotOf == d.hist.slotOf && d'.hist.rejected == d.hist.rejected
    requires FedOf(d'.dev.fed, t) == FedOf(d.dev.fed, t)
    ensures ScriptOk(d', ctl', t) && RecordOk(d', ctl', t)
  {
  }

  lemma {:induction false} FedOfNew(fed: seq<Fed>, t: TaskId)
    requires forall i :: 0 <= i < |fed| ==> fed[i].tag != Some(t)
    ensures FedOf(fed, t) == []
  {
    if fed != [] {
      FedOfNew(fed[..|fed| - 1], t);
    }
  }

  lemma NewScript(d: Data, ctl: Ctl)
    requires d.log != [] && HistNames(d.hist, |d.log| - 1) && FeedOrder(d.dev.fed, d.hist.slotOf)
    requires ctl.running.Some? ==> ctl.running.value < |d.log| - 1
    ensures ScriptOk(d, ctl, |d.log| - 1) && RecordOk(d, ctl, |d.log| - 1)
  {
    FedOfNew(d.dev.fed, |d.log| - 1);
  }

  lemma ReleaseKeepsScript(d: Data, r: ReleaseStep, t: TaskId)
    requires WfData(d) && ReleaseEnabled(d, r)
    ensures FedOf(ReleaseData(d, r).dev.fed, t) == FedOf(d.dev.fed, t)
  {
    match r
    case CloseBuf(b) => FedOfExtended(d.dev.fed, Some(Fed(UnbindReq(d.bufs[b].slot), None)), t);
    case FreeBuf(b) => FedOfExtended(d.dev.fed, Some(Fed(UnbindReq(d.bufs[b].slot), None)), t);
    case _ =>
  }

  // ---------- Order and place of the commands ----------

  /** Commands of tasks are fed in the order in which the tasks were put on the list, and only for started tasks. */
  ghost predicate FeedOrder(fed: seq<Fed>, slotOf: map<TaskId, int>) {
    && (forall p :: 0 <= p < |fed| && fed[p].tag.Some? ==> fed[p].tag.value in slotOf)
    && (forall p, q :: 0 <= p < q < |fed| && fed[p].tag.Some? && fed[q].tag.Some? ==>
          fed[p].tag.value <= fed[q].tag.value)
  }

  /** Slots and fence values are in range. */
  predicate InRange(req: Request) {
    match req
    case BindReq(slot, _, _, _, _) => 0 <= slot < NUM_SLOTS
    case UnbindReq(slot) => 0 <= slot < NUM_SLOTS
    case TaskReq(_, slot) => 0 <= slot < NUM_SLOTS
    case FenceReq(value) => value == TASK_FENCE
  }

  /** The slot is the one that is bound for the buffer, with its page table. */
  ghost predicate OwnSlot(view: map<int, Bond>, slot: int, b: BufId, table: bv64) {
    slot in view && view[slot] == Bond(b, table) && forall k :: k in view && view[k].owner == b ==> k == slot
  }

  /** When the device gets to a command of a task, the slot it was given is the one that is bound for the output
      buffer of that task. */
  ghost predicate AtHome(d: Data, p: nat)
    requires p < |d.dev.fed|
  {
    var f := d.dev.fed[p];
    InRange(f.req) && (f.req.TaskReq? && f.tag.Some? ==>
      && f.tag.value < |d.log| && d.log[f.tag.value].buf in d.bufs
      && OwnSlot(View(d.dev.fed[..p]), f.req.slot, d.log[f.tag.value].buf, d.bufs[d.log[f.tag.value].buf].table)
      && f.req.cmd in d.log[f.tag.value].parsed.cmds)
  }

  ghost predicate AllAtHome(d: Data) { forall p :: 0 <= p < |d.dev.fed| ==> AtHome(d, p) }

  lemma OrderFeed(fed: seq<Fed>, slotOf: map<TaskId, int>, f: Fed)
    requires FeedOrder(fed, slotOf)
    requires f.tag.Some? ==> f.tag.value in slotOf && forall t :: t in slotOf ==> t <= f.tag.value
    ensures FeedOrder(fed + [f], slotOf)
  {
  }

  /** The next command is in range, and if it is a task's, its slot is the one that is bound for the output buffer. */
  ghost predicate FitsHome(d: Data, f: Fed) {
    && InRange(f.req)
    && (f.req.TaskReq? && f.tag.Some? ==>
          && f.tag.value < |d.log| && d.log[f.tag.value].buf in d.bufs
          && OwnSlot(View(d.dev.fed), f.req.slot, d.log[f.tag.value].buf, d.bufs[d.log[f.tag.value].buf].table)
          && f.req.cmd in d.log[f.tag.value].parsed.cmds)
  }

  lemma HomeFeed(d: Data, d': Data, f: Fed)
    requires AllAtHome(d) && d'.dev.fed == d.dev.fed + [f] && d.log <= d'.log
    requires forall b :: b in d.bufs ==> b in d'.bufs && d'.bufs[b].table == d.bufs[b].table
    requires FitsHome(d, f)
    ensures AllAtHome(d')
  {
    forall p | 0 <= p < |d'.dev.fed| ensures AtHome(d', p) {
      if p < |d.dev.fed| {
        assert AtHome(d, p);
        assert d'.dev.fed[..p] == d.dev.fed[..p];
      } else {
        assert d'.dev.fed[..p] == d.dev.fed;
      }
    }
  }

  lemma HomeKept(d: Data, d': Data)
    requires AllAtHome(d) && d'.dev.fed == d.dev.fed && d.log <= d'.log
    requires forall b :: b in d.bufs ==> b in d'.bufs && d'.bufs[b].table == d.bufs[b].table
    ensures AllAtHome(d')
  {
    forall p | 0 <= p < |d'.dev.fed| ensures AtHome(d', p) {
      assert AtHome(d, p);
    }
  }

  lemma WorkOrder(s: State)
    requires Wf(s) && !Stuck(s) && AtPc(|s.d.log|, s.ctl) && FeedOrder(s.d.dev.fed, s.d.hist.slotOf)
    requires forall t :: t in s.d.hist.slotOf ==> StartOk(s.d.hist, |s.d.log|, s.ctl, t)
    requires s.ctl.running.Some? ==> s.ctl.running.value in s.d.hist.slotOf
    ensures FeedOrder(Work(s).dev.fed, Work(s).hist.slotOf)
  {
    WorkHistoryOk(s);
    WorkFed(s);
    if Feeds(s).Some? {
      OrderFeed(s.d.dev.fed, s.d.hist.slotOf, Feeds(s).value);
    }
  }

  lemma DeedHome(d: Data, x: Deed)
    requires Can(d, x) && BindingOk(d) && (x.DoSend? ==> Bound(d, d.log[x.task].buf))
    ensures FedBy(d, x).Some? ==> FitsHome(d, FedBy(d, x).value)
  {
  }

  lemma WorkHome(s: State)
    requires Wf(s) && !Stuck(s) && AllAtHome(s.d) && BindingOk(s.d)
    requires forall b :: b in s.d.bufs ==> b in Work(s).bufs && Work(s).bufs[b].table == s.d.bufs[b].table
    ensures AllAtHome(Work(s))
  {
    WorkHistoryOk(s);
    WorkFed(s);
    DeedHome(s.d, DeedOf(s));
    if Feeds(s).Some? {
      HomeFeed(s.d, Work(s), Feeds(s).value);
    } else {
      HomeKept(s.d, Work(s));
    }
  }

  lemma ReleaseOrder(d: Data, r: ReleaseStep)
    requires WfData(d) && ReleaseEnabled(d, r) && FeedOrder(d.dev.fed, d.hist.slotOf) && AllAtHome(d)
    requires forall b :: b in d.bufs ==>
               b in ReleaseData(d, r).bufs && ReleaseData(d, r).bufs[b].table == d.bufs[b].table
    ensures FeedOrder(ReleaseData(d, r).dev.fed, ReleaseData(d, r).hist.slotOf) && AllAtHome(ReleaseData(d, r))
  {
    var d' := ReleaseData(d, r);
    if d'.dev.fed == d.dev.fed {
      HomeKept(d, d');
    } else {
      var f := d'.dev.fed[|d.dev.fed|];
      OrderFeed(d.dev.fed, d.hist.slotOf, f);
      HomeFeed(d, d', f);
    }
  }
}
