/** The concurrent driver as a labelled transition system: submitting threads, the work thread, the interrupt
    handler, releasing threads, readers, and the device.

    A critical section under the device lock is one step. The interrupt handler is two, because the device
    keeps running between its read of the interrupt register and the write that clears it; while the handler
    is between the two it holds the lock, and steps that need the lock wait. What the work thread does
    without the lock is cut at every access to state it shares with the others. */
module Protocol {
  import opened Basics
  import opened Slots
  import opened Translator

  type CtxId = nat
  /** A task is named by its place in the order in which tasks were put on the pending list. */
  type TaskId = nat

  datatype Kind = Write | Run

  /** `words` are the words that the iterator of the task hands out, `parsed` what the work thread makes of them,
      and `counts` the number of results that each of its commands publishes. */
  datatype Task = Task(kind: Kind, ctx: CtxId, buf: BufId, words: seq<Word>, parsed: Parsed, counts: seq<nat>)

  // ---------- Contexts and buffers ----------

  /** Release of a context: not begun, buffers marked destroyed, task count seen at zero, context freed. */
  datatype Phase = Open | Marked | Closing | Gone

  /** A submission between the increment of the task count and the addition to the pending list. */
  datatype Submission = Submission(kind: Kind, buf: BufId)

  /** `inflight`, `lateStarts` (tasks started after the context had failed) and `parseFailed` are history. */
  datatype Ctx = Ctx(failed: bool, taskCount: int, phase: Phase,
                     inflight: multiset<Submission>, lateStarts: nat, parseFailed: bool)

  /** References to a buffer and the end of its life. `destroyed` says that its context is being released. */
  datatype Life = Life(destroyed: bool, userRef: bool, ctxRef: bool, freed: bool)

  /** The reader of a buffer. `since` lists the tasks destroyed on the buffer since it was last bound, with what
      each one published, and `last` is the most recent of them with the failure flag of its context at that
      time: history. */
  datatype Reader = Reader(count: int, offset: int, since: seq<(TaskId, nat)>, last: Option<(TaskId, bool)>)

  datatype Buf = Buf(ctx: CtxId, allowed: Word, table: bv64, seed: bv64, slot: int, life: Life, reader: Reader)

  // ---------- The device ----------

  /** A command as the driver issues it: a task's command goes with the slot inserted into it. The owner of a bind
      command is history, and not in its words. */
  datatype Request =
    | BindReq(slot: int, seed: bv64, allowed: Word, table: bv64, owner: BufId)
    | UnbindReq(slot: int)
    | TaskReq(cmd: UserCmd, slot: int)
    | FenceReq(value: nat)

  /** A command fed to the device, tagged with the task it belongs to, if any. */
  datatype Fed = Fed(req: Request, tag: Option<TaskId>)

  datatype Fault = CmdError | MemError

  /** The interrupt register. The two error bits are kept as the sets of tasks that caused them: a bit is set
      when its set is not empty. */
  datatype Reg = Reg(cmdBy: set<TaskId>, memBy: set<TaskId>, fence: bool, slot: bool)

  /** The device consumes `fed` in order and has consumed `done` of it. A command may raise faults, which are
      in `brewing` until the device latches them. `awaited` is the fence value that raises an interrupt and
      `fencePos` the place of the last fence fed. */
  datatype Device = Device(fed: seq<Fed>, done: nat, brewing: seq<(Fault, TaskId)>, reg: Reg,
                           awaited: nat, fencePos: nat)

  /** What the interrupt handler read from the register. */
  datatype Status = Status(fence: bool, cmd: bool, mem: bool, slot: bool)

  datatype Isr = Out | In(st: Status)

  // ---------- The work thread ----------

  datatype FenceState = Idle | Waiting | Reached

  /** Where the work thread is. The first five choose an event; the next four are the events. */
  datatype Pc =
    | Poll | PollNext | PollFence | PollSlot | PollFree
    | GetNext | BindSlot | RunTask | Finish
    | Got(task: TaskId) | DropUnbind(task: TaskId) | DropCount(task: TaskId)
    | RunSet | RunCmd(k: nat) | RunClear | RunFence
    | FinUnbind(task: TaskId) | FinCount(task: TaskId) | FinFence | FinClear

  /** What happened so far. `charged` pairs a task whose command raised a fault with the context that the
      interrupt handler failed for it; `slotOf` is the slot of the output buffer when a task was started. */
  datatype History = History(destroyed: set<TaskId>, dropped: set<TaskId>, rejected: set<TaskId>,
                             raised: set<TaskId>, charged: set<(TaskId, CtxId)>, slotOf: map<TaskId, int>)

  /** The pending list and the state of the work thread. `made` is the result count of the running task. */
  datatype Ctl = Ctl(pending: seq<TaskId>, next: Option<TaskId>, running: Option<TaskId>, made: nat,
                     fence: FenceState, pc: Pc)

  /** Everything else: the tasks ever put on the list, contexts, buffers, slots, device, interrupt handler. */
  datatype Data = Data(log: seq<Task>, ctxs: map<CtxId, Ctx>, bufs: map<BufId, Buf>,
                       slots: SlotTable, dev: Device, isr: Isr, hist: History)

  datatype State = State(ctl: Ctl, d: Data)

  const TASK_FENCE: nat := 42

  const INITIAL: State :=
    State(Ctl([], None, None, 0, Idle, Poll),
          Data([], map[], map[],
               SlotTable(EmptyTable(), NUM_SLOTS),
               Device([], 0, [], Reg({}, {}, false, false), 1, 0), Out, History({}, {}, {}, {}, {}, map[])))

  // ---------- Names ----------

  /** The names used in a state denote something. Kept by every step, so no behaviour is lost by asking for it. */
  ghost predicate Wf(s: State) { WfData(s.d) && WfNames(|s.d.log|, s.ctl) }

  ghost predicate WfData(d: Data) {
    && |d.slots.table| == NUM_SLOTS
    && d.dev.done <= |d.dev.fed|
    && WfTasks(d.log, d.ctxs, d.bufs)
    && WfBufs(d.ctxs, d.bufs)
  }

  ghost predicate WfTasks(log: seq<Task>, ctxs: map<CtxId, Ctx>, bufs: map<BufId, Buf>) {
    forall t :: 0 <= t < |log| ==> TaskWf(log[t], ctxs, bufs)
  }

  ghost predicate TaskWf(t: Task, ctxs: map<CtxId, Ctx>, bufs: map<BufId, Buf>) {
    t.ctx in ctxs && t.buf in bufs && bufs[t.buf].ctx == t.ctx && |t.counts| == |t.parsed.cmds|
  }

  ghost predicate WfBufs(ctxs: map<CtxId, Ctx>, bufs: map<BufId, Buf>) {
    forall b :: b in bufs ==> bufs[b].ctx in ctxs
  }

  ghost predicate WfNames(n: nat, ctl: Ctl) {
    && (forall i :: 0 <= i < |ctl.pending| ==> ctl.pending[i] < n)
    && (ctl.next.Some? ==> ctl.next.value < n)
    && (ctl.running.Some? ==> ctl.running.value < n)
    && PcTask(ctl.pc) <= n
  }

  /** One more than the task the work thread holds in a local variable, or zero. */
  function PcTask(pc: Pc): nat {
    match pc
    case Got(t) => t + 1
    case DropUnbind(t) => t + 1
    case DropCount(t) => t + 1
    case FinUnbind(t) => t + 1
    case FinCount(t) => t + 1
    case _ => 0
  }

  // ---------- Slots ----------

  function Feed(dev: Device, req: Request, tag: Option<TaskId>): Device { dev.(fed := dev.fed + [Fed(req, tag)]) }

  predicate Bound(d: Data, b: BufId)
    requires b in d.bufs
  {
    d.bufs[b].slot != NO_SLOT
  }

  /** `unbind_slot`, when the buffer is bound; a buffer that is not bound has slot -1. */
  function Unbound(d: Data, b: BufId): Data
    requires b in d.bufs
  {
    var k := d.bufs[b].slot;
    if !(0 <= k < |d.slots.table|) then d
    else d.(slots := SlotTable(d.slots.table[k := None], d.slots.free + 1),
            bufs := d.bufs[b := d.bufs[b].(slot := NO_SLOT)],
            dev := Feed(d.dev, UnbindReq(k), None))
  }

  /** `bind_slot` followed by the reset of the reader. */
  function BoundTo(d: Data, b: BufId, k: Slot): Data
    requires b in d.bufs && |d.slots.table| == NUM_SLOTS
  {
    var buf := d.bufs[b];
    d.(slots := SlotTable(d.slots.table[k := Some(b)], d.slots.free - 1),
       bufs := d.bufs[b := buf.(slot := k, reader := Reader(0, 0, [], None))],
       dev := Feed(d.dev, BindReq(k, buf.seed, buf.allowed, buf.table, b), None))
  }

  // ---------- Steps of the work thread ----------

  /** First half of the destruction of a task. */
  function Released(d: Data, t: TaskId): Data
    requires WfData(d) && t < |d.log|
  {
    var b := d.log[t].buf;
    var failed := d.ctxs[d.log[t].ctx].failed;
    var d1 := if d.log[t].kind.Run? || failed then Unbound(d, b) else d;
    d1.(bufs := d1.bufs[b := d1.bufs[b].(reader := d1.bufs[b].reader.(last := Some((t, failed))))])
  }

  /** Second half: the task leaves the count of its context and publishes its results. */
  function Retired(d: Data, t: TaskId, made: nat): Data
    requires WfData(d) && t < |d.log|
  {
    var c := d.log[t].ctx;
    var b := d.log[t].buf;
    var r := d.bufs[b].reader;
    d.(ctxs := d.ctxs[c := d.ctxs[c].(taskCount := d.ctxs[c].taskCount - 1)],
       bufs := d.bufs[b := d.bufs[b].(reader := r.(count := r.count + made, since := r.since + [(t, made)]))],
       hist := d.hist.(destroyed := d.hist.destroyed + {t}))
  }

  /** A task is retired without having been started. */
  function Dropped(d: Data, t: TaskId): Data
    requires WfData(d) && t < |d.log|
  {
    var d1 := Retired(d, t, 0);
    d1.(hist := d1.hist.(dropped := d1.hist.dropped + {t}))
  }

  /** A task becomes the running task. */
  function Started(d: Data, t: TaskId): Data
    requires WfData(d) && t < |d.log|
  {
    var c := d.log[t].ctx;
    d.(hist := d.hist.(slotOf := d.hist.slotOf[t := d.bufs[d.log[t].buf].slot]),
       ctxs := d.ctxs[c := d.ctxs[c].(lateStarts := d.ctxs[c].lateStarts + if d.ctxs[c].failed then 1 else 0)])
  }

  /** Command `k` of the running task is fed. */
  function FedOne(d: Data, t: TaskId, k: nat): Data
    requires WfData(d) && t < |d.log| && k < |d.log[t].parsed.cmds|
  {
    d.(dev := Feed(d.dev, TaskReq(d.log[t].parsed.cmds[k], d.bufs[d.log[t].buf].slot), Some(t)))
  }

  /** The loop over the words of the running task ends; at a command that is not acceptable the context fails. */
  function LoopEnded(d: Data, t: TaskId): Data
    requires WfData(d) && t < |d.log|
  {
    var c := d.log[t].ctx;
    if d.log[t].parsed.verdict.Rejected? then
      d.(ctxs := d.ctxs[c := d.ctxs[c].(failed := true, parseFailed := true)],
         hist := d.hist.(rejected := d.hist.rejected + {t}))
    else d
  }

  /** The fence of the running task is fed. */
  function Fenced(d: Data, t: TaskId): Data {
    d.(dev := Feed(d.dev, FenceReq(TASK_FENCE), Some(t)).(awaited := TASK_FENCE, fencePos := |d.dev.fed|))
  }

  /** The work thread would follow a null pointer, take a task from an empty list, bind to no slot, or fail a
      run-time check. It then stays where it is; no reachable state is like that. */
  predicate Stuck(s: State)
    requires Wf(s)
  {
    match s.ctl.pc
    case PollSlot => s.ctl.next.None?
    case GetNext => s.ctl.pending == []
    case BindSlot => s.ctl.next.None? || FreeSlot(s.d.slots) < 0
    case RunSet => s.ctl.next.None? || !Bound(s.d, s.d.log[s.ctl.next.value].buf)
    case RunCmd(_) => s.ctl.next.None? || !Bound(s.d, s.d.log[s.ctl.next.value].buf)
    case RunFence => s.ctl.running.None?
    case Finish => s.ctl.running.None?
    case _ => false
  }

  /** What the work thread reads on its way: whether the output buffer of the prefetched task is bound, whether a
      slot is free, whether the context of the task just taken from the list has failed, and how many results
      the next command of the running task publishes, if there is one. */
  datatype Sight = Sight(bound: bool, free: bool, failed: bool, count: Option<nat>)

  function See(s: State): Sight
    requires Wf(s)
  {
    var ctl := s.ctl;
    Sight(ctl.next.Some? && Bound(s.d, s.d.log[ctl.next.value].buf),
          s.d.slots.free > 0,
          ctl.pc.Got? && s.d.ctxs[s.d.log[ctl.pc.task].ctx].failed,
          if ctl.pc.RunCmd? && ctl.next.Some? && ctl.pc.k < |s.d.log[ctl.next.value].parsed.cmds| then
            Some(s.d.log[ctl.next.value].counts[ctl.pc.k])
          else None)
  }

  /** Where the work thread goes. */
  function Walk(ctl: Ctl, sight: Sight): Ctl {
    match ctl.pc
    case Poll => ctl.(pc := if ctl.fence.Reached? then Finish else PollNext)
    case PollNext => ctl.(pc := if ctl.next.Some? then PollFence else if ctl.pending != [] then GetNext else Poll)
    case PollFence => ctl.(pc := if ctl.fence.Idle? then PollSlot else Poll)
    case PollSlot => ctl.(pc := if sight.bound then RunTask else PollFree)
    case PollFree => ctl.(pc := if sight.free then BindSlot else Poll)
    case GetNext => if ctl.pending == [] then ctl else ctl.(pending := ctl.pending[1..], pc := Got(ctl.pending[0]))
    case Got(t) => if sight.failed then ctl.(pc := DropUnbind(t)) else ctl.(next := Some(t), pc := Poll)
    case DropUnbind(t) => ctl.(pc := DropCount(t))
    case DropCount(t) => ctl.(pc := Poll)
    case BindSlot => ctl.(pc := Poll)
    case RunTask => ctl.(fence := Waiting, pc := RunSet)
    case RunSet => ctl.(running := ctl.next, made := 0, pc := RunCmd(0))
    case RunCmd(k) =>
      if sight.count.Some? then ctl.(made := ctl.made + sight.count.value, pc := RunCmd(k + 1))
      else ctl.(pc := RunClear)
    case RunClear => ctl.(next := None, pc := RunFence)
    case RunFence => ctl.(pc := Poll)
    case Finish => if ctl.running.None? then ctl else ctl.(pc := FinUnbind(ctl.running.value))
    case FinUnbind(t) => ctl.(pc := FinCount(t))
    case FinCount(t) => ctl.(pc := FinFence)
    case FinFence => ctl.(fence := Idle, pc := FinClear)
    case FinClear => ctl.(running := None, pc := Poll)
  }

  /** What a step of the work thread does to the rest of the driver. */
  datatype Deed =
    | NoDeed
    | DoRelease(task: TaskId)
    | DoDrop(task: TaskId)
    | DoBind(buf: BufId, slot: Slot)
    | DoStart(task: TaskId)
    | DoSend(task: TaskId, k: nat)
    | DoEnd(task: TaskId)
    | DoFence(task: TaskId)
    | DoRetire(task: TaskId, made: nat)

  ghost predicate Can(d: Data, x: Deed) {
    && WfData(d)
    && match x
       case NoDeed => true
       case DoBind(b, _) => b in d.bufs
       case DoSend(t, k) => t < |d.log| && k < |d.log[t].parsed.cmds|
       case _ => x.task < |d.log|
  }

  function Effect(d: Data, x: Deed): Data
    requires Can(d, x)
  {
    match x
    case NoDeed => d
    case DoRelease(t) => Released(d, t)
    case DoDrop(t) => Dropped(d, t)
    case DoBind(b, k) => BoundTo(d, b, k)
    case DoStart(t) => Started(d, t)
    case DoSend(t, k) => FedOne(d, t, k)
    case DoEnd(t) => LoopEnded(d, t)
    case DoFence(t) => Fenced(d, t)
    case DoRetire(t, made) => Retired(d, t, made)
  }

  function DeedOf(s: State): (x: Deed)
    requires Wf(s) && !Stuck(s)
    ensures Can(s.d, x)
  {
    match s.ctl.pc
    case DropUnbind(t) => DoRelease(t)
    case DropCount(t) => DoDrop(t)
    case BindSlot => DoBind(s.d.log[s.ctl.next.value].buf, FreeSlot(s.d.slots))
    case RunSet => DoStart(s.ctl.next.value)
    case RunCmd(k) =>
      var t := s.ctl.next.value;
      if k < |s.d.log[t].parsed.cmds| then DoSend(t, k) else DoEnd(t)
    case RunFence => DoFence(s.ctl.running.value)
    case FinUnbind(t) => DoRelease(t)
    case FinCount(t) => DoRetire(t, s.ctl.made)
    case _ => NoDeed
  }

  function Work(s: State): Data
    requires Wf(s) && !Stuck(s)
  {
    Effect(s.d, DeedOf(s))
  }

  /** Steps of the work thread under the device lock. */
  predicate WorkerLocks(pc: Pc) {
    pc.PollSlot? || pc.GetNext? || pc.BindSlot? || pc.RunFence?
    || pc.DropUnbind? || pc.DropCount? || pc.FinUnbind? || pc.FinCount?
  }

  /** The next step of the work thread. */
  function WorkerApply(s: State): State
    requires Wf(s)
  {
    if Stuck(s) then s else State(Walk(s.ctl, See(s)), Work(s))
  }

  // ---------- Steps of user threads ----------

  datatype UserStep =
    | OpenCtx(c: CtxId)
    | CreateSet(b: BufId, c: CtxId, allowed: Word, table: bv64)
    | SetSeed(b: BufId, seed: bv64)
    | Begin(sub: Submission)
    | Abort(b: BufId)
    | Enqueue(sub: Submission, words: seq<Word>)
    | ReadDie(b: BufId)
    | CloseFd(b: BufId)

  /** The submission is still in flight. */
  predicate InFlight(d: Data, sub: Submission) {
    sub.buf in d.bufs && d.bufs[sub.buf].ctx in d.ctxs && sub in d.ctxs[d.bufs[sub.buf].ctx].inflight
  }

  /** The loop over the words of the task ends, by itself or at a command that is not acceptable. */
  ghost predicate Ends(words: seq<Word>, allowed: Word) { !Parse(words, allowed).verdict.Truncated? }

  /** Submission, its end and reading take the device lock. An ioctl on a context keeps the file of the context
      open, so a run is never submitted once the release of the context has begun; a write asks the buffer, and
      keeps the file of the buffer open. A read waits for a result, the end of the context, or idleness. */
  ghost predicate UserEnabled(d: Data, u: UserStep)
    requires WfData(d)
  {
    match u
    case OpenCtx(c) => c !in d.ctxs
    case CreateSet(b, c, _, _) => b !in d.bufs && c in d.ctxs && d.ctxs[c].phase.Open?
    case SetSeed(b, _) => b in d.bufs && d.bufs[b].life.userRef
    case Begin(sub) =>
      && d.isr.Out? && sub.buf in d.bufs && d.bufs[sub.buf].life.userRef
      && (if sub.kind.Run? then d.ctxs[d.bufs[sub.buf].ctx].phase.Open? else !d.bufs[sub.buf].life.destroyed)
    case Abort(b) => d.isr.Out? && InFlight(d, Submission(Write, b))
    case Enqueue(sub, words) => d.isr.Out? && InFlight(d, sub) && Ends(words, d.bufs[sub.buf].allowed)
    case ReadDie(b) =>
      && d.isr.Out? && b in d.bufs && d.bufs[b].life.userRef
      && (d.bufs[b].reader.count != d.bufs[b].reader.offset || d.bufs[b].life.destroyed
          || d.ctxs[d.bufs[b].ctx].taskCount == 0)
    case CloseFd(b) => b in d.bufs && d.bufs[b].life.userRef && !InFlight(d, Submission(Write, b))
  }

  /** A submission enters: the count of its context rises. */
  function Begun(d: Data, sub: Submission): Data
    requires sub.buf in d.bufs && d.bufs[sub.buf].ctx in d.ctxs
  {
    var c := d.bufs[sub.buf].ctx;
    d.(ctxs := d.ctxs[c := d.ctxs[c].(taskCount := d.ctxs[c].taskCount + 1,
                                      inflight := d.ctxs[c].inflight + multiset{sub})])
  }

  /** A submission is given up after an error. */
  function Aborted(d: Data, sub: Submission): Data
    requires InFlight(d, sub)
  {
    var c := d.bufs[sub.buf].ctx;
    d.(ctxs := d.ctxs[c := d.ctxs[c].(taskCount := d.ctxs[c].taskCount - 1,
                                      inflight := d.ctxs[c].inflight - multiset{sub})])
  }

  function NewTask(sub: Submission, c: CtxId, words: seq<Word>, allowed: Word): (t: Task)
    ensures t.kind == sub.kind && t.ctx == c && t.buf == sub.buf && |t.counts| == |t.parsed.cmds|
  {
    var p := Parse(words, allowed);
    Task(sub.kind, c, sub.buf, words, p, seq(|p.cmds|, i requires 0 <= i < |p.cmds| => Published(p.cmds[i])))
  }

  /** A submission is put on the pending list. */
  function Enqueued(d: Data, sub: Submission, words: seq<Word>): Data
    requires InFlight(d, sub)
  {
    var c := d.bufs[sub.buf].ctx;
    d.(log := d.log + [NewTask(sub, c, words, d.bufs[sub.buf].allowed)],
       ctxs := d.ctxs[c := d.ctxs[c].(inflight := d.ctxs[c].inflight - multiset{sub})])
  }

  function UserData(d: Data, u: UserStep): Data
    requires WfData(d) && UserEnabled(d, u)
  {
    match u
    case OpenCtx(c) => d.(ctxs := d.ctxs[c := Ctx(false, 0, Open, multiset{}, 0, false)])
    case CreateSet(b, c, allowed, table) =>
      var buf := Buf(c, allowed, table, 42, NO_SLOT, Life(false, true, true, false), Reader(0, 0, [], None));
      d.(bufs := d.bufs[b := buf])
    case SetSeed(b, seed) => d.(bufs := d.bufs[b := d.bufs[b].(seed := seed)])
    case Begin(sub) => Begun(d, sub)
    case Abort(b) => Aborted(d, Submission(Write, b))
    case Enqueue(sub, words) => Enqueued(d, sub, words)
    case ReadDie(b) =>
      var r := d.bufs[b].reader;
      if r.count == r.offset then d else d.(bufs := d.bufs[b := d.bufs[b].(reader := r.(offset := r.offset + 1))])
    case CloseFd(b) => d.(bufs := d.bufs[b := d.bufs[b].(life := d.bufs[b].life.(userRef := false))])
  }

  function UserCtl(s: State, u: UserStep): Ctl {
    if u.Enqueue? then s.ctl.(pending := s.ctl.pending + [|s.d.log|]) else s.ctl
  }

  // ---------- Steps of the device and of the interrupt handler ----------

  datatype DeviceStep = Consume(faults: seq<Fault>) | Latch | SlotError | IsrRead | IsrHandle

  predicate TaskCommand(f: Fed) { f.tag.Some? && f.req.TaskReq? }

  /** Only the commands of a task raise faults, and the device latches them before it consumes a later fence. */
  predicate DeviceEnabled(d: Data, step: DeviceStep)
    requires d.dev.done <= |d.dev.fed|
  {
    match step
    case Consume(faults) =>
      && d.dev.done < |d.dev.fed|
      && (faults != [] ==> TaskCommand(d.dev.fed[d.dev.done]))
      && (d.dev.fed[d.dev.done].req.FenceReq? ==> d.dev.brewing == [])
    case Latch => d.dev.brewing != []
    case SlotError => true
    case IsrRead => d.isr.Out?
    case IsrHandle => d.isr.In?
  }

  function Tagged(faults: seq<Fault>, t: TaskId): seq<(Fault, TaskId)> {
    seq(|faults|, i requires 0 <= i < |faults| => (faults[i], t))
  }

  /** The device consumes the next command. */
  function Consumed(dev: Device, faults: seq<Fault>): Device
    requires dev.done < |dev.fed|
  {
    var f := dev.fed[dev.done];
    var dev1 := dev.(done := dev.done + 1);
    if f.req.FenceReq? then dev1.(reg := dev.reg.(fence := dev.reg.fence || f.req.value == dev.awaited))
    else if f.tag.Some? then dev1.(brewing := dev.brewing + Tagged(faults, f.tag.value))
    else dev1
  }

  /** The task that the next command raises faults for. */
  function RaisedBy(dev: Device, faults: seq<Fault>): set<TaskId>
    requires dev.done < |dev.fed|
  {
    if faults != [] && dev.fed[dev.done].tag.Some? then {dev.fed[dev.done].tag.value} else {}
  }

  /** The device sets the interrupt bit of the oldest fault. */
  function Latched(dev: Device): Device
    requires dev.brewing != []
  {
    var (fault, t) := dev.brewing[0];
    dev.(brewing := dev.brewing[1..],
         reg := if fault.CmdError? then dev.reg.(cmdBy := dev.reg.cmdBy + {t})
                else dev.reg.(memBy := dev.reg.memBy + {t}))
  }

  function ReadStatus(reg: Reg): Status { Status(reg.fence, reg.cmdBy != {}, reg.memBy != {}, reg.slot) }

  /** The bits of the status are cleared, with whatever was latched into them since the read. */
  function Cleared(reg: Reg, st: Status): Reg {
    Reg(if st.cmd then {} else reg.cmdBy, if st.mem then {} else reg.memBy,
        reg.fence && !st.fence, reg.slot && !st.slot)
  }

  /** The tasks whose faults are cleared. */
  function Culprits(reg: Reg, st: Status): set<TaskId> {
    (if st.cmd then reg.cmdBy else {}) + (if st.mem then reg.memBy else {})
  }

  /** The interrupt handler fails the context of the running task. */
  function Charged(d: Data, st: Status, t: TaskId): Data
    requires WfData(d) && t < |d.log|
  {
    var c := d.log[t].ctx;
    d.(ctxs := d.ctxs[c := d.ctxs[c].(failed := true)],
       hist := d.hist.(charged := d.hist.charged + set x | x in Culprits(d.dev.reg, st) :: (x, c)))
  }

  /** Second half of the interrupt handler: clear the bits, fail the context of the running task on an error,
      and note the arrival of the fence. */
  function HandledData(d: Data, running: Option<TaskId>, st: Status): Data
    requires WfData(d) && (running.Some? ==> running.value < |d.log|)
  {
    var d1 := if (st.cmd || st.mem) && running.Some? then Charged(d, st, running.value) else d;
    d1.(dev := d.dev.(reg := Cleared(d.dev.reg, st)), isr := Out)
  }

  function DeviceData(s: State, step: DeviceStep): Data
    requires Wf(s) && DeviceEnabled(s.d, step)
  {
    match step
    case Consume(faults) =>
      s.d.(dev := Consumed(s.d.dev, faults), hist := s.d.hist.(raised := s.d.hist.raised + RaisedBy(s.d.dev, faults)))
    case Latch => s.d.(dev := Latched(s.d.dev))
    case SlotError => s.d.(dev := s.d.dev.(reg := s.d.dev.reg.(slot := true)))
    case IsrRead => s.d.(isr := In(ReadStatus(s.d.dev.reg)))
    case IsrHandle => HandledData(s.d, s.ctl.running, s.d.isr.st)
  }

  function DeviceCtl(s: State, step: DeviceStep): Ctl
    requires step.IsrHandle? ==> s.d.isr.In?
  {
    if step.IsrHandle? && s.d.isr.st.fence && s.ctl.running.Some? then s.ctl.(fence := Reached) else s.ctl
  }

  // ---------- Steps of the release of a context and of a buffer ----------

  datatype ReleaseStep =
    | Mark(c: CtxId)
    | WaitTasks(c: CtxId)
    | CloseBuf(b: BufId)
    | FreeCtx(c: CtxId)
    | FreeBuf(b: BufId)

  predicate OnlyWrites(subs: multiset<Submission>) { forall sub :: sub in subs ==> sub.kind.Write? }

  /** No buffer is on the list of a context. */
  predicate NoneListed(bufs: map<BufId, Buf>, c: CtxId) {
    forall b :: b in bufs && bufs[b].ctx == c ==> !bufs[b].life.ctxRef
  }

  predicate ReleaseEnabled(d: Data, r: ReleaseStep) {
    match r
    case Mark(c) => d.isr.Out? && c in d.ctxs && d.ctxs[c].phase.Open? && OnlyWrites(d.ctxs[c].inflight)
    case WaitTasks(c) => c in d.ctxs && d.ctxs[c].phase.Marked? && d.ctxs[c].taskCount <= 0
    case CloseBuf(b) =>
      && d.isr.Out? && b in d.bufs && d.bufs[b].life.ctxRef
      && d.bufs[b].ctx in d.ctxs && d.ctxs[d.bufs[b].ctx].phase.Closing?
    case FreeCtx(c) => c in d.ctxs && d.ctxs[c].phase.Closing? && NoneListed(d.bufs, c)
    case FreeBuf(b) =>
      d.isr.Out? && b in d.bufs && !d.bufs[b].life.userRef && !d.bufs[b].life.ctxRef && !d.bufs[b].life.freed
  }

  function MarkDestroyed(bufs: map<BufId, Buf>, c: CtxId): map<BufId, Buf> {
    map b | b in bufs :: if bufs[b].ctx == c then bufs[b].(life := bufs[b].life.(destroyed := true)) else bufs[b]
  }

  function SetPhase(d: Data, c: CtxId, phase: Phase): Data
    requires c in d.ctxs
  {
    d.(ctxs := d.ctxs[c := d.ctxs[c].(phase := phase)])
  }

  function SetLife(d: Data, b: BufId, life: Life): Data
    requires b in d.bufs
  {
    d.(bufs := d.bufs[b := d.bufs[b].(life := life)])
  }

  /** A buffer is taken off the list of its context. */
  function ClosedOne(d: Data, b: BufId): Data
    requires b in d.bufs
  {
    SetLife(Unbound(d, b), b, d.bufs[b].life.(ctxRef := false))
  }

  function ReleaseData(d: Data, r: ReleaseStep): Data
    requires WfData(d) && ReleaseEnabled(d, r)
  {
    match r
    case Mark(c) => SetPhase(d.(bufs := MarkDestroyed(d.bufs, c)), c, Marked)
    case WaitTasks(c) => SetPhase(d, c, Closing)
    case CloseBuf(b) => ClosedOne(d, b)
    case FreeCtx(c) => SetPhase(d, c, Gone)
    case FreeBuf(b) => SetLife(Unbound(d, b), b, d.bufs[b].life.(freed := true))
  }

  // ---------- Runs ----------

  datatype Label = Worker | User(u: UserStep) | Dev(step: DeviceStep) | Rel(r: ReleaseStep)

  ghost predicate Enabled(s: State, l: Label)
    requires Wf(s)
  {
    match l
    case Worker => WorkerLocks(s.ctl.pc) ==> s.d.isr.Out?
    case User(u) => UserEnabled(s.d, u)
    case Dev(step) => DeviceEnabled(s.d, step)
    case Rel(r) => ReleaseEnabled(s.d, r)
  }

  function Apply(s: State, l: Label): State
    requires Wf(s) && Enabled(s, l)
  {
    match l
    case Worker => WorkerApply(s)
    case User(u) => State(UserCtl(s, u), UserData(s.d, u))
    case Dev(step) => State(DeviceCtl(s, step), DeviceData(s, step))
    case Rel(r) => State(s.ctl, ReleaseData(s.d, r))
  }

  ghost predicate Step(s: State, l: Label, s': State) { Wf(s) && Enabled(s, l) && s' == Apply(s, l) }

  ghost predicate StepAt(states: seq<State>, labels: seq<Label>, i: nat)
    requires i < |labels| && |states| == |labels| + 1
  {
    Step(states[i], labels[i], states[i + 1])
  }

  ghost predicate IsRun(states: seq<State>, labels: seq<Label>) {
    && |states| == |labels| + 1
    && states[0] == INITIAL
    && forall i :: 0 <= i < |labels| ==> StepAt(states, labels, i)
  }
}
