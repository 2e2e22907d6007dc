/** Results and slots of a buffer over time: the reader counts exactly what the tasks destroyed since the last
    binding published, and a buffer that stays bound is kept for a write. */
module Readers {
  import opened Basics
  import opened Slots
  import opened Protocol
  import opened Control
  import opened Counting
  import opened Fates

  function SumTo(counts: seq<nat>, k: nat): nat
    requires k <= |counts|
  {
    if k == 0 then 0 else SumTo(counts, k - 1) + counts[k - 1]
  }

  /** The number of results that all commands of a task publish. */
  function Total(task: Task): nat { SumTo(task.counts, |task.counts|) }

  // ---------- The result count of the running task ----------

  predicate MadeOk(log: seq<Task>, ctl: Ctl) {
    ctl.running.Some? && ctl.running.value < |log| ==>
      var task := log[ctl.running.value];
      if ctl.pc.RunCmd? then ctl.pc.k <= |task.counts| && ctl.made == SumTo(task.counts, ctl.pc.k)
      else ctl.made == Total(task)
  }

  lemma WorkMade(s: State)
    requires Wf(s) && !Stuck(s) && AtPc(|s.d.log|, s.ctl) && MadeOk(s.d.log, s.ctl)
    ensures MadeOk(s.d.log, Walk(s.ctl, See(s)))
  {
    if s.ctl.pc.RunCmd? {
      assert TaskWf(s.d.log[s.ctl.next.value], s.d.ctxs, s.d.bufs);
    }
  }

  // ---------- The reader ----------

  function SumSince(since: seq<(TaskId, nat)>): nat {
    if since == [] then 0 else SumSince(since[..|since| - 1]) + since[|since| - 1].1
  }

  /** A task destroyed on a buffer, with what it published: nothing if it was dropped. */
  predicate EntryOk(d: Data, b: BufId, e: (TaskId, nat)) {
    && e.0 < |d.log| && d.log[e.0].buf == b && e.0 in d.hist.destroyed
    && e.1 == if e.0 in d.hist.dropped then 0 else Total(d.log[e.0])
  }

  /** Reads never get ahead of results, and the results are those of the tasks destroyed since the last binding. */
  ghost predicate ReaderOk(d: Data, b: BufId) {
    b in d.bufs ==>
      var r := d.bufs[b].reader;
      && 0 <= r.offset <= r.count
      && r.count == SumSince(r.since)
      && forall i :: 0 <= i < |r.since| ==> EntryOk(d, b, r.since[i])
  }

  function ReleasedReader(d: Data, t: TaskId, b: BufId): Reader
    requires WfData(d) && t < |d.log| && b in d.bufs
  {
    var r := d.bufs[b].reader;
    if d.log[t].buf == b then r.(last := Some((t, d.ctxs[d.log[t].ctx].failed))) else r
  }

  function ReleasedSlot(d: Data, t: TaskId, b: BufId): int
    requires WfData(d) && t < |d.log| && b in d.bufs
  {
    var k := d.bufs[b].slot;
    if d.log[t].buf == b && !Keeps(d, t) && 0 <= k < |d.slots.table| then NO_SLOT else k
  }

  lemma ReleasedBuf(d: Data, t: TaskId, b: BufId)
    requires WfData(d) && t < |d.log| && b in d.bufs
    ensures b in Released(d, t).bufs
    ensures Released(d, t).bufs[b].reader == ReleasedReader(d, t, b)
            && Released(d, t).bufs[b].slot == ReleasedSlot(d, t, b)
  {
  }

  /** The reader and the slot of a buffer after a deed. */
  function ReaderAfter(d: Data, x: Deed, b: BufId): Reader
    requires Can(d, x) && b in d.bufs
  {
    var r := d.bufs[b].reader;
    match x
    case DoRelease(t) => ReleasedReader(d, t, b)
    case DoDrop(t) => if d.log[t].buf == b then Added(r, t, 0) else r
    case DoBind(b', _) => if b' == b then Reader(0, 0, [], None) else r
    case DoRetire(t, made) => if d.log[t].buf == b then Added(r, t, made) else r
    case _ => r
  }

  function SlotAfter(d: Data, x: Deed, b: BufId): int
    requires Can(d, x) && b in d.bufs
  {
    match x
    case DoRelease(t) => ReleasedSlot(d, t, b)
    case DoBind(b', k) => if b' == b then k else d.bufs[b].slot
    case _ => d.bufs[b].slot
  }

  function NewReader(s: State, b: BufId): Reader
    requires Wf(s) && !Stuck(s) && b in s.d.bufs
  {
    ReaderAfter(s.d, DeedOf(s), b)
  }

  function NewSlot(s: State, b: BufId): int
    requires Wf(s) && !Stuck(s) && b in s.d.bufs
  {
    SlotAfter(s.d, DeedOf(s), b)
  }

  function Added(r: Reader, t: TaskId, made: nat): Reader {
    r.(count := r.count + made, since := r.since + [(t, made)])
  }

  predicate Keeps(d: Data, t: TaskId)
    requires WfData(d) && t < |d.log|
  {
    d.log[t].kind.Write? && !d.ctxs[d.log[t].ctx].failed
  }

  lemma RetiredBuf(d: Data, t: TaskId, made: nat, b: BufId)
    requires WfData(d) && t < |d.log| && b in d.bufs
    ensures b in Retired(d, t, made).bufs && Retired(d, t, made).bufs[b].slot == d.bufs[b].slot
    ensures Retired(d, t, made).bufs[b].reader
         == if d.log[t].buf == b then Added(d.bufs[b].reader, t, made) else d.bufs[b].reader
  {
  }

  lemma DeedBuf(d: Data, x: Deed, b: BufId)
    requires Can(d, x) && b in d.bufs
    ensures var d' := Effect(d, x);
            b in d'.bufs && d'.bufs[b].reader == ReaderAfter(d, x, b) && d'.bufs[b].slot == SlotAfter(d, x, b)
  {
    match x
    case DoRelease(t) => ReleasedBuf(d, t, b);
    case DoDrop(t) => RetiredBuf(d, t, 0, b);
    case DoRetire(t, made) => RetiredBuf(d, t, made, b);
    case DoBind(b', k) =>
    case _ => assert Effect(d, x).bufs == d.bufs;
  }

  lemma WorkBuf(s: State, b: BufId)
    requires Wf(s) && !Stuck(s) && b in s.d.bufs
    ensures b in Work(s).bufs && Work(s).bufs[b].reader == NewReader(s, b) && Work(s).bufs[b].slot == NewSlot(s, b)
  {
    DeedBuf(s.d, DeedOf(s), b);
  }

  lemma SumAdded(since: seq<(TaskId, nat)>, t: TaskId, made: nat)
    ensures SumSince(since + [(t, made)]) == SumSince(since) + made
  {
    assert (since + [(t, made)])[..|since|] == since;
  }

  lemma WorkEntry(s: State, b: BufId, e: (TaskId, nat))
    requires Wf(s) && !Stuck(s) && EntryOk(s.d, b, e)
    requires Retires(s.ctl.pc).Some? ==> Retires(s.ctl.pc).value !in s.d.hist.destroyed
    ensures EntryOk(Work(s), b, e)
  {
    WorkHistoryOk(s);
  }

  /** The entry of the task that is retired. */
  lemma RetiredEntry(s: State)
    requires Wf(s) && !Stuck(s) && AtPc(|s.d.log|, s.ctl) && MadeOk(s.d.log, s.ctl) && Retires(s.ctl.pc).Some?
    requires FateOk(s.d.hist, |s.d.log|, s.ctl, s.ctl.pc.task)
    ensures EntryOk(Work(s), s.d.log[s.ctl.pc.task].buf, (s.ctl.pc.task, if s.ctl.pc.FinCount? then s.ctl.made else 0))
  {
    WorkHistoryOk(s);
  }

  lemma AddedReader(d: Data, b: BufId, r: Reader, t: TaskId, made: nat)
    requires b in d.bufs && d.bufs[b].reader == Added(r, t, made)
    requires 0 <= r.offset <= r.count && r.count == SumSince(r.since)
    requires forall i :: 0 <= i < |r.since| ==> EntryOk(d, b, r.since[i])
    requires EntryOk(d, b, (t, made))
    ensures ReaderOk(d, b)
  {
    SumAdded(r.since, t, made);
  }

  lemma RetireReader(s: State)
    requires Wf(s) && !Stuck(s) && AtPc(|s.d.log|, s.ctl) && MadeOk(s.d.log, s.ctl) && Retires(s.ctl.pc).Some?
    requires FateOk(s.d.hist, |s.d.log|, s.ctl, s.ctl.pc.task) && ReaderOk(s.d, s.d.log[s.ctl.pc.task].buf)
    ensures ReaderOk(Work(s), s.d.log[s.ctl.pc.task].buf)
  {
    var b := s.d.log[s.ctl.pc.task].buf;
    assert TaskWf(s.d.log[s.ctl.pc.task], s.d.ctxs, s.d.bufs);
    WorkBuf(s, b);
    RetiredEntry(s);
    var r := s.d.bufs[b].reader;
    forall i | 0 <= i < |r.since| ensures EntryOk(Work(s), b, r.since[i]) {
      WorkEntry(s, b, r.since[i]);
    }
    AddedReader(Work(s), b, r, s.ctl.pc.task, if s.ctl.pc.FinCount? then s.ctl.made else 0);
  }

  lemma OtherReader(s: State, b: BufId)
    requires Wf(s) && !Stuck(s) && b in s.d.bufs && ReaderOk(s.d, b)
    requires Retires(s.ctl.pc).Some? ==> s.ctl.pc.task !in s.d.hist.destroyed && s.d.log[s.ctl.pc.task].buf != b
    ensures ReaderOk(Work(s), b)
  {
    WorkBuf(s, b);
    var r, r' := s.d.bufs[b].reader, NewReader(s, b);
    assert (r'.since, r'.count, r'.offset) == (r.since, r.count, r.offset) || r' == Reader(0, 0, [], None);
    forall i | 0 <= i < |r'.since| ensures EntryOk(Work(s), b, r'.since[i]) {
      WorkEntry(s, b, r.since[i]);
    }
  }

  lemma WorkReader(s: State, b: BufId)
    requires Wf(s) && !Stuck(s) && AtPc(|s.d.log|, s.ctl) && Work(s).bufs.Keys == s.d.bufs.Keys
    requires ReaderOk(s.d, b) && MadeOk(s.d.log, s.ctl)
    requires Retires(s.ctl.pc).Some? ==> FateOk(s.d.hist, |s.d.log|, s.ctl, Retires(s.ctl.pc).value)
    ensures ReaderOk(Work(s), b)
  {
    if b in s.d.bufs {
      if Retires(s.ctl.pc).Some? && s.d.log[s.ctl.pc.task].buf == b {
        RetireReader(s);
      } else {
        OtherReader(s, b);
      }
    }
  }

  /** Steps of others: a read moves the offset, all else leaves the reader alone. */
  lemma KeptReader(d: Data, d': Data, b: BufId)
    requires ReaderOk(d, b) && d.log <= d'.log && d'.hist.destroyed == d.hist.destroyed
             && d'.hist.dropped == d.hist.dropped
    requires b in d.bufs && b in d'.bufs
    requires var r, r' := d.bufs[b].reader, d'.bufs[b].reader;
             r' == r || (r.count != r.offset && r' == r.(offset := r.offset + 1))
    ensures ReaderOk(d', b)
  {
    forall i | 0 <= i < |d'.bufs[b].reader.since| ensures EntryOk(d', b, d'.bufs[b].reader.since[i]) {
      assert EntryOk(d, b, d.bufs[b].reader.since[i]);
    }
  }

  // ---------- Buffers that stay bound ----------

  /** The most recent task destroyed on the buffer since it was bound is a write whose context had not failed. */
  predicate KeptForWrite(log: seq<Task>, b: BufId, last: Option<(TaskId, bool)>) {
    last.Some? && last.value.0 < |log| && log[last.value.0].buf == b && log[last.value.0].kind.Write? && !last.value.1
  }

  /** The task that the buffer is bound for, until it is finished. */
  predicate InUse(log: seq<Task>, ctl: Ctl, b: BufId) {
    || (ctl.next.Some? && ctl.next.value < |log| && log[ctl.next.value].buf == b)
    || (ctl.running.Some? && ctl.running.value < |log| && log[ctl.running.value].buf == b
        && !ctl.pc.FinCount? && !ctl.pc.FinFence? && !ctl.pc.FinClear?)
  }

  predicate KeeperOk(d: Data, ctl: Ctl, b: BufId) {
    b in d.bufs && d.bufs[b].slot != NO_SLOT ==> KeptForWrite(d.log, b, d.bufs[b].reader.last) || InUse(d.log, ctl, b)
  }

  lemma WorkKeeper(s: State, b: BufId)
    requires Wf(s) && !Stuck(s) && AtPc(|s.d.log|, s.ctl) && Work(s).bufs.Keys == s.d.bufs.Keys
    requires KeeperOk(s.d, s.ctl, b)
    requires b in s.d.bufs ==> -1 <= s.d.bufs[b].slot < |s.d.slots.table|
    requires s.ctl.pc.DropUnbind? ==> s.d.ctxs[s.d.log[s.ctl.pc.task].ctx].failed
    ensures KeeperOk(Work(s), Walk(s.ctl, See(s)), b)
  {
    if b in s.d.bufs {
      WorkHistoryOk(s);
      WorkBuf(s, b);
    }
  }
}
