/** The results that a buffer offers to its reader. */
module Results {
  import opened Slots
  import opened Translator
  import opened Protocol
  import opened Evolution
  import opened Counting
  import opened Readers
  import opened Invariant
  import opened UserSteps
  import opened DeviceSteps
  import opened ReleaseSteps
  import opened Runs
  import Conservation

  lemma {:induction false} SumIsPublished(cmds: seq<UserCmd>, counts: seq<nat>, k: nat)
    requires k <= |cmds| == |counts| && forall i :: 0 <= i < |counts| ==> counts[i] == Published(cmds[i])
    ensures SumTo(counts, k) == PublishedSum(cmds[..k])
  {
    if k > 0 {
      SumIsPublished(cmds, counts, k - 1);
      assert cmds[..k][..k - 1] == cmds[..k - 1];
    }
  }

  /** What a task destroyed on a buffer published: the results of all its commands, or none if it was dropped. */
  predicate EntryPublished(d: Data, b: BufId, e: (TaskId, nat)) {
    && e.0 < |d.log| && d.log[e.0].buf == b && e.0 in d.hist.destroyed
    && e.1 == if e.0 in d.hist.dropped then 0 else PublishedSum(d.log[e.0].parsed.cmds)
  }

  /** The reader of a buffer and the tasks on its record. */
  lemma ReaderRecord(s: State, b: BufId)
    requires Reachable(s) && b in s.d.bufs
    ensures var r := s.d.bufs[b].reader;
            && 0 <= r.offset <= r.count && r.count == SumSince(r.since)
            && forall i :: 0 <= i < |r.since| ==> EntryPublished(s.d, b, r.since[i])
  {
    ReachableBuf(s, b);
    var r := s.d.bufs[b].reader;
    forall i | 0 <= i < |r.since| ensures EntryPublished(s.d, b, r.since[i]) {
      var task := s.d.log[r.since[i].0];
      assert EntryOk(s.d, b, r.since[i]);
      ReachableTask(s, r.since[i].0);
      SumIsPublished(task.parsed.cmds, task.counts, |task.counts|);
      assert task.parsed.cmds[..|task.counts|] == task.parsed.cmds;
    }
  }

  predicate Resets(r: Reader, r': Reader) { r'.count < r.count || r'.offset < r.offset }

  lemma WorkResets(s: State, b: BufId)
    requires Wf(s) && !Stuck(s) && b in s.d.bufs && Resets(s.d.bufs[b].reader, NewReader(s, b))
    ensures s.ctl.pc.BindSlot?
  {
  }

  lemma WorkerResets(s: State, b: BufId)
    requires Wf(s) && !Stuck(s) && b in s.d.bufs && b in Work(s).bufs
             && Resets(s.d.bufs[b].reader, Work(s).bufs[b].reader)
    ensures s.ctl.pc.BindSlot?
  {
    WorkBuf(s, b);
    WorkResets(s, b);
  }

  lemma ResetStep(s: State, l: Label, s': State, b: BufId)
    requires Core(s) && Step(s, l, s') && b in s.d.bufs && b in s'.d.bufs
             && Resets(s.d.bufs[b].reader, s'.d.bufs[b].reader)
    ensures l.Worker? && s.ctl.pc.BindSlot?
  {
    match l
    case Worker =>
      NotStuck(s);
      WorkerResets(s, b);
    case User(u) => UserKeepsBuf(s.d, u, b);
    case Dev(step) => DeviceKeeps(s, step);
    case Rel(r) => ReleaseKeepsBuf(s.d, r, b);
  }

  /** No reader is reset while a task is running, whatever its buffer. */
  lemma NoResetWhileRunning(states: seq<State>, labels: seq<Label>, i: nat, b: BufId)
    requires IsRun(states, labels) && i < |labels| && b in states[i].d.bufs && b in states[i + 1].d.bufs
    requires Resets(states[i].d.bufs[b].reader, states[i + 1].d.bufs[b].reader)
    ensures labels[i].Worker? && states[i].ctl.pc.BindSlot? && states[i].ctl.running.None?
  {
    RunStep(states, labels, i);
    ResetStep(states[i], labels[i], states[i + 1], b);
  }

  // ---------- The steps of a run ----------

  /** The step binds the buffer. */
  predicate Binds(s: State, l: Label, b: BufId) {
    && l.Worker? && s.ctl.pc.BindSlot? && s.ctl.next.Some? && s.ctl.next.value < |s.d.log|
    && s.d.log[s.ctl.next.value].buf == b
  }

  /** The task on the buffer that the step destroys, if any. */
  function DestroyedOn(s: State, l: Label, b: BufId): seq<TaskId> {
    var t := Retires(s.ctl.pc);
    if l.Worker? && t.Some? && t.value < |s.d.log| && s.d.log[t.value].buf == b then [t.value] else []
  }

  /** The tasks destroyed on a buffer in the first `i` steps of a run, since the last of them that binds the buffer. */
  function SinceBound(states: seq<State>, labels: seq<Label>, b: BufId, i: nat): seq<TaskId>
    requires |states| == |labels| + 1 && i <= |labels|
  {
    if i == 0 || Binds(states[i - 1], labels[i - 1], b) then []
    else SinceBound(states, labels, b, i - 1) + DestroyedOn(states[i - 1], labels[i - 1], b)
  }

  function Firsts(since: seq<(TaskId, nat)>): seq<TaskId> {
    if since == [] then [] else Firsts(since[..|since| - 1]) + [since[|since| - 1].0]
  }

  lemma FirstsAdded(since: seq<(TaskId, nat)>, t: TaskId, made: nat)
    ensures Firsts(since + [(t, made)]) == Firsts(since) + [t]
  {
    assert (since + [(t, made)])[..|since|] == since;
  }

  lemma WorkSince(d: Data, x: Deed, b: BufId)
    requires Can(d, x) && b in d.bufs
    ensures Firsts(ReaderAfter(d, x, b).since)
         == if x.DoBind? && x.buf == b then []
            else if RetiredBy(x).Some? && d.log[x.task].buf == b then Firsts(d.bufs[b].reader.since) + [x.task]
            else Firsts(d.bufs[b].reader.since)
  {
    if RetiredBy(x).Some? {
      FirstsAdded(d.bufs[b].reader.since, x.task, if x.DoRetire? then x.made else 0);
    }
  }

  lemma StepSince(s: State, l: Label, s': State, b: BufId)
    requires Core(s) && Step(s, l, s') && b in s.d.bufs
    ensures b in s'.d.bufs
    ensures Firsts(s'.d.bufs[b].reader.since)
         == if Binds(s, l, b) then [] else Firsts(s.d.bufs[b].reader.since) + DestroyedOn(s, l, b)
  {
    match l
    case Worker =>
      NotStuck(s);
      WorkerSince(s, b);
    case _ => OtherSince(s, l, s', b);
  }

  lemma OtherSince(s: State, l: Label, s': State, b: BufId)
    requires Wf(s) && Step(s, l, s') && b in s.d.bufs && !l.Worker?
    ensures b in s'.d.bufs && s'.d.bufs[b].reader.since == s.d.bufs[b].reader.since
  {
    match l
    case User(u) => UserKeepsBuf(s.d, u, b);
    case Dev(step) => DeviceKeeps(s, step);
    case Rel(r) => ReleaseKeepsBuf(s.d, r, b);
  }

  lemma WorkerSince(s: State, b: BufId)
    requires Wf(s) && !Stuck(s) && b in s.d.bufs
    ensures b in Work(s).bufs
    ensures Firsts(Work(s).bufs[b].reader.since)
         == if Binds(s, Worker, b) then [] else Firsts(s.d.bufs[b].reader.since) + DestroyedOn(s, Worker, b)
  {
    WorkBuf(s, b);
    WorkSince(s.d, DeedOf(s), b);
  }

  /** A buffer that is created has no record, and nothing happened on it. */
  lemma NewSince(s: State, l: Label, s': State, b: BufId)
    requires Core(s) && Step(s, l, s') && b !in s.d.bufs
    ensures !Binds(s, l, b) && DestroyedOn(s, l, b) == []
    ensures b in s'.d.bufs ==> s'.d.bufs[b].reader.since == []
  {
    match l
    case Worker =>
      NotStuck(s);
      WorkGrows(s);
    case User(u) => UserKeepsBuf(s.d, u, b);
    case Dev(step) => DeviceKeeps(s, step);
    case Rel(r) => ReleaseKeepsBuf(s.d, r, b);
  }

  lemma SinceAt(states: seq<State>, labels: seq<Label>, b: BufId, k: nat)
    requires IsRun(states, labels) && k < |labels|
    ensures b in states[k].d.bufs ==>
              b in states[k + 1].d.bufs && Firsts(states[k + 1].d.bufs[b].reader.since)
              == if Binds(states[k], labels[k], b) then []
                 else Firsts(states[k].d.bufs[b].reader.since) + DestroyedOn(states[k], labels[k], b)
    ensures b !in states[k].d.bufs ==> !Binds(states[k], labels[k], b) && DestroyedOn(states[k], labels[k], b) == []
    ensures b !in states[k].d.bufs && b in states[k + 1].d.bufs ==> states[k + 1].d.bufs[b].reader.since == []
  {
    RunStep(states, labels, k);
    if b in states[k].d.bufs {
      StepSince(states[k], labels[k], states[k + 1], b);
    } else {
      NewSince(states[k], labels[k], states[k + 1], b);
    }
  }

  /** The record of a buffer lists what happened on it since it was bound. */
  lemma {:induction false} RecordIsHistory(states: seq<State>, labels: seq<Label>, b: BufId, i: nat)
    requires IsRun(states, labels) && i < |states|
    ensures b !in states[i].d.bufs ==> SinceBound(states, labels, b, i) == []
    ensures b in states[i].d.bufs ==> Firsts(states[i].d.bufs[b].reader.since) == SinceBound(states, labels, b, i)
  {
    if i > 0 {
      RecordIsHistory(states, labels, b, i - 1);
      SinceAt(states, labels, b, i - 1);
    }
  }

  // ---------- The results of a run ----------

  /** What the tasks published: the results of all their commands, and none for those that were dropped. */
  function ResultsOf(d: Data, ts: seq<TaskId>): nat {
    if ts == [] then 0 else ResultsOf(d, ts[..|ts| - 1]) + ResultOf(d, ts[|ts| - 1])
  }

  function ResultOf(d: Data, t: TaskId): nat {
    if t in d.hist.dropped || t >= |d.log| then 0 else PublishedSum(d.log[t].parsed.cmds)
  }

  lemma {:induction false} SumIsResults(d: Data, b: BufId, since: seq<(TaskId, nat)>)
    requires forall i :: 0 <= i < |since| ==> EntryPublished(d, b, since[i])
    ensures SumSince(since) == ResultsOf(d, Firsts(since))
  {
    if since != [] {
      var front, last := since[..|since| - 1], since[|since| - 1];
      SumIsResults(d, b, front);
      assert EntryPublished(d, b, last);
      assert Firsts(since)[..|Firsts(since)| - 1] == Firsts(front);
    }
  }

  /** In every run the reader of a buffer never gets ahead of the results, so that their unsigned difference does not
      wrap, and the results are those of the tasks destroyed on the buffer since it was last bound. */
  lemma ReaderIsExact(states: seq<State>, labels: seq<Label>, b: BufId, i: nat)
    requires IsRun(states, labels) && i < |states| && b in states[i].d.bufs
    ensures var r := states[i].d.bufs[b].reader;
            0 <= r.offset <= r.count == ResultsOf(states[i].d, SinceBound(states, labels, b, i))
  {
    PrefixReachable(states, labels, i);
    ReaderRecord(states[i], b);
    RecordIsHistory(states, labels, b, i);
    SumIsResults(states[i].d, b, states[i].d.bufs[b].reader.since);
  }

  /** None of these tasks is counted twice. */
  lemma {:induction false} CountedOnce(states: seq<State>, labels: seq<Label>, b: BufId, i: nat, j: nat, k: nat)
    requires IsRun(states, labels) && i < |states| && j < k < |SinceBound(states, labels, b, i)|
    ensures SinceBound(states, labels, b, i)[j] != SinceBound(states, labels, b, i)[k]
  {
    var front, last := SinceBound(states, labels, b, i - 1), DestroyedOn(states[i - 1], labels[i - 1], b);
    if k < |front| {
      CountedOnce(states, labels, b, i - 1, j, k);
    } else {
      RecordDestroyed(states, labels, b, i - 1, j);
      Conservation.DestroysIt(states, labels, i - 1, last[0]);
    }
  }

  lemma {:induction false} RecordDestroyed(states: seq<State>, labels: seq<Label>, b: BufId, i: nat, j: nat)
    requires IsRun(states, labels) && i < |states| && j < |SinceBound(states, labels, b, i)|
    ensures SinceBound(states, labels, b, i)[j] in states[i].d.hist.destroyed
  {
    var front, last := SinceBound(states, labels, b, i - 1), DestroyedOn(states[i - 1], labels[i - 1], b);
    if j < |front| {
      RecordDestroyed(states, labels, b, i - 1, j);
      RunGrows(states, labels, i - 1, i);
    } else {
      Conservation.DestroysIt(states, labels, i - 1, last[0]);
    }
  }
}
