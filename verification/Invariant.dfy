/** The invariant of the driver, in four parts: the state as a whole, every task, every buffer and every context. */
module Invariant {
  import opened Basics
  import opened Slots
  import opened Translator
  import opened Protocol
  import opened Control
  import opened Signals
  import opened Binding
  import opened Counting
  import opened Lifetime
  import opened Aim
  import opened Fates
  import opened Blame
  import opened Script
  import opened Readers
  import opened CutOff

  ghost predicate Core(s: State) {
    && Wf(s)
    && Controlled(|s.d.log|, s.ctl)
    && SignalsOk(s.d.dev, s.d.isr, StageOf(s.ctl)) && TagsMatch(s.d.dev.fed)
    && BindingOk(s.d)
    && Counted(s.d, s.ctl)
    && LifeOk(s.d.ctxs, s.d.bufs)
    && AimOk(s)
  }

  /** History and the words fed. */
  ghost predicate Traced(s: State) {
    && HistNames(s.d.hist, |s.d.log|)
    && FeedOrder(s.d.dev.fed, s.d.hist.slotOf)
    && AllAtHome(s.d)
    && MadeOk(s.d.log, s.ctl)
  }

  /** A task on the list is what the translation makes of its words for its output buffer. */
  predicate Translated(task: Task, allowed: Word) {
    && task.parsed == Parse(task.words, allowed)
    && !task.parsed.verdict.Truncated?
    && |task.counts| == |task.parsed.cmds|
    && forall i :: 0 <= i < |task.counts| ==> task.counts[i] == Published(task.parsed.cmds[i])
  }

  ghost predicate TaskInv(s: State, t: TaskId)
    requires Wf(s) && t < |s.d.log|
  {
    && FateOk(s.d.hist, |s.d.log|, s.ctl, t)
    && ParseOk(s.d, s.ctl.pc, t)
    && FaultOk(s.d, StageOf(s.ctl), t)
    && ScriptOk(s.d, s.ctl, t)
    && RecordOk(s.d, s.ctl, t)
    && Translated(s.d.log[t], s.d.bufs[s.d.log[t].buf].allowed)
  }

  ghost predicate BufInv(s: State, b: BufId) { ReaderOk(s.d, b) && KeeperOk(s.d, s.ctl, b) }

  ghost predicate CtxInv(s: State, c: CtxId)
    requires Wf(s)
  {
    GuiltOk(s.d, c) && CutOk(s.d, s.ctl, c)
  }

  ghost predicate Inv(s: State) {
    && Core(s)
    && Traced(s)
    && (forall t :: 0 <= t < |s.d.log| ==> TaskInv(s, t))
    && (forall b :: BufInv(s, b))
    && (forall c :: CtxInv(s, c))
  }

  lemma InitialInv(s: State)
    requires s == INITIAL
    ensures Inv(s)
  {
    InitialCore(s);
  }

  lemma InitialCore(s: State)
    requires s == INITIAL
    ensures Core(s)
  {
    assert forall k :: 0 <= k < NUM_SLOTS ==> INITIAL.d.slots.table[k].None?;
  }

  /** What the work thread is about to do can be done: its pointers are set, the list is not empty where it takes a
      task, there is an empty slot where it binds, and the buffer is bound where it inserts the slot. */
  lemma NotStuck(s: State)
    requires Core(s)
    ensures !Stuck(s)
  {
    FreeSlotOk(s.d.slots);
  }
}
