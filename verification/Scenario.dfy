/** Runs made to measure: one write after another, each without words, takes one slot after another and keeps it. */
module Scenario {
  import opened Basics
  import opened Slots
  import opened Translator
  import opened Protocol
  import opened Invariant
  import opened Runs
  import opened Progress
  import opened Completion
  import opened WorkThread

  // ---------- What is known of a state ----------

  const QUIET: Ctx := Ctx(false, 0, Open, multiset{}, 0, false)

  const NEW: Life := Life(false, true, true, false)

  /** Contexts are numbered up to `m`, and context `c` alone may have submissions. */
  ghost predicate CtxsAre(ctxs: map<CtxId, Ctx>, m: nat, c: CtxId, busy: Ctx) {
    && (forall x: CtxId :: x in ctxs <==> 0 <= x < m)
    && (forall x :: x in ctxs ==> ctxs[x] == if x == c then busy else QUIET)
  }

  /** Buffers are numbered up to `n`, buffer `x` is in slot `x` if `x` is below `taken`, and those from `split` on are
      not of context zero but of context one. */
  ghost predicate BufsAre(bufs: map<BufId, Buf>, n: nat, taken: nat, split: nat) {
    && (forall x: BufId :: x in bufs <==> 0 <= x < n)
    && (forall x :: x in bufs ==> BufIs(bufs[x], x, taken, split))
  }

  predicate BufIs(buf: Buf, x: BufId, taken: nat, split: nat) {
    && buf.ctx == OwnerOf(x, split) && buf.life == NEW && buf.allowed == 0
    && buf.slot == if x < taken then x else NO_SLOT
  }

  function OwnerOf(x: BufId, split: nat): CtxId { if x < split then 0 else 1 }

  predicate SlotsAre(slots: SlotTable, taken: nat) {
    && |slots.table| == NUM_SLOTS && slots.free == NUM_SLOTS - taken
    && forall k :: 0 <= k < NUM_SLOTS ==> (slots.table[k].Some? <==> k < taken)
  }

  datatype World = World(n: nat, taken: nat, split: nat, m: nat, c: CtxId, busy: Ctx)

  ghost predicate Known(s: State, w: World) {
    && Reachable(s) && Wf(s) && s.ctl.pc.Poll?
    && CtxsAre(s.d.ctxs, w.m, w.c, w.busy) && BufsAre(s.d.bufs, w.n, w.taken, w.split) && SlotsAre(s.d.slots, w.taken)
  }

  /** The device is quiet but for the last `k` commands fed. */
  predicate JustFed(dev: Device, k: nat) {
    && dev.done + k == |dev.fed| && dev.brewing == []
    && dev.reg.cmdBy == {} && dev.reg.memBy == {} && !dev.reg.fence
  }

  /** Nothing is going on. */
  ghost predicate AtRest(s: State) {
    && s.d.isr.Out? && JustFed(s.d.dev, 0)
    && s.ctl.fence.Idle? && s.ctl.pending == [] && s.ctl.next.None? && s.ctl.running.None?
  }

  ghost predicate Calm(s: State, n: nat, split: nat, m: nat) { Known(s, World(n, n, split, m, 0, QUIET)) && AtRest(s) }

  // ---------- Contexts and buffers ----------

  lemma Start(split: nat) returns (s: State)
    ensures Calm(s, 0, split, 0)
  {
    s := INITIAL;
    InitialInv(s);
    var labels: seq<Label> := [];
    assert IsRun([s], labels) && [s][|labels|] == s;
    assert forall k :: 0 <= k < NUM_SLOTS ==> s.d.slots.table[k].None?;
  }

  lemma OpenOne(s: State, n: nat, split: nat, m: nat) returns (s': State)
    requires Calm(s, n, split, m)
    ensures Calm(s', n, split, m + 1) && s'.d.log == s.d.log
  {
    ReachableStep(s, User(OpenCtx(m)));
    s' := Apply(s, User(OpenCtx(m)));
    ReachableWf(s');
  }

  lemma CreateOne(s: State, n: nat, split: nat, m: nat, c: CtxId) returns (s': State)
    requires Calm(s, n, split, m) && c < m && c == OwnerOf(n, split)
    ensures Known(s', World(n + 1, n, split, m, c, QUIET)) && AtRest(s') && s'.d.log == s.d.log
  {
    var u := CreateSet(n, c, 0, 0);
    ReachableStep(s, User(u));
    s' := Apply(s, User(u));
    ReachableWf(s');
  }

  // ---------- Submission ----------

  /** Task `t` was submitted by context `c` to buffer `b` with the given words, and is the last of the list. */
  predicate IsTask(s: State, c: CtxId, t: TaskId, kind: Kind, b: BufId, words: seq<Word>) {
    && t + 1 == |s.d.log| && b in s.d.bufs && s.d.bufs[b].ctx == c
    && s.d.log[t] == NewTask(Submission(kind, b), c, words, s.d.bufs[b].allowed)
  }

  const BUSY: Ctx := QUIET.(taskCount := 1)

  ghost predicate Listed(s: State, w: World, t: TaskId, kind: Kind, b: BufId, words: seq<Word>) {
    && Known(s, w) && IsTask(s, w.c, t, kind, b, words)
    && s.d.isr.Out? && JustFed(s.d.dev, 0)
    && s.ctl.fence.Idle? && s.ctl.running.None? && s.ctl.next.None? && s.ctl.pending == [t]
  }

  lemma SubmitOne(s: State, w: World, kind: Kind, b: BufId, words: seq<Word>) returns (s': State, t: TaskId)
    requires Known(s, w) && AtRest(s) && w.busy == QUIET && b in s.d.bufs && s.d.bufs[b].ctx == w.c
    requires Ends(words, s.d.bufs[b].allowed)
    ensures t == |s.d.log| && Listed(s', w.(busy := BUSY), t, kind, b, words) && s'.d.dev == s.d.dev
            && s'.d.bufs == s.d.bufs
    ensures s'.d.log[..|s.d.log|] == s.d.log
  {
    var sub := Submission(kind, b);
    ReachableStep(s, User(Begin(sub)));
    var s1 := Apply(s, User(Begin(sub)));
    ReachableWf(s1);
    t := |s.d.log|;
    s' := EnqueueOne(s1, w, kind, b, words);
  }

  lemma EnqueueOne(s: State, w: World, kind: Kind, b: BufId, words: seq<Word>) returns (s': State)
    requires Known(s, w.(busy := QUIET.(taskCount := 1, inflight := multiset{Submission(kind, b)}))) && AtRest(s)
    requires b in s.d.bufs && s.d.bufs[b].ctx == w.c && Ends(words, s.d.bufs[b].allowed)
    ensures Listed(s', w.(busy := BUSY), |s.d.log|, kind, b, words) && s'.d.dev == s.d.dev && s'.d.bufs == s.d.bufs
    ensures s'.d.log[..|s.d.log|] == s.d.log
  {
    var u := Enqueue(Submission(kind, b), words);
    assert multiset{Submission(kind, b)} - multiset{Submission(kind, b)} == multiset{};
    ReachableStep(s, User(u));
    s' := Apply(s, User(u));
    ReachableWf(s');
  }

  ghost predicate Fetched(s: State, w: World, t: TaskId, kind: Kind, b: BufId, words: seq<Word>) {
    && Known(s, w) && IsTask(s, w.c, t, kind, b, words) && s.d.isr.Out?
    && s.ctl.fence.Idle? && s.ctl.running.None? && s.ctl.next == Some(t) && s.ctl.pending == []
  }

  lemma FetchOne(s: State, w: World, t: TaskId, kind: Kind, b: BufId, words: seq<Word>) returns (s': State)
    requires Listed(s, w, t, kind, b, words) && w.busy == BUSY
    ensures Fetched(s', w, t, kind, b, words) && s'.d == s.d
  {
    RoundFollows(s);
    s' := RoundOf(s);
    ReachableWf(s');
    assert s' == AfterGetNext(s);
  }

  // ---------- A write without words ----------

  /** The last command fed binds, and is not a task's. */
  predicate LastBinds(dev: Device) {
    |dev.fed| > 0 && dev.fed[|dev.fed| - 1].req.BindReq? && dev.fed[|dev.fed| - 1].tag.None?
  }

  lemma BindWorld(d: Data, n: nat, b: BufId, split: nat)
    requires b < n && b < 16 && b in d.bufs && BufsAre(d.bufs, n, b, split) && SlotsAre(d.slots, b)
    ensures FreeSlot(d.slots) == b
    ensures BufsAre(BoundTo(d, b, b).bufs, n, b + 1, split) && SlotsAre(BoundTo(d, b, b).slots, b + 1)
  {
    assert d.slots.table[b].None?;
  }

  lemma BindOne(s: State, w: World, t: TaskId, kind: Kind, words: seq<Word>) returns (s': State)
    requires Fetched(s, w, t, kind, w.taken, words) && w.taken < 16 && JustFed(s.d.dev, 0)
    ensures Fetched(s', w.(taken := w.taken + 1), t, kind, w.taken, words) && JustFed(s'.d.dev, 1)
            && LastBinds(s'.d.dev)
    ensures s'.d.log == s.d.log
  {
    BindWorld(s.d, w.n, w.taken, w.split);
    RoundFollows(s);
    s' := RoundOf(s);
    ReachableWf(s');
    assert s' == State(s.ctl, BoundTo(s.d, w.taken, w.taken));
  }

  /** The fence of the task is awaited; the device has `k` commands left, and the last of them is the fence. */
  ghost predicate Awaited(s: State, w: World, t: TaskId, b: BufId, k: nat) {
    && Known(s, w) && IsTask(s, w.c, t, Write, b, []) && s.d.isr.Out? && 0 < k <= |s.d.dev.fed|
    && s.ctl.fence.Waiting? && s.ctl.running == Some(t) && s.ctl.next.None? && s.ctl.pending == []
    && JustFed(s.d.dev, k) && s.d.dev.awaited == TASK_FENCE
    && s.d.dev.fed[|s.d.dev.fed| - 1].req == FenceReq(TASK_FENCE)
    && (k == 2 ==> s.d.dev.fed[s.d.dev.done].req.BindReq? && s.d.dev.fed[s.d.dev.done].tag.None?)
  }

  lemma EmptyParse(allowed: Word)
    ensures Parse([], allowed) == Parsed([], Accepted)
  {
  }

  /** What the start and the fence of a task without words do. */
  lemma RunWorld(s: State, t: TaskId, b: BufId, c: CtxId)
    requires Wf(s) && IsTask(s, c, t, Write, b, []) && s.ctl.next == Some(t) && c in s.d.ctxs && !s.d.ctxs[c].failed
    ensures var s' := AfterRun(s);
            && s'.d.ctxs == s.d.ctxs && s'.d.bufs == s.d.bufs && s'.d.slots == s.d.slots && s'.d.log == s.d.log
            && s'.d.isr == s.d.isr
            && s'.d.dev == Feed(s.d.dev, FenceReq(TASK_FENCE), Some(t))
                           .(awaited := TASK_FENCE, fencePos := |s.d.dev.fed|)
            && s'.ctl == s.ctl.(fence := Waiting, running := Some(t), made := s'.ctl.made, next := None, pc := Poll)
  {
    EmptyParse(s.d.bufs[b].allowed);
    assert s.d.ctxs[c].(lateStarts := s.d.ctxs[c].lateStarts + 0) == s.d.ctxs[c];
    assert s.d.ctxs[c := s.d.ctxs[c]] == s.d.ctxs;
  }

  lemma RunOne(s: State, w: World, t: TaskId, b: BufId) returns (s': State)
    requires Fetched(s, w, t, Write, b, []) && b < w.taken && w.busy == BUSY
    requires JustFed(s.d.dev, 1) && LastBinds(s.d.dev)
    ensures Awaited(s', w, t, b, 2) && s'.d.log == s.d.log
  {
    RunRound(s);
    RunWorld(s, t, b, w.c);
    s' := AfterRun(s);
    ReachableWf(s');
  }

  lemma RunRound(s: State)
    requires Reachable(s) && Wf(s) && Unlocked(s, Poll) && s.ctl.fence.Idle? && s.ctl.next.Some? && NextBound(s)
    ensures Reachable(AfterRun(s))
  {
    RoundFollows(s);
  }

  lemma ConsumeBind(s: State, w: World, t: TaskId, b: BufId) returns (s': State)
    requires Awaited(s, w, t, b, 2)
    ensures Awaited(s', w, t, b, 1) && s'.d.log == s.d.log
  {
    ReachableStep(s, Dev(Consume([])));
    s' := Apply(s, Dev(Consume([])));
    ReachableWf(s');
  }

  /** The fence is in the register. */
  ghost predicate Arrived(s: State, w: World, t: TaskId, b: BufId) {
    && Known(s, w) && IsTask(s, w.c, t, Write, b, [])
    && s.ctl.running == Some(t) && s.ctl.next.None? && s.ctl.pending == [] && s.ctl.fence.Waiting?
    && s.d.dev.done == |s.d.dev.fed| && s.d.dev.brewing == []
    && s.d.dev.reg.cmdBy == {} && s.d.dev.reg.memBy == {} && s.d.dev.reg.fence
  }

  lemma ConsumeFence(s: State, w: World, t: TaskId, b: BufId) returns (s': State)
    requires Awaited(s, w, t, b, 1)
    ensures Arrived(s', w, t, b) && s'.d.isr.Out? && s'.d.log == s.d.log
  {
    ReachableStep(s, Dev(Consume([])));
    s' := Apply(s, Dev(Consume([])));
    ReachableWf(s');
  }

  ghost predicate Finishing(s: State, w: World, t: TaskId, b: BufId) {
    && Known(s, w) && IsTask(s, w.c, t, Write, b, []) && s.d.isr.Out? && JustFed(s.d.dev, 0)
    && s.ctl.running == Some(t) && s.ctl.next.None? && s.ctl.pending == [] && s.ctl.fence.Reached?
  }

  lemma ReadOne(s: State, w: World, t: TaskId, b: BufId) returns (s': State)
    requires Arrived(s, w, t, b) && s.d.isr.Out?
    ensures Arrived(s', w, t, b) && s'.d.isr == In(Status(true, false, false, s'.d.dev.reg.slot)) && s'.d.log == s.d.log
  {
    ReachableStep(s, Dev(IsrRead));
    s' := Apply(s, Dev(IsrRead));
    ReachableWf(s');
  }

  lemma HandleOne(s: State, w: World, t: TaskId, b: BufId) returns (s': State)
    requires Arrived(s, w, t, b) && s.d.isr == In(Status(true, false, false, s.d.dev.reg.slot))
    ensures Finishing(s', w, t, b) && s'.d.log == s.d.log
  {
    ReachableStep(s, Dev(IsrHandle));
    s' := Apply(s, Dev(IsrHandle));
    ReachableWf(s');
  }

  /** What the end of a write does. */
  lemma CompleteWorld(s: State, t: TaskId, b: BufId, c: CtxId)
    requires Wf(s) && IsTask(s, c, t, Write, b, []) && s.ctl.running == Some(t) && c in s.d.ctxs && !s.d.ctxs[c].failed
    ensures var s' := AfterFinish(s);
            && s'.d.ctxs == s.d.ctxs[c := s.d.ctxs[c].(taskCount := s.d.ctxs[c].taskCount - 1)]
            && b in s'.d.bufs && s'.d.bufs == s.d.bufs[b := s.d.bufs[b].(reader := s'.d.bufs[b].reader)]
            && s'.d.slots == s.d.slots && s'.d.log == s.d.log && s'.d.isr == s.d.isr && s'.d.dev == s.d.dev
            && s'.ctl == s.ctl.(fence := Idle, running := None, pc := Poll)
  {
  }

  lemma CompleteOne(s: State, w: World, t: TaskId, b: BufId) returns (s': State)
    requires Finishing(s, w, t, b) && w.busy == BUSY && w.c < w.m && w.n == w.taken
    ensures Calm(s', w.n, w.split, w.m) && s'.d.log == s.d.log
  {
    FinishRound(s);
    CompleteWorld(s, t, b, w.c);
    s' := AfterFinish(s);
    ReachableWf(s');
    CtxsAtRest(s.d.ctxs, w.m, w.c);
    BufsRead(s.d.bufs, w.n, w.taken, w.split, b, s'.d.bufs[b].reader);
  }

  lemma FinishRound(s: State)
    requires Reachable(s) && Wf(s) && Unlocked(s, Poll) && s.ctl.fence.Reached? && s.ctl.running.Some?
    ensures Reachable(AfterFinish(s))
  {
    RoundFollows(s);
  }

  lemma CtxsAtRest(ctxs: map<CtxId, Ctx>, m: nat, c: CtxId)
    requires CtxsAre(ctxs, m, c, BUSY) && c < m
    ensures CtxsAre(ctxs[c := ctxs[c].(taskCount := ctxs[c].taskCount - 1)], m, 0, QUIET)
  {
  }

  lemma BufsRead(bufs: map<BufId, Buf>, n: nat, taken: nat, split: nat, b: BufId, r: Reader)
    requires BufsAre(bufs, n, taken, split) && b in bufs
    ensures BufsAre(bufs[b := bufs[b].(reader := r)], n, taken, split)
  {
  }

  /** One more write, to buffer `b`, has been put on the list. */
  predicate NextWrite(s: State, s': State, b: BufId) {
    |s'.d.log| == |s.d.log| + 1 && s'.d.log[..|s.d.log|] == s.d.log
    && s'.d.log[|s.d.log|].kind.Write? && s'.d.log[|s.d.log|].buf == b
  }

  /** A write without words to a new buffer takes the next slot, and keeps it. */
  lemma OneMore(s: State, n: nat, split: nat, m: nat, c: CtxId) returns (s': State)
    requires Calm(s, n, split, m) && n < 16 && c < m && c == OwnerOf(n, split)
    ensures Calm(s', n + 1, split, m) && NextWrite(s, s', n)
  {
    var w := World(n + 1, n, split, m, c, BUSY);
    var s1 := CreateOne(s, n, split, m, c);
    EmptyParse(s1.d.bufs[n].allowed);
    var s2, t := SubmitOne(s1, w.(busy := QUIET), Write, n, []);
    var s3 := FetchOne(s2, w, t, Write, n, []);
    var s4 := BindOne(s3, w, t, Write, []);
    s' := RunToEnd(s4, w.(taken := n + 1), t, n);
  }

  lemma RunToEnd(s: State, w: World, t: TaskId, b: BufId) returns (s': State)
    requires Fetched(s, w, t, Write, b, []) && b < w.taken == w.n && w.c < w.m && w.busy == BUSY
    requires JustFed(s.d.dev, 1) && LastBinds(s.d.dev)
    ensures Calm(s', w.n, w.split, w.m) && s'.d.log == s.d.log
  {
    var s1 := RunOne(s, w, t, b);
    var s2 := Deliver(s1, w, t, b);
    s' := CompleteOne(s2, w, t, b);
  }

  lemma Deliver(s: State, w: World, t: TaskId, b: BufId) returns (s': State)
    requires Awaited(s, w, t, b, 2)
    ensures Finishing(s', w, t, b) && s'.d.log == s.d.log
  {
    var s1 := ConsumeBind(s, w, t, b);
    var s2 := ConsumeFence(s1, w, t, b);
    var s3 := ReadOne(s2, w, t, b);
    s' := HandleOne(s3, w, t, b);
  }
}
