/** What never goes back: every step extends the logs, keeps contexts and buffers, keeps the identity of a
    buffer, and never clears a failure, a release or the death of a buffer. */
module Evolution {
  import opened Basics
  import opened Slots
  import opened Protocol

  function Rank(p: Phase): nat {
    match p case Open => 0 case Marked => 1 case Closing => 2 case Gone => 3
  }

  ghost predicate CtxGrows(x: Ctx, y: Ctx) {
    && (x.failed ==> y.failed)
    && (x.parseFailed ==> y.parseFailed)
    && Rank(x.phase) <= Rank(y.phase)
    && x.lateStarts <= y.lateStarts
  }

  ghost predicate BufGrows(x: Buf, y: Buf) {
    && y.ctx == x.ctx && y.allowed == x.allowed && y.table == x.table
    && (x.life.destroyed ==> y.life.destroyed)
    && (y.life.userRef ==> x.life.userRef)
    && (y.life.ctxRef ==> x.life.ctxRef)
    && (x.life.freed ==> y.life.freed)
  }

  ghost predicate CtxsGrow(x: map<CtxId, Ctx>, y: map<CtxId, Ctx>) {
    forall c :: c in x ==> c in y && CtxGrows(x[c], y[c])
  }

  ghost predicate BufsGrow(x: map<BufId, Buf>, y: map<BufId, Buf>) {
    forall b :: b in x ==> b in y && BufGrows(x[b], y[b])
  }

  ghost predicate HistGrows(x: History, y: History) {
    && x.destroyed <= y.destroyed && x.dropped <= y.dropped && x.rejected <= y.rejected
    && x.raised <= y.raised && x.charged <= y.charged
  }

  ghost predicate Grows(d: Data, d': Data) {
    && d.log <= d'.log
    && d.dev.fed <= d'.dev.fed
    && d.dev.done <= d'.dev.done
    && CtxsGrow(d.ctxs, d'.ctxs)
    && BufsGrow(d.bufs, d'.bufs)
    && HistGrows(d.hist, d'.hist)
  }

  /** The work thread neither adds nor consumes anything on its own account. */
  ghost predicate Updates(d: Data, d': Data) {
    && Grows(d, d') && d'.bufs.Keys == d.bufs.Keys
    && |d'.log| == |d.log| && |d'.slots.table| == |d.slots.table| && d'.dev.done == d.dev.done
  }

  lemma GrowsTransitive(a: Data, b: Data, c: Data)
    requires Grows(a, b) && Grows(b, c)
    ensures Grows(a, c)
  {
  }

  lemma CtxUpdateGrows(ctxs: map<CtxId, Ctx>, c: CtxId, y: Ctx)
    requires c in ctxs && CtxGrows(ctxs[c], y)
    ensures CtxsGrow(ctxs, ctxs[c := y])
  {
  }

  lemma BufUpdateGrows(bufs: map<BufId, Buf>, b: BufId, y: Buf)
    requires b in bufs && BufGrows(bufs[b], y)
    ensures BufsGrow(bufs, bufs[b := y])
  {
  }

  lemma UnboundGrows(d: Data, b: BufId)
    requires b in d.bufs
    ensures Updates(d, Unbound(d, b))
  {
    BufUpdateGrows(d.bufs, b, d.bufs[b].(slot := NO_SLOT));
  }

  lemma ReleasedGrows(d: Data, t: TaskId)
    requires WfData(d) && t < |d.log|
    ensures Updates(d, Released(d, t))
  {
    var b := d.log[t].buf;
    UnboundGrows(d, b);
    var d1 := if d.log[t].kind.Run? || d.ctxs[d.log[t].ctx].failed then Unbound(d, b) else d;
    BufUpdateGrows(d1.bufs, b, Released(d, t).bufs[b]);
    GrowsTransitive(d, d1, Released(d, t));
  }

  lemma RetiredGrows(d: Data, t: TaskId, made: nat)
    requires WfData(d) && t < |d.log|
    ensures Updates(d, Retired(d, t, made))
  {
    CtxUpdateGrows(d.ctxs, d.log[t].ctx, Retired(d, t, made).ctxs[d.log[t].ctx]);
    BufUpdateGrows(d.bufs, d.log[t].buf, Retired(d, t, made).bufs[d.log[t].buf]);
  }

  lemma BoundToGrows(d: Data, b: BufId, k: Slot)
    requires b in d.bufs && |d.slots.table| == NUM_SLOTS
    ensures Updates(d, BoundTo(d, b, k))
  {
    BufUpdateGrows(d.bufs, b, BoundTo(d, b, k).bufs[b]);
  }

  lemma StartedGrows(d: Data, t: TaskId)
    requires WfData(d) && t < |d.log|
    ensures Updates(d, Started(d, t))
  {
    CtxUpdateGrows(d.ctxs, d.log[t].ctx, Started(d, t).ctxs[d.log[t].ctx]);
  }

  lemma LoopEndedGrows(d: Data, t: TaskId)
    requires WfData(d) && t < |d.log|
    ensures Updates(d, LoopEnded(d, t))
  {
    CtxUpdateGrows(d.ctxs, d.log[t].ctx, LoopEnded(d, t).ctxs[d.log[t].ctx]);
  }

  lemma DroppedGrows(d: Data, t: TaskId)
    requires WfData(d) && t < |d.log|
    ensures Updates(d, Dropped(d, t))
  {
    RetiredGrows(d, t, 0);
  }

  lemma FencedGrows(d: Data, t: TaskId)
    ensures Updates(d, Fenced(d, t))
  {
  }

  lemma DeedGrows(d: Data, x: Deed)
    requires Can(d, x)
    ensures Updates(d, Effect(d, x))
  {
    match x
    case NoDeed =>
    case DoRelease(t) => ReleasedGrows(d, t);
    case DoDrop(t) => DroppedGrows(d, t);
    case DoBind(b, k) => BoundToGrows(d, b, k);
    case DoStart(t) => StartedGrows(d, t);
    case DoSend(t, k) =>
    case DoEnd(t) => LoopEndedGrows(d, t);
    case DoFence(t) => FencedGrows(d, t);
    case DoRetire(t, made) => RetiredGrows(d, t, made);
  }

  lemma WorkGrows(s: State)
    requires Wf(s) && !Stuck(s)
    ensures Updates(s.d, Work(s))
  {
    DeedGrows(s.d, DeedOf(s));
  }

  lemma UserGrows(d: Data, u: UserStep)
    requires WfData(d) && UserEnabled(d, u)
    ensures Grows(d, UserData(d, u))
  {
    match u
    case OpenCtx(c) =>
    case CreateSet(b, _, _, _) =>
    case SetSeed(b, _) => BufUpdateGrows(d.bufs, b, UserData(d, u).bufs[b]);
    case Begin(sub) => CtxUpdateGrows(d.ctxs, d.bufs[sub.buf].ctx, Begun(d, sub).ctxs[d.bufs[sub.buf].ctx]);
    case Abort(b) => CtxUpdateGrows(d.ctxs, d.bufs[b].ctx, UserData(d, u).ctxs[d.bufs[b].ctx]);
    case Enqueue(sub, words) =>
      CtxUpdateGrows(d.ctxs, d.bufs[sub.buf].ctx, Enqueued(d, sub, words).ctxs[d.bufs[sub.buf].ctx]);
    case ReadDie(b) => BufUpdateGrows(d.bufs, b, UserData(d, u).bufs[b]);
    case CloseFd(b) => BufUpdateGrows(d.bufs, b, UserData(d, u).bufs[b]);
  }

  lemma DeviceGrows(s: State, step: DeviceStep)
    requires Wf(s) && DeviceEnabled(s.d, step)
    ensures Grows(s.d, DeviceData(s, step))
  {
  }

  lemma LifeGrows(d: Data, b: BufId, life: Life)
    requires b in d.bufs && BufGrows(d.bufs[b], d.bufs[b].(life := life))
    ensures Grows(d, SetLife(d, b, life))
  {
    BufUpdateGrows(d.bufs, b, d.bufs[b].(life := life));
  }

  lemma CloseGrows(d: Data, b: BufId, life: Life)
    requires b in d.bufs
    requires BufGrows(d.bufs[b], d.bufs[b].(life := life))
    ensures Grows(d, SetLife(Unbound(d, b), b, life))
  {
    UnboundGrows(d, b);
    LifeGrows(Unbound(d, b), b, life);
    GrowsTransitive(d, Unbound(d, b), SetLife(Unbound(d, b), b, life));
  }

  lemma RelGrows(d: Data, r: ReleaseStep)
    requires WfData(d) && ReleaseEnabled(d, r)
    ensures Grows(d, ReleaseData(d, r))
  {
    match r
    case Mark(c) => CtxUpdateGrows(d.ctxs, c, d.ctxs[c].(phase := Marked));
    case WaitTasks(c) => CtxUpdateGrows(d.ctxs, c, d.ctxs[c].(phase := Closing));
    case CloseBuf(b) => CloseGrows(d, b, d.bufs[b].life.(ctxRef := false));
    case FreeCtx(c) => CtxUpdateGrows(d.ctxs, c, d.ctxs[c].(phase := Gone));
    case FreeBuf(b) => CloseGrows(d, b, d.bufs[b].life.(freed := true));
  }

  /** Every step keeps what happened. */
  lemma StepGrows(s: State, l: Label)
    requires Wf(s) && Enabled(s, l)
    ensures Grows(s.d, Apply(s, l).d)
  {
    match l
    case Worker => if !Stuck(s) { WorkGrows(s); }
    case User(u) => UserGrows(s.d, u);
    case Dev(step) => DeviceGrows(s, step);
    case Rel(r) => RelGrows(s.d, r);
  }

  // ---------- Names stay meaningful ----------

  lemma GrowsWf(d: Data, d': Data)
    requires WfData(d) && Grows(d, d') && |d'.log| == |d.log|
    requires |d'.slots.table| == NUM_SLOTS && d'.dev.done <= |d'.dev.fed|
    requires forall b :: b in d'.bufs && b !in d.bufs ==> d'.bufs[b].ctx in d'.ctxs
    ensures WfData(d')
  {
  }

  lemma EnqueuedWf(d: Data, sub: Submission, words: seq<Word>)
    requires WfData(d) && InFlight(d, sub)
    ensures WfData(Enqueued(d, sub, words))
  {
    var d' := Enqueued(d, sub, words);
    forall t | 0 <= t < |d'.log| ensures TaskWf(d'.log[t], d'.ctxs, d'.bufs) {
      assert t < |d.log| ==> TaskWf(d.log[t], d.ctxs, d.bufs);
    }
  }

  lemma WorkWf(s: State)
    requires Wf(s) && !Stuck(s)
    ensures WfData(Work(s)) && |Work(s).log| == |s.d.log|
  {
    WorkGrows(s);
    GrowsWf(s.d, Work(s));
  }

  lemma WalkNames(n: nat, ctl: Ctl, sight: Sight)
    requires WfNames(n, ctl)
    ensures WfNames(n, Walk(ctl, sight))
  {
  }

  lemma UserWf(s: State, u: UserStep)
    requires Wf(s) && UserEnabled(s.d, u)
    ensures WfData(UserData(s.d, u))
    ensures WfNames(|UserData(s.d, u).log|, UserCtl(s, u))
  {
    if u.Enqueue? {
      EnqueuedWf(s.d, u.sub, u.words);
    } else {
      UserGrows(s.d, u);
      GrowsWf(s.d, UserData(s.d, u));
    }
  }

  lemma DeviceWf(s: State, step: DeviceStep)
    requires Wf(s) && DeviceEnabled(s.d, step)
    ensures WfData(DeviceData(s, step)) && |DeviceData(s, step).log| == |s.d.log|
  {
    DeviceGrows(s, step);
    GrowsWf(s.d, DeviceData(s, step));
  }

  lemma ReleaseWf(d: Data, r: ReleaseStep)
    requires WfData(d) && ReleaseEnabled(d, r)
    ensures WfData(ReleaseData(d, r)) && |ReleaseData(d, r).log| == |d.log|
  {
    RelGrows(d, r);
    GrowsWf(d, ReleaseData(d, r));
  }
}
