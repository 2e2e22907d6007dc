/** Release of contexts and buffers: what each phase of the release of a context says about its buffers, its task
    count and its submissions. */
module Lifetime {
  import opened Basics
  import opened Slots
  import opened Protocol
  import opened Counting

  predicate Dying(x: Ctx) { x.phase.Closing? || x.phase.Gone? }

  /** A context and one of its buffers. */
  predicate PairOk(x: Ctx, y: Buf) {
    && (y.life.destroyed <==> !x.phase.Open?)
    && (!y.life.ctxRef ==> Dying(x) && y.slot == NO_SLOT)
    && (x.phase.Gone? ==> !y.life.ctxRef)
    && (y.life.freed ==> !y.life.userRef && !y.life.ctxRef)
  }

  ghost predicate PairsOk(ctxs: map<CtxId, Ctx>, bufs: map<BufId, Buf>) {
    forall b :: b in bufs ==> bufs[b].ctx in ctxs && PairOk(ctxs[bufs[b].ctx], bufs[b])
  }

  /** A context by itself. */
  predicate AloneOk(x: Ctx) {
    && (Dying(x) ==> x.taskCount == 0)
    && (!x.phase.Open? ==> OnlyWrites(x.inflight))
  }

  ghost predicate AllAloneOk(ctxs: map<CtxId, Ctx>) { forall c :: c in ctxs ==> AloneOk(ctxs[c]) }

  /** A submission in flight belongs to the context of its buffer, and a write keeps the buffer open. */
  ghost predicate SubsOk(c: CtxId, subs: multiset<Submission>, bufs: map<BufId, Buf>) {
    forall sub :: sub in subs ==>
      sub.buf in bufs && bufs[sub.buf].ctx == c && (sub.kind.Write? ==> bufs[sub.buf].life.userRef)
  }

  ghost predicate AllSubsOk(ctxs: map<CtxId, Ctx>, bufs: map<BufId, Buf>) {
    forall c :: c in ctxs ==> SubsOk(c, ctxs[c].inflight, bufs)
  }

  ghost predicate LifeOk(ctxs: map<CtxId, Ctx>, bufs: map<BufId, Buf>) {
    PairsOk(ctxs, bufs) && AllAloneOk(ctxs) && AllSubsOk(ctxs, bufs)
  }

  // ---------- Change of one context, or of one buffer ----------

  lemma CtxUpdateLife(ctxs: map<CtxId, Ctx>, bufs: map<BufId, Buf>, c: CtxId, y: Ctx)
    requires LifeOk(ctxs, bufs) && c in ctxs && y.phase == ctxs[c].phase && AloneOk(y) && SubsOk(c, y.inflight, bufs)
    ensures LifeOk(ctxs[c := y], bufs)
  {
    assert forall b :: b in bufs ==> PairOk(ctxs[bufs[b].ctx], bufs[b]);
  }

  lemma BufUpdateLife(ctxs: map<CtxId, Ctx>, bufs: map<BufId, Buf>, b: BufId, y: Buf)
    requires LifeOk(ctxs, bufs) && b in bufs && y.ctx == bufs[b].ctx
    requires PairOk(ctxs[y.ctx], y)
    requires y.life.userRef || Submission(Write, b) !in ctxs[y.ctx].inflight
    ensures LifeOk(ctxs, bufs[b := y])
  {
    PairsUpdate(ctxs, bufs, b, y);
    AllSubsUpdate(ctxs, bufs, b, y);
  }

  lemma PairsUpdate(ctxs: map<CtxId, Ctx>, bufs: map<BufId, Buf>, b: BufId, y: Buf)
    requires PairsOk(ctxs, bufs) && y.ctx in ctxs && PairOk(ctxs[y.ctx], y)
    ensures PairsOk(ctxs, bufs[b := y])
  {
  }

  lemma AllSubsUpdate(ctxs: map<CtxId, Ctx>, bufs: map<BufId, Buf>, b: BufId, y: Buf)
    requires AllSubsOk(ctxs, bufs) && b in bufs && y.ctx == bufs[b].ctx && y.ctx in ctxs
    requires y.life.userRef || Submission(Write, b) !in ctxs[y.ctx].inflight
    ensures AllSubsOk(ctxs, bufs[b := y])
  {
    forall c | c in ctxs ensures SubsOk(c, ctxs[c].inflight, bufs[b := y]) {
      SubsUpdate(c, ctxs[c].inflight, bufs, b, y);
    }
  }

  lemma SubsUpdate(c: CtxId, subs: multiset<Submission>, bufs: map<BufId, Buf>, b: BufId, y: Buf)
    requires SubsOk(c, subs, bufs) && b in bufs && y.ctx == bufs[b].ctx
    requires y.life.userRef || bufs[b].ctx != c || Submission(Write, b) !in subs
    ensures SubsOk(c, subs, bufs[b := y])
  {
    forall sub | sub in subs && sub.buf == b && sub.kind.Write? ensures y.life.userRef {
      assert sub == Submission(Write, b);
    }
  }

  /** The state of a buffer that does not concern its life. */
  lemma BufPlainLife(ctxs: map<CtxId, Ctx>, bufs: map<BufId, Buf>, b: BufId, y: Buf)
    requires LifeOk(ctxs, bufs) && b in bufs && y.ctx == bufs[b].ctx && y.life == bufs[b].life
    requires y.life.ctxRef || y.slot == NO_SLOT
    ensures LifeOk(ctxs, bufs[b := y])
  {
    var c := y.ctx;
    assert PairOk(ctxs[c], bufs[b]);
    assert SubsOk(c, ctxs[c].inflight, bufs);
    BufUpdateLife(ctxs, bufs, b, y);
  }

  // ---------- Steps of the work thread ----------

  lemma UnboundLife(d: Data, b: BufId)
    requires LifeOk(d.ctxs, d.bufs) && b in d.bufs
    ensures LifeOk(Unbound(d, b).ctxs, Unbound(d, b).bufs)
  {
    BufPlainLife(d.ctxs, d.bufs, b, d.bufs[b].(slot := NO_SLOT));
  }

  lemma ReleasedLife(d: Data, t: TaskId)
    requires WfData(d) && t < |d.log| && LifeOk(d.ctxs, d.bufs)
    ensures LifeOk(Released(d, t).ctxs, Released(d, t).bufs)
  {
    var b := d.log[t].buf;
    UnboundLife(d, b);
    var d1 := if d.log[t].kind.Run? || d.ctxs[d.log[t].ctx].failed then Unbound(d, b) else d;
    assert PairOk(d1.ctxs[d1.bufs[b].ctx], d1.bufs[b]);
    BufPlainLife(d1.ctxs, d1.bufs, b, Released(d, t).bufs[b]);
  }

  lemma RetiredLife(d: Data, t: TaskId, made: nat)
    requires WfData(d) && t < |d.log| && LifeOk(d.ctxs, d.bufs) && d.ctxs[d.log[t].ctx].taskCount > 0
    ensures LifeOk(Retired(d, t, made).ctxs, Retired(d, t, made).bufs)
  {
    var c, b := d.log[t].ctx, d.log[t].buf;
    var ctxs := Retired(d, t, made).ctxs;
    assert AloneOk(d.ctxs[c]) && SubsOk(c, d.ctxs[c].inflight, d.bufs);
    CtxUpdateLife(d.ctxs, d.bufs, c, ctxs[c]);
    assert PairOk(ctxs[d.bufs[b].ctx], d.bufs[b]);
    BufPlainLife(ctxs, d.bufs, b, Retired(d, t, made).bufs[b]);
  }

  lemma BoundToLife(d: Data, b: BufId, k: Slot)
    requires b in d.bufs && |d.slots.table| == NUM_SLOTS && LifeOk(d.ctxs, d.bufs)
             && d.ctxs[d.bufs[b].ctx].taskCount > 0
    ensures LifeOk(BoundTo(d, b, k).ctxs, BoundTo(d, b, k).bufs)
  {
    assert PairOk(d.ctxs[d.bufs[b].ctx], d.bufs[b]) && AloneOk(d.ctxs[d.bufs[b].ctx]);
    BufPlainLife(d.ctxs, d.bufs, b, BoundTo(d, b, k).bufs[b]);
  }

  lemma StartedLife(d: Data, t: TaskId)
    requires WfData(d) && t < |d.log| && LifeOk(d.ctxs, d.bufs)
    ensures LifeOk(Started(d, t).ctxs, Started(d, t).bufs)
  {
    var c := d.log[t].ctx;
    assert AloneOk(d.ctxs[c]) && SubsOk(c, d.ctxs[c].inflight, d.bufs);
    CtxUpdateLife(d.ctxs, d.bufs, c, Started(d, t).ctxs[c]);
  }

  lemma LoopEndedLife(d: Data, t: TaskId)
    requires WfData(d) && t < |d.log| && LifeOk(d.ctxs, d.bufs)
    ensures LifeOk(LoopEnded(d, t).ctxs, LoopEnded(d, t).bufs)
  {
    var c := d.log[t].ctx;
    assert AloneOk(d.ctxs[c]) && SubsOk(c, d.ctxs[c].inflight, d.bufs);
    CtxUpdateLife(d.ctxs, d.bufs, c, d.ctxs[c].(failed := true, parseFailed := true));
  }

  /** Where the work thread touches a task, the context of the task counts it. */
  ghost predicate CountedHere(s: State)
    requires Wf(s)
  {
    && (Retires(s.ctl.pc).Some? ==> s.d.ctxs[s.d.log[Retires(s.ctl.pc).value].ctx].taskCount > 0)
    && (s.ctl.pc.BindSlot? && s.ctl.next.Some? ==> s.d.ctxs[s.d.log[s.ctl.next.value].ctx].taskCount > 0)
  }

  lemma CountedThere(s: State)
    requires Wf(s) && Counted(s.d, s.ctl)
    requires s.ctl.pc.FinCount? ==> s.ctl.running == Some(s.ctl.pc.task)
    ensures CountedHere(s)
  {
    if Retires(s.ctl.pc).Some? {
      assert TaskWf(s.d.log[s.ctl.pc.task], s.d.ctxs, s.d.bufs);
      LiveCounts(s.d, s.ctl, s.ctl.pc.task);
    } else if s.ctl.pc.BindSlot? && s.ctl.next.Some? {
      assert TaskWf(s.d.log[s.ctl.next.value], s.d.ctxs, s.d.bufs);
      LiveCounts(s.d, s.ctl, s.ctl.next.value);
    }
  }

  lemma DeedLife(d: Data, x: Deed)
    requires Can(d, x) && LifeOk(d.ctxs, d.bufs)
    requires RetiredBy(x).Some? ==> d.ctxs[d.log[x.task].ctx].taskCount > 0
    requires x.DoBind? ==> d.ctxs[d.bufs[x.buf].ctx].taskCount > 0
    ensures LifeOk(Effect(d, x).ctxs, Effect(d, x).bufs)
  {
    match x
    case DoRelease(t) => ReleasedLife(d, t);
    case DoDrop(t) => RetiredLife(d, t, 0);
    case DoBind(b, k) => BoundToLife(d, b, k);
    case DoStart(t) => StartedLife(d, t);
    case DoEnd(t) => LoopEndedLife(d, t);
    case DoRetire(t, made) => RetiredLife(d, t, made);
    case _ => assert Effect(d, x).ctxs == d.ctxs && Effect(d, x).bufs == d.bufs;
  }

  lemma WorkLife(s: State)
    requires Wf(s) && !Stuck(s) && CountedHere(s) && LifeOk(s.d.ctxs, s.d.bufs)
    ensures LifeOk(Work(s).ctxs, Work(s).bufs)
  {
    DeedLife(s.d, DeedOf(s));
  }

  // ---------- Steps of users ----------

  lemma BegunLife(d: Data, sub: Submission)
    requires WfData(d) && UserEnabled(d, Begin(sub)) && LifeOk(d.ctxs, d.bufs)
    ensures LifeOk(Begun(d, sub).ctxs, d.bufs)
  {
    var c := d.bufs[sub.buf].ctx;
    assert PairOk(d.ctxs[c], d.bufs[sub.buf]) && AloneOk(d.ctxs[c]) && SubsOk(c, d.ctxs[c].inflight, d.bufs);
    CtxUpdateLife(d.ctxs, d.bufs, c, Begun(d, sub).ctxs[c]);
  }

  /** The end of a submission, with or without a task. */
  lemma EndedLife(d: Data, c: CtxId, sub: Submission, y: Ctx)
    requires LifeOk(d.ctxs, d.bufs) && c in d.ctxs && y.phase == d.ctxs[c].phase
    requires y.inflight == d.ctxs[c].inflight - multiset{sub}
    requires y.taskCount == d.ctxs[c].taskCount || d.ctxs[c].taskCount > 0
    ensures LifeOk(d.ctxs[c := y], d.bufs)
  {
    assert AloneOk(d.ctxs[c]) && SubsOk(c, d.ctxs[c].inflight, d.bufs);
    FewerSubs(c, d.ctxs[c].inflight, sub, d.bufs);
    CtxUpdateLife(d.ctxs, d.bufs, c, y);
  }

  lemma FewerSubs(c: CtxId, subs: multiset<Submission>, sub: Submission, bufs: map<BufId, Buf>)
    requires SubsOk(c, subs, bufs)
    ensures SubsOk(c, subs - multiset{sub}, bufs)
    ensures OnlyWrites(subs) ==> OnlyWrites(subs - multiset{sub})
  {
    assert forall x :: x in subs - multiset{sub} ==> x in subs;
  }

  lemma SubCounts(d: Data, ctl: Ctl, sub: Submission)
    requires Counted(d, ctl) && InFlight(d, sub)
    ensures d.ctxs[d.bufs[sub.buf].ctx].taskCount > 0
  {
    assert |d.ctxs[d.bufs[sub.buf].ctx].inflight| > 0;
  }

  lemma CreatedLife(d: Data, b: BufId, y: Buf)
    requires LifeOk(d.ctxs, d.bufs) && b !in d.bufs && y.ctx in d.ctxs && d.ctxs[y.ctx].phase.Open?
    requires y.life == Life(false, true, true, false)
    ensures LifeOk(d.ctxs, d.bufs[b := y])
  {
    forall c | c in d.ctxs ensures SubsOk(c, d.ctxs[c].inflight, d.bufs[b := y]) {
      assert SubsOk(c, d.ctxs[c].inflight, d.bufs);
    }
  }

  lemma OpenedLife(d: Data, c: CtxId)
    requires LifeOk(d.ctxs, d.bufs) && c !in d.ctxs
    ensures LifeOk(d.ctxs[c := Ctx(false, 0, Open, multiset{}, 0, false)], d.bufs)
  {
    assert forall b :: b in d.bufs ==> d.bufs[b].ctx in d.ctxs && PairOk(d.ctxs[d.bufs[b].ctx], d.bufs[b]);
  }

  lemma UserLife(s: State, u: UserStep)
    requires Wf(s) && UserEnabled(s.d, u) && Counted(s.d, s.ctl) && LifeOk(s.d.ctxs, s.d.bufs)
    ensures LifeOk(UserData(s.d, u).ctxs, UserData(s.d, u).bufs)
  {
    var d := s.d;
    match u
    case OpenCtx(c) => OpenedLife(d, c);
    case CreateSet(b, _, _, _) => CreatedLife(d, b, UserData(d, u).bufs[b]);
    case SetSeed(b, _) => PlainLife(d, b, UserData(d, u).bufs[b]);
    case Begin(sub) => BegunLife(d, sub);
    case Abort(b) =>
      SubCounts(d, s.ctl, Submission(Write, b));
      EndedLife(d, d.bufs[b].ctx, Submission(Write, b), UserData(d, u).ctxs[d.bufs[b].ctx]);
    case Enqueue(sub, _) => EndedLife(d, d.bufs[sub.buf].ctx, sub, UserData(d, u).ctxs[d.bufs[sub.buf].ctx]);
    case ReadDie(b) => PlainLife(d, b, UserData(d, u).bufs[b]);
    case CloseFd(b) =>
      assert PairOk(d.ctxs[d.bufs[b].ctx], d.bufs[b]);
      BufUpdateLife(d.ctxs, d.bufs, b, UserData(d, u).bufs[b]);
  }

  lemma PlainLife(d: Data, b: BufId, y: Buf)
    requires LifeOk(d.ctxs, d.bufs) && b in d.bufs && y.ctx == d.bufs[b].ctx
    requires y.life == d.bufs[b].life && y.slot == d.bufs[b].slot
    ensures LifeOk(d.ctxs, d.bufs[b := y])
  {
    assert PairOk(d.ctxs[d.bufs[b].ctx], d.bufs[b]);
    BufPlainLife(d.ctxs, d.bufs, b, y);
  }

  // ---------- Steps of the interrupt handler and of releases ----------

  lemma DeviceLife(s: State, step: DeviceStep)
    requires Wf(s) && DeviceEnabled(s.d, step) && LifeOk(s.d.ctxs, s.d.bufs)
    ensures LifeOk(DeviceData(s, step).ctxs, DeviceData(s, step).bufs)
  {
    if step.IsrHandle? && s.ctl.running.Some? {
      var c := s.d.log[s.ctl.running.value].ctx;
      assert AloneOk(s.d.ctxs[c]) && SubsOk(c, s.d.ctxs[c].inflight, s.d.bufs);
      CtxUpdateLife(s.d.ctxs, s.d.bufs, c, s.d.ctxs[c].(failed := true));
    }
  }

  lemma MarkLife(d: Data, c: CtxId)
    requires ReleaseEnabled(d, Mark(c)) && LifeOk(d.ctxs, d.bufs)
    ensures LifeOk(d.ctxs[c := d.ctxs[c].(phase := Marked)], MarkDestroyed(d.bufs, c))
  {
    var ctxs, bufs := d.ctxs[c := d.ctxs[c].(phase := Marked)], MarkDestroyed(d.bufs, c);
    forall b | b in bufs ensures bufs[b].ctx in ctxs && PairOk(ctxs[bufs[b].ctx], bufs[b]) {
      assert PairOk(d.ctxs[d.bufs[b].ctx], d.bufs[b]);
    }
    forall c' | c' in ctxs ensures SubsOk(c', ctxs[c'].inflight, bufs) {
      assert SubsOk(c', d.ctxs[c'].inflight, d.bufs);
    }
  }

  lemma PhaseLife(d: Data, c: CtxId, phase: Phase)
    requires LifeOk(d.ctxs, d.bufs) && c in d.ctxs && d.ctxs[c].taskCount == 0
    requires (d.ctxs[c].phase.Marked? && phase.Closing?)
             || (d.ctxs[c].phase.Closing? && phase.Gone? && NoneListed(d.bufs, c))
    ensures LifeOk(SetPhase(d, c, phase).ctxs, d.bufs)
  {
    var ctxs := SetPhase(d, c, phase).ctxs;
    forall b | b in d.bufs ensures PairOk(ctxs[d.bufs[b].ctx], d.bufs[b]) {
      assert PairOk(d.ctxs[d.bufs[b].ctx], d.bufs[b]);
    }
  }

  lemma ClosedLife(d: Data, b: BufId, life: Life)
    requires LifeOk(d.ctxs, d.bufs) && b in d.bufs && -1 <= d.bufs[b].slot < |d.slots.table|
    requires PairOk(d.ctxs[d.bufs[b].ctx], d.bufs[b].(slot := NO_SLOT, life := life))
    requires life.userRef == d.bufs[b].life.userRef
    ensures LifeOk(SetLife(Unbound(d, b), b, life).ctxs, SetLife(Unbound(d, b), b, life).bufs)
  {
    UnboundLife(d, b);
    var c := d.bufs[b].ctx;
    assert SubsOk(c, d.ctxs[c].inflight, d.bufs);
    BufUpdateLife(d.ctxs, Unbound(d, b).bufs, b, SetLife(Unbound(d, b), b, life).bufs[b]);
  }

  lemma ReleaseLife(d: Data, ctl: Ctl, r: ReleaseStep)
    requires WfData(d) && ReleaseEnabled(d, r) && Counted(d, ctl) && LifeOk(d.ctxs, d.bufs)
    requires forall b :: b in d.bufs ==> -1 <= d.bufs[b].slot < |d.slots.table|
    ensures LifeOk(ReleaseData(d, r).ctxs, ReleaseData(d, r).bufs)
  {
    match r
    case Mark(c) => MarkLife(d, c);
    case WaitTasks(c) => PhaseLife(d, c, Closing);
    case CloseBuf(b) =>
      assert PairOk(d.ctxs[d.bufs[b].ctx], d.bufs[b]);
      ClosedLife(d, b, d.bufs[b].life.(ctxRef := false));
    case FreeCtx(c) =>
      assert AloneOk(d.ctxs[c]);
      PhaseLife(d, c, Gone);
    case FreeBuf(b) =>
      assert PairOk(d.ctxs[d.bufs[b].ctx], d.bufs[b]);
      ClosedLife(d, b, d.bufs[b].life.(freed := true));
  }
}
