/** Steps of the release of contexts and buffers keep the invariant. */
module ReleaseSteps {
  import opened Basics
  import opened Slots
  import opened Protocol
  import opened Evolution
  import opened Control
  import opened Signals
  import opened Binding
  import opened Counting
  import opened Lifetime
  import opened Aim
  import opened Script
  import opened Invariant
  import opened Bystanders

  function Freed(s: State, r: ReleaseStep): State
    requires Wf(s) && ReleaseEnabled(s.d, r)
  {
    State(s.ctl, ReleaseData(s.d, r))
  }

  // ---------- What a release leaves alone ----------

  lemma ReleaseKeeps(d: Data, r: ReleaseStep)
    requires WfData(d) && ReleaseEnabled(d, r)
    ensures var d' := ReleaseData(d, r);
            && d'.log == d.log && d'.hist == d.hist && d'.isr == d.isr
            && d'.dev == d.dev.(fed := d'.dev.fed)
            && (d'.dev.fed == d.dev.fed || exists k :: d'.dev == Feed(d.dev, UnbindReq(k), None))
  {
    match r
    case CloseBuf(b) => assert ReleaseData(d, r).dev == Unbound(d, b).dev;
    case FreeBuf(b) => assert ReleaseData(d, r).dev == Unbound(d, b).dev;
    case _ =>
  }

  lemma ReleaseKeepsCtx(d: Data, r: ReleaseStep, c: CtxId)
    requires WfData(d) && ReleaseEnabled(d, r)
    ensures var d' := ReleaseData(d, r);
            && (c in d'.ctxs <==> c in d.ctxs)
            && (c in d.ctxs ==> d'.ctxs[c] == d.ctxs[c].(phase := d'.ctxs[c].phase))
  {
  }

  lemma ReleaseKeepsBuf(d: Data, r: ReleaseStep, b: BufId)
    requires WfData(d) && ReleaseEnabled(d, r)
    ensures var d' := ReleaseData(d, r);
            && (b in d'.bufs <==> b in d.bufs)
            && (b in d.bufs ==>
                  && d'.bufs[b].reader == d.bufs[b].reader && d'.bufs[b].table == d.bufs[b].table
                  && d'.bufs[b].allowed == d.bufs[b].allowed
                  && (d'.bufs[b].slot == d.bufs[b].slot || d'.bufs[b].slot == NO_SLOT))
  {
  }

  // ---------- The parts of the invariant ----------

  lemma ReleaseSignals(d: Data, r: ReleaseStep, stage: Stage)
    requires WfData(d) && ReleaseEnabled(d, r) && SignalsOk(d.dev, d.isr, stage) && TagsMatch(d.dev.fed)
    ensures SignalsOk(ReleaseData(d, r).dev, ReleaseData(d, r).isr, stage) && TagsMatch(ReleaseData(d, r).dev.fed)
  {
    ReleaseKeeps(d, r);
    var d' := ReleaseData(d, r);
    if d'.dev.fed != d.dev.fed {
      var k :| d'.dev == Feed(d.dev, UnbindReq(k), None);
      FeedDriver(d.dev, d.isr, stage, UnbindReq(k));
    }
  }

  lemma NextCounts(s: State)
    requires Wf(s) && AtPc(|s.d.log|, s.ctl) && Counted(s.d, s.ctl) && s.ctl.next.Some?
    ensures s.d.ctxs[s.d.log[s.ctl.next.value].ctx].taskCount > 0
  {
    LiveCounts(s.d, s.ctl, s.ctl.next.value);
  }

  lemma ReleaseCore(s: State, r: ReleaseStep)
    requires Core(s) && ReleaseEnabled(s.d, r)
    ensures Core(Freed(s, r))
  {
    ReleaseWf(s.d, r);
    ReleaseSignals(s.d, r, StageOf(s.ctl));
    ReleaseBinding(s.d, r);
    ReleaseCounted(s.d, s.ctl, r);
    ReleaseLife(s.d, s.ctl, r);
    if s.ctl.next.Some? {
      NextCounts(s);
    }
    ReleaseAim(s, r);
  }

  lemma ReleaseTraced(s: State, r: ReleaseStep)
    requires Wf(s) && Traced(s) && ReleaseEnabled(s.d, r)
    ensures Traced(Freed(s, r))
  {
    ReleaseKeeps(s.d, r);
    var d' := ReleaseData(s.d, r);
    forall b | b in s.d.bufs ensures b in d'.bufs && d'.bufs[b].table == s.d.bufs[b].table {
      ReleaseKeepsBuf(s.d, r, b);
    }
    ReleaseOrder(s.d, r);
  }

  lemma ReleaseTask(s: State, r: ReleaseStep, t: TaskId)
    requires Wf(s) && ReleaseEnabled(s.d, r) && Wf(Freed(s, r)) && t < |s.d.log| && TaskInv(s, t)
    ensures t < |ReleaseData(s.d, r).log| && TaskInv(Freed(s, r), t)
  {
    ReleaseKeeps(s.d, r);
    ReleaseKeepsCtx(s.d, r, s.d.log[t].ctx);
    ReleaseKeepsBuf(s.d, r, s.d.log[t].buf);
    ReleaseKeepsScript(s.d, r, t);
    AsideTask(s, Freed(s, r), t);
  }

  lemma ReleaseBufInv(s: State, r: ReleaseStep, b: BufId)
    requires Wf(s) && ReleaseEnabled(s.d, r) && BufInv(s, b)
    ensures BufInv(Freed(s, r), b)
  {
    ReleaseKeeps(s.d, r);
    ReleaseKeepsBuf(s.d, r, b);
    if b in s.d.bufs {
      AsideBuf(s, Freed(s, r), b);
    }
  }

  lemma ReleaseCtxInv(s: State, r: ReleaseStep, c: CtxId)
    requires Wf(s) && ReleaseEnabled(s.d, r) && Wf(Freed(s, r)) && CtxInv(s, c)
    ensures CtxInv(Freed(s, r), c)
  {
    ReleaseKeeps(s.d, r);
    ReleaseKeepsCtx(s.d, r, c);
    if c in s.d.ctxs {
      AsideCtx(s, Freed(s, r), c);
    }
  }

  lemma ReleaseInv(s: State, r: ReleaseStep)
    requires Inv(s) && ReleaseEnabled(s.d, r)
    ensures Inv(Freed(s, r))
  {
    ReleaseCore(s, r);
    ReleaseTraced(s, r);
    ReleaseKeeps(s.d, r);
    forall t | 0 <= t < |s.d.log| ensures TaskInv(Freed(s, r), t) { ReleaseTask(s, r, t); }
    forall b ensures BufInv(Freed(s, r), b) { ReleaseBufInv(s, r, b); }
    forall c ensures CtxInv(Freed(s, r), c) { ReleaseCtxInv(s, r, c); }
  }
}
