/** Steps of user threads and of releases, seen from a task, a buffer or a context that they do not concern. */
module Bystanders {
  import opened Slots
  import opened Protocol
  import opened Control
  import opened Signals
  import opened Fates
  import opened Blame
  import opened Script
  import opened Readers
  import opened CutOff
  import opened Invariant

  /** The step leaves the work thread, the history and the faults alone; a task may be added to the list. */
  predicate Aside(s: State, s': State) {
    && s'.ctl == s.ctl.(pending := s'.ctl.pending)
    && s.d.log <= s'.d.log && Taken(|s'.d.log|, s'.ctl) == Taken(|s.d.log|, s.ctl)
    && s'.d.hist == s.d.hist
    && s'.d.dev.brewing == s.d.dev.brewing && s'.d.dev.reg == s.d.dev.reg
  }

  lemma AsideFate(h: History, n: nat, n': nat, ctl: Ctl, ctl': Ctl, t: TaskId)
    requires FateOk(h, n, ctl, t) && ctl' == ctl.(pending := ctl'.pending) && Taken(n', ctl') == Taken(n, ctl)
    ensures FateOk(h, n', ctl', t)
  {
  }

  lemma AsideTask(s: State, s': State, t: TaskId)
    requires Wf(s) && Wf(s') && t < |s.d.log| && TaskInv(s, t) && Aside(s, s')
    requires s'.d.ctxs[s.d.log[t].ctx].failed == s.d.ctxs[s.d.log[t].ctx].failed
    requires s'.d.bufs[s.d.log[t].buf].allowed == s.d.bufs[s.d.log[t].buf].allowed
    requires FedOf(s'.d.dev.fed, t) == FedOf(s.d.dev.fed, t)
    ensures TaskInv(s', t)
  {
    AsideFate(s.d.hist, |s.d.log|, |s'.d.log|, s.ctl, s'.ctl, t);
    KeptBlame(s.d, s'.d, s.ctl.pc, StageOf(s.ctl), t);
    KeptScript(s.d, s'.d, s.ctl, s'.ctl, t);
  }

  lemma AsideBuf(s: State, s': State, b: BufId)
    requires BufInv(s, b) && Aside(s, s') && b in s.d.bufs && b in s'.d.bufs
    requires var r, r' := s.d.bufs[b].reader, s'.d.bufs[b].reader;
             r' == r || (r.count != r.offset && r' == r.(offset := r.offset + 1))
    requires s'.d.bufs[b].slot == s.d.bufs[b].slot || s'.d.bufs[b].slot == NO_SLOT
    ensures BufInv(s', b)
  {
    KeptReader(s.d, s'.d, b);
  }

  lemma AsideCtx(s: State, s': State, c: CtxId)
    requires Wf(s) && Wf(s') && CtxInv(s, c) && Aside(s, s') && c in s.d.ctxs && c in s'.d.ctxs
    requires s'.d.ctxs[c].lateStarts == s.d.ctxs[c].lateStarts && s'.d.ctxs[c].parseFailed == s.d.ctxs[c].parseFailed
    requires s'.d.ctxs[c].failed == s.d.ctxs[c].failed
    ensures CtxInv(s', c)
  {
    KeptGuilt(s.d, s'.d, c);
    KeptCut(s.d, s'.d, s.ctl, s'.ctl, c);
  }

  // ---------- A task just put on the list ----------

  lemma NewFate(h: History, n: nat, ctl: Ctl)
    requires HistNames(h, n) && Controlled(n, ctl)
    ensures FateOk(h, n + 1, ctl.(pending := ctl.pending + [n]), n)
  {
  }

  lemma NewTaskInv(s: State)
    requires Wf(s) && SignalsOk(s.d.dev, s.d.isr, StageOf(s.ctl)) && s.d.log != []
    requires var n := |s.d.log| - 1;
             && HistNames(s.d.hist, n) && FeedOrder(s.d.dev.fed, s.d.hist.slotOf)
             && FateOk(s.d.hist, n + 1, s.ctl, n) && PcTask(s.ctl.pc) <= n
             && (s.ctl.running.Some? ==> s.ctl.running.value < n)
             && Translated(s.d.log[n], s.d.bufs[s.d.log[n].buf].allowed)
    ensures TaskInv(s, |s.d.log| - 1)
  {
    NewBlame(s.d, s.ctl);
    NewScript(s.d, s.ctl);
  }
}
