/** Once a context has failed, no task of it is taken on any more: at most the one that was prefetched already is
    still started, and none if the failure was found while parsing. */
module CutOff {
  import opened Protocol
  import opened Control
  import opened Counting
  import opened Fates
  import opened Blame

  predicate CutOk(d: Data, ctl: Ctl, c: CtxId) {
    c in d.ctxs ==>
      && (!d.ctxs[c].failed ==> d.ctxs[c].lateStarts == 0)
      && d.ctxs[c].lateStarts <= 1
      && (d.ctxs[c].failed && One(d.log, Prefetched(ctl), c) == 1
          ==> d.ctxs[c].lateStarts == 0 && !d.ctxs[c].parseFailed)
      && (d.ctxs[c].parseFailed ==> d.ctxs[c].failed)
  }

  lemma DeedStarts(d: Data, x: Deed, c: CtxId)
    requires Can(d, x) && c in d.ctxs
    ensures c in Effect(d, x).ctxs
    ensures Effect(d, x).ctxs[c].lateStarts
         == d.ctxs[c].lateStarts + if x.DoStart? && d.log[x.task].ctx == c && d.ctxs[c].failed then 1 else 0
  {
  }

  lemma WorkStarts(s: State, c: CtxId)
    requires Wf(s) && !Stuck(s) && c in s.d.ctxs
    ensures c in Work(s).ctxs && Work(s).log == s.d.log
    ensures Work(s).ctxs[c].lateStarts == s.d.ctxs[c].lateStarts +
              if s.ctl.pc.RunSet? && s.d.log[s.ctl.next.value].ctx == c && s.d.ctxs[c].failed then 1 else 0
  {
    DeedStarts(s.d, DeedOf(s), c);
    DeedHistory(s.d, DeedOf(s));
  }

  lemma WorkCut(s: State, c: CtxId)
    requires Wf(s) && !Stuck(s) && AtPc(|s.d.log|, s.ctl) && CutOk(s.d, s.ctl, c) && Work(s).ctxs.Keys == s.d.ctxs.Keys
    ensures CutOk(Work(s), Walk(s.ctl, See(s)), c)
  {
    if c in s.d.ctxs {
      WorkStarts(s, c);
      WorkFailures(s, c);
    }
  }

  /** Steps of others: a context may fail, and that is all that matters here. */
  lemma KeptCut(d: Data, d': Data, ctl: Ctl, ctl': Ctl, c: CtxId)
    requires WfNames(|d.log|, ctl) && d.log <= d'.log && CutOk(d, ctl, c) && c in d.ctxs && c in d'.ctxs
    requires d'.ctxs[c].lateStarts == d.ctxs[c].lateStarts && d'.ctxs[c].parseFailed == d.ctxs[c].parseFailed
    requires d.ctxs[c].failed ==> d'.ctxs[c].failed
    requires ctl'.next == ctl.next && ctl'.pc == ctl.pc
    ensures CutOk(d', ctl', c)
  {
  }
}
