/** Steps of user threads keep the invariant. */
module UserSteps {
  import opened Basics
  import opened Slots
  import opened Protocol
  import opened Evolution
  import opened Control
  import opened Signals
  import opened Binding
  import opened Counting
  import opened Lifetime
  import opened Aim
  import opened Script
  import opened Invariant
  import opened Bystanders

  ghost function Used(s: State, u: UserStep): State
    requires Wf(s) && UserEnabled(s.d, u)
  {
    State(UserCtl(s, u), UserData(s.d, u))
  }

  // ---------- What a user step leaves alone ----------

  lemma UserKeeps(d: Data, u: UserStep)
    requires WfData(d) && UserEnabled(d, u)
    ensures var d' := UserData(d, u);
            d'.dev == d.dev && d'.isr == d.isr && d'.hist == d.hist && d'.slots == d.slots && d.log <= d'.log
            && |d'.log| == |d.log| + if u.Enqueue? then 1 else 0
  {
  }

  lemma UserKeepsCtx(d: Data, u: UserStep, c: CtxId)
    requires WfData(d) && UserEnabled(d, u)
    ensures var d' := UserData(d, u);
            if c in d.ctxs then
              c in d'.ctxs && d'.ctxs[c].failed == d.ctxs[c].failed && d'.ctxs[c].lateStarts == d.ctxs[c].lateStarts
              && d'.ctxs[c].parseFailed == d.ctxs[c].parseFailed
            else
              c in d'.ctxs ==> !d'.ctxs[c].failed && d'.ctxs[c].lateStarts == 0 && !d'.ctxs[c].parseFailed
  {
  }

  lemma UserKeepsBuf(d: Data, u: UserStep, b: BufId)
    requires WfData(d) && UserEnabled(d, u)
    ensures var d' := UserData(d, u);
            if b in d.bufs then
              && b in d'.bufs && d'.bufs[b].slot == d.bufs[b].slot && d'.bufs[b].allowed == d.bufs[b].allowed
              && d'.bufs[b].table == d.bufs[b].table
              && var r, r' := d.bufs[b].reader, d'.bufs[b].reader;
                 r' == r || (r.count != r.offset && r' == r.(offset := r.offset + 1))
            else
              b in d'.bufs ==> d'.bufs[b].slot == NO_SLOT && d'.bufs[b].reader == Reader(0, 0, [], None)
  {
  }

  // ---------- The parts of the invariant ----------

  lemma UserControlled(s: State, u: UserStep)
    requires Core(s) && UserEnabled(s.d, u)
    ensures Controlled(|UserData(s.d, u).log|, UserCtl(s, u))
    ensures SignalsOk(UserData(s.d, u).dev, UserData(s.d, u).isr, StageOf(UserCtl(s, u)))
  {
    UserKeeps(s.d, u);
    EnqueueControlled(|s.d.log|, s.ctl);
  }

  lemma UserCore(s: State, u: UserStep)
    requires Core(s) && UserEnabled(s.d, u)
    ensures Core(Used(s, u))
  {
    UserWf(s, u);
    UserControlled(s, u);
    UserKeeps(s.d, u);
    UserBinding(s.d, u);
    UserCounted(s, u);
    UserLife(s, u);
    UserAim(s, u);
  }

  lemma UserTraced(s: State, u: UserStep)
    requires Wf(s) && Traced(s) && UserEnabled(s.d, u)
    ensures Traced(Used(s, u))
  {
    UserKeeps(s.d, u);
    var d' := UserData(s.d, u);
    forall b | b in s.d.bufs ensures b in d'.bufs && d'.bufs[b].table == s.d.bufs[b].table { UserKeepsBuf(s.d, u, b); }
    HomeKept(s.d, d');
  }

  lemma UserAside(s: State, u: UserStep)
    requires Wf(s) && UserEnabled(s.d, u)
    ensures Aside(s, Used(s, u))
  {
    UserKeeps(s.d, u);
  }

  lemma UserOldTask(s: State, u: UserStep, t: TaskId)
    requires Wf(s) && UserEnabled(s.d, u) && Wf(Used(s, u)) && t < |s.d.log| && TaskInv(s, t)
    ensures t < |UserData(s.d, u).log| && TaskInv(Used(s, u), t)
  {
    UserAside(s, u);
    UserKeeps(s.d, u);
    UserKeepsCtx(s.d, u, s.d.log[t].ctx);
    UserKeepsBuf(s.d, u, s.d.log[t].buf);
    AsideTask(s, Used(s, u), t);
  }

  lemma NewTranslated(sub: Submission, c: CtxId, words: seq<Word>, allowed: Word)
    requires Ends(words, allowed)
    ensures Translated(NewTask(sub, c, words, allowed), allowed)
  {
  }

  lemma UserNewTask(s: State, u: UserStep, t: TaskId)
    requires Core(s) && Traced(s) && UserEnabled(s.d, u) && Core(Used(s, u)) && u.Enqueue? && t == |s.d.log|
    ensures t < |UserData(s.d, u).log| && TaskInv(Used(s, u), t)
  {
    var b := u.sub.buf;
    NewTranslated(u.sub, s.d.bufs[b].ctx, u.words, s.d.bufs[b].allowed);
    UserKeeps(s.d, u);
    NewFate(s.d.hist, |s.d.log|, s.ctl);
    NewTaskInv(Used(s, u));
  }

  lemma UserBufInv(s: State, u: UserStep, b: BufId)
    requires Wf(s) && UserEnabled(s.d, u) && BufInv(s, b)
    ensures BufInv(Used(s, u), b)
  {
    UserAside(s, u);
    UserKeepsBuf(s.d, u, b);
    if b in s.d.bufs {
      AsideBuf(s, Used(s, u), b);
    }
  }

  lemma UserCtxInv(s: State, u: UserStep, c: CtxId)
    requires Wf(s) && UserEnabled(s.d, u) && Wf(Used(s, u)) && CtxInv(s, c)
    ensures CtxInv(Used(s, u), c)
  {
    UserAside(s, u);
    UserKeepsCtx(s.d, u, c);
    if c in s.d.ctxs {
      AsideCtx(s, Used(s, u), c);
    }
  }

  lemma UserInv(s: State, u: UserStep)
    requires Inv(s) && UserEnabled(s.d, u)
    ensures Inv(Used(s, u))
  {
    UserCore(s, u);
    UserTraced(s, u);
    forall t | 0 <= t < |UserData(s.d, u).log| ensures TaskInv(Used(s, u), t) {
      UserKeeps(s.d, u);
      if t < |s.d.log| {
        UserOldTask(s, u, t);
      } else {
        UserNewTask(s, u, t);
      }
    }
    forall b ensures BufInv(Used(s, u), b) { UserBufInv(s, u, b); }
    forall c ensures CtxInv(Used(s, u), c) { UserCtxInv(s, u, c); }
  }
}
