/** Blame: every fault is charged to the context whose command raised it, before the task of that command is
    finished, and a context fails only for its own tasks. */
module Blame {
  import opened Basics
  import opened Protocol
  import opened Control
  import opened Signals
  import opened Fates

  /** A fault of `t` that the interrupt handler has not cleared. */
  ghost predicate Unhandled(dev: Device, t: TaskId) {
    || (exists i :: 0 <= i < |dev.brewing| && dev.brewing[i].1 == t)
    || t in dev.reg.cmdBy || t in dev.reg.memBy
  }

  predicate HasTask(stage: Stage, t: TaskId) { !stage.Silent? && stage.task == t }

  /** Failures found while parsing, and tasks dropped for a failure. */
  predicate ParseOk(d: Data, pc: Pc, t: TaskId)
    requires WfData(d) && t < |d.log|
  {
    var failed := d.ctxs[d.log[t].ctx].failed;
    && (t in d.hist.rejected ==> failed && t in d.hist.slotOf && d.log[t].parsed.verdict.Rejected?)
    && (t in d.hist.dropped ==> failed)
    && (pc == DropUnbind(t) || pc == DropCount(t) ==> failed)
  }

  /** A fault raised is charged, or waits for the handler while its task is the running one; and a charge is for a
      fault, and to the context of its task. */
  ghost predicate FaultOk(d: Data, stage: Stage, t: TaskId)
    requires WfData(d) && t < |d.log|
  {
    var c := d.log[t].ctx;
    && (t in d.hist.raised ==> t in d.hist.slotOf)
    && (t in d.hist.raised ==> (t, c) in d.hist.charged || (HasTask(stage, t) && Unhandled(d.dev, t)))
    && (forall x :: (t, x) in d.hist.charged ==> x == c && t in d.hist.raised && d.ctxs[c].failed)
    && (Unhandled(d.dev, t) ==> t in d.hist.raised)
  }

  /** A context has failed only if one of its own tasks was rejected or raised a fault. */
  ghost predicate GuiltOk(d: Data, c: CtxId)
    requires WfData(d)
  {
    c in d.ctxs && d.ctxs[c].failed ==> exists t :: Guilty(d, c, t)
  }

  predicate Guilty(d: Data, c: CtxId, t: TaskId) {
    t < |d.log| && d.log[t].ctx == c && (t in d.hist.rejected || (t, c) in d.hist.charged)
  }

  // ---------- Steps of the work thread ----------

  /** The loop over the words of the running task ends at a command that is not acceptable. */
  predicate Rejects(s: State)
    requires Wf(s)
  {
    s.ctl.pc.RunCmd? && s.ctl.next.Some?
    && var task := s.d.log[s.ctl.next.value]; s.ctl.pc.k >= |task.parsed.cmds| && task.parsed.verdict.Rejected?
  }

  /** A deed that finds a command of the context not acceptable. */
  predicate RejectedBy(d: Data, x: Deed, c: CtxId)
    requires x.DoEnd? ==> x.task < |d.log|
  {
    x.DoEnd? && d.log[x.task].parsed.verdict.Rejected? && d.log[x.task].ctx == c
  }

  /** The flags and records of failures after a deed, and after a step of the work thread. */
  lemma DeedFailures(d: Data, x: Deed, c: CtxId)
    requires Can(d, x) && c in d.ctxs
    ensures c in Effect(d, x).ctxs && Effect(d, x).ctxs[c].failed == (d.ctxs[c].failed || RejectedBy(d, x, c))
    ensures Effect(d, x).ctxs[c].parseFailed == (d.ctxs[c].parseFailed || RejectedBy(d, x, c))
  {
  }

  lemma WorkFailures(s: State, c: CtxId)
    requires Wf(s) && !Stuck(s) && c in s.d.ctxs
    ensures c in Work(s).ctxs
    ensures Work(s).ctxs[c].failed == (s.d.ctxs[c].failed || (Rejects(s) && c == s.d.log[s.ctl.next.value].ctx))
    ensures Work(s).ctxs[c].parseFailed
            == (s.d.ctxs[c].parseFailed || (Rejects(s) && c == s.d.log[s.ctl.next.value].ctx))
  {
    DeedFailures(s.d, DeedOf(s), c);
  }

  lemma DeedRecords(d: Data, x: Deed)
    requires Can(d, x)
    ensures Effect(d, x).hist.rejected
         == d.hist.rejected + if x.DoEnd? && d.log[x.task].parsed.verdict.Rejected? then {x.task} else {}
    ensures Effect(d, x).dev.brewing == d.dev.brewing && Effect(d, x).dev.reg == d.dev.reg
  {
  }

  lemma WorkRecords(s: State)
    requires Wf(s) && !Stuck(s)
    ensures Work(s).hist.rejected == s.d.hist.rejected + (if Rejects(s) then {s.ctl.next.value} else {})
    ensures Work(s).dev.brewing == s.d.dev.brewing && Work(s).dev.reg == s.d.dev.reg
  {
    DeedRecords(s.d, DeedOf(s));
  }

  lemma WorkParse(s: State, t: TaskId)
    requires Wf(s) && !Stuck(s) && WfData(Work(s)) && t < |s.d.log| && AtPc(|s.d.log|, s.ctl)
    requires ParseOk(s.d, s.ctl.pc, t) && FateOk(s.d.hist, |s.d.log|, s.ctl, t)
    ensures Work(s).log == s.d.log
    ensures ParseOk(Work(s), Walk(s.ctl, See(s)).pc, t)
  {
    WorkHistoryOk(s);
    WorkRecords(s);
    WorkFailures(s, s.d.log[t].ctx);
  }

  lemma WorkFault(s: State, t: TaskId, stage: Stage, stage': Stage)
    requires Wf(s) && !Stuck(s) && WfData(Work(s)) && t < |s.d.log| && FaultOk(s.d, stage, t)
    requires HasTask(stage, t) ==> HasTask(stage', t)
    ensures Work(s).log == s.d.log
    ensures FaultOk(Work(s), stage', t)
  {
    WorkHistoryOk(s);
    WorkRecords(s);
    WorkFailures(s, s.d.log[t].ctx);
    assert Unhandled(Work(s).dev, t) <==> Unhandled(s.d.dev, t);
  }

  lemma WorkGuilt(s: State, c: CtxId)
    requires Wf(s) && !Stuck(s) && WfData(Work(s)) && Work(s).ctxs.Keys == s.d.ctxs.Keys && GuiltOk(s.d, c)
    ensures GuiltOk(Work(s), c)
  {
    if c in s.d.ctxs {
      WorkHistoryOk(s);
      WorkRecords(s);
      WorkFailures(s, c);
      if s.d.ctxs[c].failed {
        var t :| Guilty(s.d, c, t);
        assert Guilty(Work(s), c, t);
      } else if Work(s).ctxs[c].failed {
        assert Guilty(Work(s), c, s.ctl.next.value);
      }
    }
  }

  // ---------- Steps of users and of releases ----------

  /** Steps that concern neither failures nor faults. */
  lemma KeptBlame(d: Data, d': Data, pc: Pc, stage: Stage, t: TaskId)
    requires WfData(d) && WfData(d') && t < |d.log| && d.log <= d'.log
    requires ParseOk(d, pc, t) && FaultOk(d, stage, t)
    requires d'.hist == d.hist && d'.dev.brewing == d.dev.brewing && d'.dev.reg.cmdBy == d.dev.reg.cmdBy
    requires d'.dev.reg.memBy == d.dev.reg.memBy && d'.ctxs[d.log[t].ctx].failed == d.ctxs[d.log[t].ctx].failed
    ensures ParseOk(d', pc, t) && FaultOk(d', stage, t)
  {
    assert Unhandled(d'.dev, t) <==> Unhandled(d.dev, t);
  }

  lemma KeptGuilt(d: Data, d': Data, c: CtxId)
    requires WfData(d) && WfData(d') && d.log <= d'.log && d'.hist == d.hist && GuiltOk(d, c)
    requires c in d'.ctxs && d'.ctxs[c].failed ==> c in d.ctxs && d.ctxs[c].failed
    ensures GuiltOk(d', c)
  {
    if c in d'.ctxs && d'.ctxs[c].failed {
      var t :| Guilty(d, c, t);
      assert Guilty(d', c, t);
    }
  }

  /** A task just put on the list has no history. */
  lemma NewBlame(d: Data, ctl: Ctl)
    requires WfData(d) && d.log != [] && HistNames(d.hist, |d.log| - 1) && PcTask(ctl.pc) < |d.log|
    requires SignalsOk(d.dev, d.isr, StageOf(ctl)) && (ctl.running.Some? ==> ctl.running.value < |d.log| - 1)
    ensures ParseOk(d, ctl.pc, |d.log| - 1) && FaultOk(d, StageOf(ctl), |d.log| - 1)
  {
  }

  // ---------- Steps of the device and of the interrupt handler ----------

  lemma ConsumeFault(s: State, faults: seq<Fault>, t: TaskId)
    requires Wf(s) && DeviceEnabled(s.d, Consume(faults)) && WfData(DeviceData(s, Consume(faults))) && t < |s.d.log|
    requires SignalsOk(s.d.dev, s.d.isr, StageOf(s.ctl)) && TagsMatch(s.d.dev.fed)
    requires FaultOk(s.d, StageOf(s.ctl), t) && FateOk(s.d.hist, |s.d.log|, s.ctl, t)
    ensures FaultOk(DeviceData(s, Consume(faults)), StageOf(s.ctl), t)
  {
    var dev, dev' := s.d.dev, Consumed(s.d.dev, faults);
    var f := dev.fed[dev.done];
    if Unhandled(dev, t) && exists i :: 0 <= i < |dev.brewing| && dev.brewing[i].1 == t {
      var i :| 0 <= i < |dev.brewing| && dev.brewing[i].1 == t;
      assert dev'.brewing[i] == dev.brewing[i];
    }
    if faults != [] && f.tag == Some(t) {
      assert dev'.brewing[|dev.brewing|] == (faults[0], t);
    }
    assert Unhandled(dev', t) ==> Unhandled(dev, t) || (faults != [] && f.tag == Some(t));
  }

  lemma LatchFault(s: State, t: TaskId)
    requires Wf(s) && DeviceEnabled(s.d, Latch) && WfData(DeviceData(s, Latch)) && t < |s.d.log|
    requires FaultOk(s.d, StageOf(s.ctl), t)
    ensures FaultOk(DeviceData(s, Latch), StageOf(s.ctl), t)
  {
    LatchUnhandled(s.d.dev, t);
  }

  lemma LatchUnhandled(dev: Device, t: TaskId)
    requires dev.brewing != []
    ensures Unhandled(Latched(dev), t) <==> Unhandled(dev, t)
  {
    var dev' := Latched(dev);
    forall i | 0 < i < |dev.brewing| && dev.brewing[i].1 == t ensures Unhandled(dev', t) {
      assert dev'.brewing[i - 1] == dev.brewing[i];
    }
    forall i | 0 <= i < |dev'.brewing| && dev'.brewing[i].1 == t ensures Unhandled(dev, t) {
      assert dev.brewing[i + 1] == dev'.brewing[i];
    }
  }

  /** What the handler clears is what it charges, and it leaves nothing when it has seen the fence. */
  lemma HandleUnhandled(dev: Device, st: Status, stage: Stage, t: TaskId)
    requires SignalsOk(dev, In(st), stage)
    ensures var dev' := dev.(reg := Cleared(dev.reg, st));
            && (Unhandled(dev', t) ==> Unhandled(dev, t) && !st.fence)
            && (Unhandled(dev, t) ==> Unhandled(dev', t) || t in Culprits(dev.reg, st))
            && (t in Culprits(dev.reg, st) ==> Unhandled(dev, t) && HasTask(stage, t) && (st.cmd || st.mem))
  {
    var dev' := dev.(reg := Cleared(dev.reg, st));
    assert dev'.brewing == dev.brewing;
  }

  lemma HandleCharges(s: State)
    requires Wf(s) && s.d.isr.In? && SignalsOk(s.d.dev, s.d.isr, StageOf(s.ctl))
    ensures var d, d', st := s.d, DeviceData(s, IsrHandle), s.d.isr.st;
            && d'.log == d.log && d'.dev == d.dev.(reg := Cleared(d.dev.reg, st))
            && d'.hist == d.hist.(charged := d'.hist.charged)
            && (if st.cmd || st.mem then
                  s.ctl.running.Some? && d'.hist.charged == d.hist.charged
                    + set x | x in Culprits(d.dev.reg, st) :: (x, d.log[s.ctl.running.value].ctx)
                else d'.hist.charged == d.hist.charged)
  {
  }

  /** The handler charges all the faults it clears to the context of the task that raised them. */
  lemma HandleFault(s: State, t: TaskId)
    requires Wf(s) && s.d.isr.In? && WfData(DeviceData(s, IsrHandle)) && t < |s.d.log|
    requires SignalsOk(s.d.dev, s.d.isr, StageOf(s.ctl)) && FaultOk(s.d, StageOf(s.ctl), t)
    ensures FaultOk(DeviceData(s, IsrHandle), StageOf(DeviceCtl(s, IsrHandle)), t)
  {
    HandleUnhandled(s.d.dev, s.d.isr.st, StageOf(s.ctl), t);
    HandleCharges(s);
  }

  lemma HandleGuilt(s: State, c: CtxId)
    requires Wf(s) && s.d.isr.In? && WfData(DeviceData(s, IsrHandle)) && GuiltOk(s.d, c)
    requires SignalsOk(s.d.dev, s.d.isr, StageOf(s.ctl))
    ensures GuiltOk(DeviceData(s, IsrHandle), c)
  {
    var d' := DeviceData(s, IsrHandle);
    if c in d'.ctxs && d'.ctxs[c].failed {
      if s.d.ctxs[c].failed {
        var t :| Guilty(s.d, c, t);
        assert Guilty(d', c, t);
      } else {
        var t :| t in Culprits(s.d.dev.reg, s.d.isr.st);
        assert Guilty(d', c, t);
      }
    }
  }
}
