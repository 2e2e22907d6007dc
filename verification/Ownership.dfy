/** Slots and memory: the slot table is what the words fed to the device amount to, and where a command of a task is
    executed. */
module Ownership {
  import opened Basics
  import opened Words
  import opened Commands
  import opened Slots
  import opened Translator
  import opened Protocol
  import opened Binding
  import opened Lifetime
  import opened Script
  import opened Runs
  import opened Safety
  import opened Teardown
  import opened Stream

  // ---------- The slot table ----------

  /** The table is what the device finds in all the words it was fed, is a partial bijection with the slots that the
      buffers remember, the counter counts its empty places, and no freed buffer is in it. */
  lemma TableIsDeviceView(s: State, k: Slot)
    requires Reachable(s)
    ensures |s.d.slots.table| == NUM_SLOTS && s.d.slots.free == CountFree(s.d.slots.table)
    ensures forall b :: b in s.d.bufs ==> (s.d.slots.table[k] == Some(b) <==> s.d.bufs[b].slot == k)
    ensures Readable(s.d.dev.fed)
    ensures var bound := Replay(Frames(StreamOf(s.d.dev.fed)));
            && (s.d.slots.table[k].None? <==> k !in bound)
            && (s.d.slots.table[k].Some? ==>
                  var b := s.d.slots.table[k].value;
                  b in s.d.bufs && bound[k] == Address(s.d.bufs[b].table)
                  && !s.d.bufs[b].life.freed && s.d.bufs[b].life.ctxRef)
  {
    TableIsView(s, k);
    StreamDecodes(s);
    StreamFrames(s.d.dev.fed);
    ReplayIsView(s.d.dev.fed);
  }

  lemma TableIsView(s: State, k: Slot)
    requires Reachable(s)
    ensures |s.d.slots.table| == NUM_SLOTS && s.d.slots.free == CountFree(s.d.slots.table)
    ensures forall b :: b in s.d.bufs ==> (s.d.slots.table[k] == Some(b) <==> s.d.bufs[b].slot == k)
    ensures s.d.slots.table[k].None? <==> k !in View(s.d.dev.fed)
    ensures s.d.slots.table[k].Some? ==>
              var b := s.d.slots.table[k].value;
              b in s.d.bufs && View(s.d.dev.fed)[k] == Bond(b, s.d.bufs[b].table)
              && !s.d.bufs[b].life.freed && s.d.bufs[b].life.ctxRef
  {
    ReachableCore(s);
    if s.d.slots.table[k].Some? {
      var b := s.d.slots.table[k].value;
      assert PairOk(s.d.ctxs[s.d.bufs[b].ctx], s.d.bufs[b]);
    }
  }

  // ---------- Where a command is executed ----------

  /** The slot that command `p` names to the device is bound, when the device gets to the command, for the buffer. The
      page tables of these bindings are those that the device finds in its own words (`ReplayIsView`). */
  predicate ReachesBuffer(dev: Device, p: nat, b: BufId)
    requires p < |dev.fed| && dev.fed[p].req.TaskReq? && InRange(dev.fed[p].req)
  {
    var k := Targeted(dev.fed[p].req);
    k in View(dev.fed[..p]) && View(dev.fed[..p])[k].owner == b
  }

  /** The user left the lowest bit of the slot field clear, or the slot inserted is odd. */
  predicate TakesSlot(req: Request)
    requires req.TaskReq? && InRange(req)
  {
    !LowBit(req.cmd) || Odd(SlotBits(req.slot))
  }

  /** The slot that the words of a command of a task name is the one bound for the output buffer of that task, with its
      page table, exactly when the command takes the slot inserted into it; otherwise it is another slot. */
  lemma CommandReachesOwner(s: State, p: nat)
    requires Reachable(s) && p < |s.d.dev.fed| && s.d.dev.fed[p].req.TaskReq?
    ensures var f := s.d.dev.fed[p];
            && InRange(f.req) && f.tag.Some? && f.tag.value < |s.d.log| && s.d.log[f.tag.value].buf in s.d.bufs
            && (ReachesBuffer(s.d.dev, p, s.d.log[f.tag.value].buf) <==> TakesSlot(f.req))
            && (Targeted(f.req) == f.req.slot <==> TakesSlot(f.req))
            && (TakesSlot(f.req) ==>
                  View(s.d.dev.fed[..p])[Targeted(f.req)].table == s.d.bufs[s.d.log[f.tag.value].buf].table)
  {
    GivenSlotIsOwn(s, p);
    FedDecodes(s, p);
    var allowed := FedCmdOk(s, p);
    TargetedExactly(s.d.dev.fed[p].req, allowed);
  }

  /** When the device executes a command of a task, the task, its context and its output buffer are not released; and it
      does so through the page table of that buffer exactly when the command takes the slot inserted into it. */
  lemma DeviceUsesLiveMemory(s: State)
    requires Reachable(s) && s.d.dev.done < |s.d.dev.fed| && s.d.dev.fed[s.d.dev.done].req.TaskReq?
    ensures var f := s.d.dev.fed[s.d.dev.done];
            && InRange(f.req) && f.tag.Some? && Usable(s.d, f.tag.value)
            && (ReachesBuffer(s.d.dev, s.d.dev.done, s.d.log[f.tag.value].buf) <==> TakesSlot(f.req))
  {
    CommandReachesOwner(s, s.d.dev.done);
    OutstandingIsRunning(s, s.d.dev.done);
    StillLive(s);
    WorkThreadPointsToLive(s, s.ctl.running.value);
  }
}
