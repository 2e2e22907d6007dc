/** The slot table, the slot that each buffer remembers, and the bindings that the device has been told about all
    say the same. */
module Binding {
  import opened Basics
  import opened Slots
  import opened Protocol

  /** A binding: the buffer it was made for, and the address of its page table. */
  datatype Bond = Bond(owner: BufId, table: bv64)

  /** The bindings of the device once it has consumed everything it was fed. */
  function View(fed: seq<Fed>): map<int, Bond> {
    if fed == [] then map[] else ViewStep(View(fed[..|fed| - 1]), fed[|fed| - 1].req)
  }

  function ViewStep(view: map<int, Bond>, req: Request): map<int, Bond> {
    match req
    case BindReq(slot, _, _, table, owner) => view[slot := Bond(owner, table)]
    case UnbindReq(slot) => view - {slot}
    case _ => view
  }

  lemma ViewFeed(dev: Device, req: Request, tag: Option<TaskId>)
    ensures View(Feed(dev, req, tag).fed) == ViewStep(View(dev.fed), req)
  {
    assert (dev.fed + [Fed(req, tag)])[..|dev.fed|] == dev.fed;
  }

  /** Table and buffers are a partial bijection, and the counter counts the empty places. */
  ghost predicate TableOk(slots: SlotTable, bufs: map<BufId, Buf>) {
    && |slots.table| == NUM_SLOTS
    && slots.free == CountFree(slots.table)
    && (forall k :: 0 <= k < NUM_SLOTS && slots.table[k].Some? ==>
          slots.table[k].value in bufs && bufs[slots.table[k].value].slot == k)
    && (forall b :: b in bufs && bufs[b].slot != NO_SLOT ==>
          0 <= bufs[b].slot < NUM_SLOTS && slots.table[bufs[b].slot] == Some(b))
  }

  /** The device has the buffer that the driver has in each slot, with its page table, and no other. */
  ghost predicate ViewOk(table: seq<Option<BufId>>, bufs: map<BufId, Buf>, view: map<int, Bond>) {
    && (forall k :: 0 <= k < |table| && table[k].Some? ==>
          table[k].value in bufs && k in view && view[k] == Bond(table[k].value, bufs[table[k].value].table))
    && (forall k :: k in view ==> 0 <= k < |table| && table[k].Some?)
  }

  ghost predicate BindingOk(d: Data) { TableOk(d.slots, d.bufs) && ViewOk(d.slots.table, d.bufs, View(d.dev.fed)) }

  // ---------- Steps that bind and unbind ----------

  lemma UnboundTable(d: Data, b: BufId)
    requires TableOk(d.slots, d.bufs) && b in d.bufs
    ensures TableOk(Unbound(d, b).slots, Unbound(d, b).bufs) && Unbound(d, b).bufs[b].slot == NO_SLOT
  {
    if Bound(d, b) {
      CountFreeUpdate(d.slots.table, d.bufs[b].slot, None);
    }
  }

  lemma UnboundBinding(d: Data, b: BufId)
    requires BindingOk(d) && b in d.bufs
    ensures BindingOk(Unbound(d, b))
  {
    UnboundTable(d, b);
    if Bound(d, b) {
      ViewFeed(d.dev, UnbindReq(d.bufs[b].slot), None);
    }
  }

  lemma BoundToTable(d: Data, b: BufId, k: Slot)
    requires TableOk(d.slots, d.bufs) && b in d.bufs && !Bound(d, b) && d.slots.table[k].None?
    ensures TableOk(BoundTo(d, b, k).slots, BoundTo(d, b, k).bufs)
  {
    CountFreeUpdate(d.slots.table, k, Some(b));
  }

  lemma BoundToBinding(d: Data, b: BufId, k: Slot)
    requires BindingOk(d) && b in d.bufs && !Bound(d, b) && d.slots.table[k].None?
    ensures BindingOk(BoundTo(d, b, k))
  {
    BoundToTable(d, b, k);
    ViewFeed(d.dev, BindReq(k, d.bufs[b].seed, d.bufs[b].allowed, d.bufs[b].table, b), None);
  }

  /** Unbinding undoes binding, for the table, for the counter and for the device. */
  lemma UnbindUndoesBind(d: Data, b: BufId, k: Slot)
    requires BindingOk(d) && b in d.bufs && !Bound(d, b) && d.slots.table[k].None?
    ensures var d' := Unbound(BoundTo(d, b, k), b);
            d'.slots == d.slots && d'.bufs[b].slot == NO_SLOT && View(d'.dev.fed) == View(d.dev.fed)
  {
    var buf, d1 := d.bufs[b], BoundTo(d, b, k);
    ViewFeed(d.dev, BindReq(k, buf.seed, buf.allowed, buf.table, b), None);
    ViewFeed(d1.dev, UnbindReq(k), None);
    assert d1.slots.table[k := None] == d.slots.table;
    assert k !in View(d.dev.fed);
  }

  // ---------- Steps that do not ----------

  /** No buffer changes its slot or its page table, and new buffers are not bound. */
  ghost predicate SameSlots(bufs: map<BufId, Buf>, bufs': map<BufId, Buf>) {
    && (forall b :: b in bufs ==> b in bufs' && bufs'[b].slot == bufs[b].slot && bufs'[b].table == bufs[b].table)
    && (forall b :: b in bufs' && b !in bufs ==> bufs'[b].slot == NO_SLOT)
  }

  lemma SameSlotsBinding(d: Data, d': Data)
    requires BindingOk(d) && SameSlots(d.bufs, d'.bufs) && d'.slots == d.slots && View(d'.dev.fed) == View(d.dev.fed)
    ensures BindingOk(d')
  {
  }

  lemma UpdateSameSlots(bufs: map<BufId, Buf>, b: BufId, y: Buf)
    requires b in bufs ==> y.slot == bufs[b].slot && y.table == bufs[b].table
    requires b !in bufs ==> y.slot == NO_SLOT
    ensures SameSlots(bufs, bufs[b := y])
  {
  }

  lemma ReleasedBinding(d: Data, t: TaskId)
    requires WfData(d) && t < |d.log| && BindingOk(d)
    ensures BindingOk(Released(d, t))
  {
    var b := d.log[t].buf;
    UnboundBinding(d, b);
    var d1 := if d.log[t].kind.Run? || d.ctxs[d.log[t].ctx].failed then Unbound(d, b) else d;
    UpdateSameSlots(d1.bufs, b, Released(d, t).bufs[b]);
    SameSlotsBinding(d1, Released(d, t));
  }

  lemma RetiredBinding(d: Data, t: TaskId, made: nat)
    requires WfData(d) && t < |d.log| && BindingOk(d)
    ensures BindingOk(Retired(d, t, made))
  {
    UpdateSameSlots(d.bufs, d.log[t].buf, Retired(d, t, made).bufs[d.log[t].buf]);
    SameSlotsBinding(d, Retired(d, t, made));
  }

  lemma FeedBinding(d: Data, d': Data, req: Request, tag: Option<TaskId>)
    requires BindingOk(d) && (req.TaskReq? || req.FenceReq?)
    requires d'.bufs == d.bufs && d'.slots == d.slots && d'.dev.fed == Feed(d.dev, req, tag).fed
    ensures BindingOk(d')
  {
    ViewFeed(d.dev, req, tag);
  }

  /** A free slot is found exactly when the counter is positive, and it is empty. */
  lemma FreeSlotOk(slots: SlotTable)
    requires |slots.table| == NUM_SLOTS && slots.free == CountFree(slots.table)
    ensures slots.free > 0 <==> FreeSlot(slots) >= 0
    ensures FreeSlot(slots) >= 0 ==> slots.table[FreeSlot(slots)].None?
  {
    CountFreePositive(slots.table);
  }

  lemma DroppedBinding(d: Data, t: TaskId)
    requires WfData(d) && t < |d.log| && BindingOk(d)
    ensures BindingOk(Dropped(d, t))
  {
    RetiredBinding(d, t, 0);
    SameSlotsBinding(Retired(d, t, 0), Dropped(d, t));
  }

  lemma DeedBinding(d: Data, x: Deed)
    requires Can(d, x) && BindingOk(d) && (x.DoBind? ==> !Bound(d, x.buf) && d.slots.table[x.slot].None?)
    ensures BindingOk(Effect(d, x))
  {
    match x
    case NoDeed =>
    case DoRelease(t) => ReleasedBinding(d, t);
    case DoDrop(t) => DroppedBinding(d, t);
    case DoBind(b, k) => BoundToBinding(d, b, k);
    case DoStart(t) => SameSlotsBinding(d, Started(d, t));
    case DoSend(t, k) =>
      FeedBinding(d, FedOne(d, t, k), TaskReq(d.log[t].parsed.cmds[k], d.bufs[d.log[t].buf].slot), Some(t));
    case DoEnd(t) => SameSlotsBinding(d, LoopEnded(d, t));
    case DoFence(t) => FeedBinding(d, Fenced(d, t), FenceReq(TASK_FENCE), Some(t));
    case DoRetire(t, made) => RetiredBinding(d, t, made);
  }

  lemma WorkBinding(s: State)
    requires Wf(s) && !Stuck(s) && BindingOk(s.d)
    requires s.ctl.pc.BindSlot? ==> !Bound(s.d, s.d.log[s.ctl.next.value].buf)
    ensures BindingOk(Work(s))
  {
    FreeSlotOk(s.d.slots);
    DeedBinding(s.d, DeedOf(s));
  }

  lemma UserBinding(d: Data, u: UserStep)
    requires WfData(d) && UserEnabled(d, u) && BindingOk(d)
    ensures BindingOk(UserData(d, u))
  {
    var d' := UserData(d, u);
    match u
    case CreateSet(b, _, _, _) => UpdateSameSlots(d.bufs, b, d'.bufs[b]);
    case SetSeed(b, _) => UpdateSameSlots(d.bufs, b, d'.bufs[b]);
    case ReadDie(b) => UpdateSameSlots(d.bufs, b, d'.bufs[b]);
    case CloseFd(b) => UpdateSameSlots(d.bufs, b, d'.bufs[b]);
    case _ => assert d'.bufs == d.bufs;
    SameSlotsBinding(d, d');
  }

  lemma DeviceBinding(s: State, step: DeviceStep)
    requires Wf(s) && DeviceEnabled(s.d, step) && BindingOk(s.d)
    ensures BindingOk(DeviceData(s, step))
  {
    var d' := DeviceData(s, step);
    assert d'.bufs == s.d.bufs && d'.slots == s.d.slots && d'.dev.fed == s.d.dev.fed;
  }

  lemma ReleaseBinding(d: Data, r: ReleaseStep)
    requires WfData(d) && ReleaseEnabled(d, r) && BindingOk(d)
    ensures BindingOk(ReleaseData(d, r))
  {
    var d' := ReleaseData(d, r);
    match r
    case Mark(c) => SameSlotsBinding(d, d');
    case WaitTasks(c) => SameSlotsBinding(d, d');
    case CloseBuf(b) =>
      UnboundBinding(d, b);
      UpdateSameSlots(Unbound(d, b).bufs, b, d'.bufs[b]);
      SameSlotsBinding(Unbound(d, b), d');
    case FreeCtx(c) => SameSlotsBinding(d, d');
    case FreeBuf(b) =>
      UnboundBinding(d, b);
      UpdateSameSlots(Unbound(d, b).bufs, b, d'.bufs[b]);
      SameSlotsBinding(Unbound(d, b), d');
  }
}
