/** The words that the device is fed: it cuts them into exactly the commands that were issued, reads back what was
    encoded, and its own replay of them has the bindings that the driver believes it has. */
module Stream {
  import opened Basics
  import opened Words
  import opened Commands
  import opened Translator
  import opened Protocol
  import opened Binding
  import opened Script
  import opened Runs
  import opened Accountability

  // ---------- Commands and their words ----------

  /** A request as the words that `feed_cmd` writes. */
  function CmdOf(req: Request): Cmd
    requires InRange(req)
  {
    match req
    case BindReq(slot, seed, allowed, table, _) => Bind(SlotBits(slot), seed, allowed, table)
    case UnbindReq(slot) => Unbind(SlotBits(slot))
    case TaskReq(cmd, slot) => Insert(cmd, SlotBits(slot))
    case FenceReq(_) => Fence(42)
  }

  /** A command as the device reads it: of the seed of a bind command, the lowest twenty bits. */
  function ReadBack(c: Cmd): Cmd { if c.Bind? then c.(seed := c.seed & 0xF_FFFF) else c }

  lemma CmdOfProper(req: Request, allowed: Word)
    requires InRange(req) && (req.TaskReq? ==> CmdOk(req.cmd, allowed))
    ensures Proper(CmdOf(req)) && IsFrame(Encode(CmdOf(req)))
  {
    if req.TaskReq? {
      InsertProper(req.cmd, SlotBits(req.slot), allowed);
    }
    EncodeIsFrame(CmdOf(req));
  }

  predicate Ranged(fed: seq<Fed>) { forall i :: 0 <= i < |fed| ==> InRange(fed[i].req) }

  function WordsOf(fed: seq<Fed>): seq<seq<Word>>
    requires Ranged(fed)
  {
    seq(|fed|, i requires 0 <= i < |fed| => Encode(CmdOf(fed[i].req)))
  }

  /** The words of a request are one frame, which the device reads as the command that was issued. */
  lemma RequestDecodes(req: Request, allowed: Word)
    requires InRange(req) && (req.TaskReq? ==> CmdOk(req.cmd, allowed))
    ensures IsFrame(Encode(CmdOf(req))) && Decode(Encode(CmdOf(req))) == Some(ReadBack(CmdOf(req)))
  {
    CmdOfProper(req, allowed);
    match CmdOf(req)
    case Bind(slot, seed, mask, table) => BindRoundTrip(slot, seed, mask, table);
    case Unbind(slot) => UnbindRoundTrip(slot);
    case GetDie(header, mask) => UserRoundTrip(header, mask);
    case NewSet(header) => UserRoundTrip(header, 0);
    case Fence(value) => FenceRoundTrip(value);
  }

  /** The slot given to a command of a task is, when the device gets to the command, the one that is bound for the
      output buffer of that task. */
  lemma GivenSlotIsOwn(s: State, p: nat)
    requires Reachable(s) && p < |s.d.dev.fed| && s.d.dev.fed[p].req.TaskReq?
    ensures s.d.dev.fed[p].tag.Some? && s.d.dev.fed[p].tag.value < |s.d.log|
    ensures var task := s.d.log[s.d.dev.fed[p].tag.value];
            && task.buf in s.d.bufs
            && OwnSlot(View(s.d.dev.fed[..p]), s.d.dev.fed[p].req.slot, task.buf, s.d.bufs[task.buf].table)
            && s.d.dev.fed[p].req.cmd in task.parsed.cmds
  {
    ReachableCore(s);
    ReachableTraced(s);
    assert AtHome(s.d, p);
  }

  lemma FedDecodes(s: State, p: nat)
    requires Reachable(s) && p < |s.d.dev.fed|
    ensures var req := s.d.dev.fed[p].req;
            InRange(req) && IsFrame(Encode(CmdOf(req))) && Decode(Encode(CmdOf(req))) == Some(ReadBack(CmdOf(req)))
  {
    ReachableTraced(s);
    assert AtHome(s.d, p);
    var req := s.d.dev.fed[p].req;
    if req.TaskReq? {
      var allowed := FedCmdOk(s, p);
      RequestDecodes(req, allowed);
    } else {
      RequestDecodes(req, 0);
    }
  }

  /** A command of a task that was fed had passed the checks. */
  lemma FedCmdOk(s: State, p: nat) returns (allowed: Word)
    requires Reachable(s) && p < |s.d.dev.fed| && s.d.dev.fed[p].req.TaskReq?
    ensures CmdOk(s.d.dev.fed[p].req.cmd, allowed)
  {
    GivenSlotIsOwn(s, p);
    var t := s.d.dev.fed[p].tag.value;
    ReachableTask(s, t);
    allowed := s.d.bufs[s.d.log[t].buf].allowed;
    var k :| 0 <= k < |s.d.log[t].parsed.cmds| && s.d.log[t].parsed.cmds[k] == s.d.dev.fed[p].req.cmd;
    ParseCmdsOk(s.d.log[t].words, allowed, k);
  }

  // ---------- The stream ----------

  /** Every request is in range, and its words are read back as what was issued. */
  ghost predicate Readable(fed: seq<Fed>) {
    forall i :: 0 <= i < |fed| ==>
      InRange(fed[i].req) && IsFrame(Encode(CmdOf(fed[i].req)))
      && Decode(Encode(CmdOf(fed[i].req))) == Some(ReadBack(CmdOf(fed[i].req)))
  }

  /** The words of all that was fed, as one stream. */
  ghost function StreamOf(fed: seq<Fed>): seq<Word>
    requires Ranged(fed)
  {
    Flatten(WordsOf(fed))
  }

  /** The device cuts the words it has been fed into exactly the commands that were issued, and reads each as it was
      issued. */
  lemma StreamDecodes(s: State)
    requires Reachable(s)
    ensures Readable(s.d.dev.fed)
    ensures var frames := Frames(StreamOf(s.d.dev.fed));
            && |frames| == |s.d.dev.fed|
            && forall i :: 0 <= i < |frames| ==>
                 IsFrame(frames[i]) && Decode(frames[i]) == Some(ReadBack(CmdOf(s.d.dev.fed[i].req)))
  {
    forall i | 0 <= i < |s.d.dev.fed|
      ensures var req := s.d.dev.fed[i].req;
              InRange(req) && IsFrame(Encode(CmdOf(req))) && Decode(Encode(CmdOf(req))) == Some(ReadBack(CmdOf(req)))
    {
      FedDecodes(s, i);
    }
    StreamFrames(s.d.dev.fed);
  }

  lemma StreamFrames(fed: seq<Fed>)
    requires Readable(fed)
    ensures Frames(StreamOf(fed)) == WordsOf(fed)
  {
    FramesOfFlatten(WordsOf(fed), []);
    assert Flatten(WordsOf(fed)) + [] == Flatten(WordsOf(fed));
  }

  lemma StreamAppend(fed: seq<Fed>, f: Fed)
    requires Ranged(fed) && InRange(f.req)
    ensures Ranged(fed + [f]) && StreamOf(fed + [f]) == StreamOf(fed) + Encode(CmdOf(f.req))
  {
    assert WordsOf(fed + [f]) == WordsOf(fed) + [Encode(CmdOf(f.req))];
    FlattenAppend(WordsOf(fed), Encode(CmdOf(f.req)));
  }

  /** The address of a page table. */
  datatype Address = Address(value: bv64)

  /** What the device makes of frames: which page table each slot is bound to. */
  function Replay(frames: seq<seq<Word>>): map<int, Address>
    requires forall i :: 0 <= i < |frames| ==> IsFrame(frames[i])
  {
    if frames == [] then map[]
    else ReplayStep(Replay(frames[..|frames| - 1]), Decode(frames[|frames| - 1]))
  }

  function ReplayStep(bound: map<int, Address>, cmd: Option<Cmd>): map<int, Address> {
    match cmd
    case Some(Bind(slot, _, _, table)) => bound[Number(slot) := Address(table)]
    case Some(Unbind(slot)) => bound - {Number(slot)}
    case _ => bound
  }

  /** The page tables of a view. */
  function Tables(view: map<int, Bond>): map<int, Address> { map k | k in view :: Address(view[k].table) }

  lemma ReplayOne(view: map<int, Bond>, req: Request)
    requires InRange(req)
    ensures ReplayStep(Tables(view), Some(ReadBack(CmdOf(req)))) == Tables(ViewStep(view, req))
  {
    match req
    case BindReq(slot, _, _, _, _) => SlotBitsNumber(slot);
    case UnbindReq(slot) => SlotBitsNumber(slot);
    case TaskReq(cmd, slot) =>
    case FenceReq(_) =>
  }

  lemma {:induction false} ReplayIsView(fed: seq<Fed>)
    requires Readable(fed)
    ensures Replay(WordsOf(fed)) == Tables(View(fed))
  {
    if fed != [] {
      var front := fed[..|fed| - 1];
      ReplayIsView(front);
      assert WordsOf(fed)[..|fed| - 1] == WordsOf(front);
      ReplayOne(View(front), fed[|fed| - 1].req);
    }
  }

  // ---------- The words of one task ----------

  predicate AllInRange(reqs: seq<Request>) { forall i :: 0 <= i < |reqs| ==> InRange(reqs[i]) }

  /** The words of a sequence of requests. */
  function ReqWords(reqs: seq<Request>): seq<Word>
    requires AllInRange(reqs)
  {
    if reqs == [] then [] else ReqWords(reqs[..|reqs| - 1]) + Encode(CmdOf(reqs[|reqs| - 1]))
  }

  lemma {:induction false} SentWords(cmds: seq<UserCmd>, slot: Slot, k: nat)
    requires k <= |cmds|
    ensures AllInRange(Sent(cmds, slot, k)) && ReqWords(Sent(cmds, slot, k)) == FedWords(cmds[..k], SlotBits(slot))
  {
    if k > 0 {
      SentWords(cmds, slot, k - 1);
      assert Sent(cmds, slot, k)[..k - 1] == Sent(cmds, slot, k - 1);
      assert cmds[..k][..k - 1] == cmds[..k - 1];
    }
  }

  lemma {:induction false} FedOfFrom(fed: seq<Fed>, t: TaskId, i: nat) returns (p: nat)
    requires i < |FedOf(fed, t)|
    ensures p < |fed| && fed[p].req == FedOf(fed, t)[i] && fed[p].tag == Some(t)
  {
    var front := fed[..|fed| - 1];
    if i < |FedOf(front, t)| {
      p := FedOfFrom(front, t, i);
    } else {
      p := |fed| - 1;
    }
  }

  lemma FedOfInRange(s: State, t: TaskId)
    requires Reachable(s)
    ensures AllInRange(FedOf(s.d.dev.fed, t))
  {
    forall i | 0 <= i < |FedOf(s.d.dev.fed, t)| ensures InRange(FedOf(s.d.dev.fed, t)[i]) {
      var p := FedOfFrom(s.d.dev.fed, t, i);
      FedDecodes(s, p);
    }
  }

  lemma FencedWords(reqs: seq<Request>)
    requires AllInRange(reqs)
    ensures AllInRange(reqs + [FenceReq(TASK_FENCE)])
    ensures ReqWords(reqs + [FenceReq(TASK_FENCE)]) == ReqWords(reqs) + Encode(Fence(42))
  {
    assert (reqs + [FenceReq(TASK_FENCE)])[..|reqs|] == reqs;
  }

  lemma ScriptWords(cmds: seq<UserCmd>, slot: int, reqs: seq<Request>)
    requires reqs == Sent(cmds, slot, |cmds|) + [FenceReq(TASK_FENCE)] && AllInRange(reqs)
    ensures if cmds == [] then ReqWords(reqs) == Encode(Fence(42))
            else 0 <= slot < NUM_SLOTS && ReqWords(reqs) == FedWords(cmds, SlotBits(slot)) + Encode(Fence(42))
  {
    if cmds == [] {
      assert reqs == [] + [FenceReq(TASK_FENCE)];
      FencedWords([]);
    } else {
      assert InRange(reqs[0]) && reqs[0] == TaskReq(cmds[0], slot);
      SentWords(cmds, slot, |cmds|);
      assert cmds[..|cmds|] == cmds;
      FencedWords(Sent(cmds, slot, |cmds|));
    }
  }

  lemma FinishedScript(s: State, t: TaskId)
    requires Reachable(s) && t < |s.d.log| && t in s.d.hist.destroyed && t in s.d.hist.slotOf
    ensures s.d.log[t].buf in s.d.bufs
    ensures s.d.log[t].parsed == Parse(s.d.log[t].words, s.d.bufs[s.d.log[t].buf].allowed)
    ensures var cmds := s.d.log[t].parsed.cmds;
            FedOf(s.d.dev.fed, t) == Sent(cmds, s.d.hist.slotOf[t], |cmds|) + [FenceReq(TASK_FENCE)]
  {
    ReachableCore(s);
    ReachableTask(s, t);
    DestroyedScript(s, t);
  }

  /** The words that the device was fed for a task that was started and destroyed are those that the translation loop
      feeds for the words of the task and the slot it was given, and the fence. */
  lemma TaskWordsAreTranslation(s: State, t: TaskId)
    requires Reachable(s) && t < |s.d.log| && t in s.d.hist.destroyed && t in s.d.hist.slotOf
    ensures AllInRange(FedOf(s.d.dev.fed, t)) && s.d.log[t].buf in s.d.bufs
    ensures var cmds := Parse(s.d.log[t].words, s.d.bufs[s.d.log[t].buf].allowed).cmds;
            if cmds == [] then ReqWords(FedOf(s.d.dev.fed, t)) == Encode(Fence(42))
            else 0 <= s.d.hist.slotOf[t] < NUM_SLOTS
                 && ReqWords(FedOf(s.d.dev.fed, t)) == FedWords(cmds, SlotBits(s.d.hist.slotOf[t])) + Encode(Fence(42))
  {
    FinishedScript(s, t);
    FedOfInRange(s, t);
    ScriptWords(s.d.log[t].parsed.cmds, s.d.hist.slotOf[t], FedOf(s.d.dev.fed, t));
  }

  // ---------- The slot that the device finds ----------

  /** The slot in the words of a command of a task. */
  function Targeted(req: Request): Slot
    requires req.TaskReq? && InRange(req)
  {
    SlotIndex(NamedSlot(CmdOf(req)))
  }

  /** It is the slot that was inserted exactly when the user left the lowest bit of the slot field clear, or the slot
      is odd. */
  lemma TargetedExactly(req: Request, allowed: Word)
    requires req.TaskReq? && InRange(req) && CmdOk(req.cmd, allowed)
    ensures Targeted(req) == req.slot <==> !LowBit(req.cmd) || Odd(SlotBits(req.slot))
  {
    InsertNamesSlot(req.cmd, SlotBits(req.slot), allowed);
    SlotIndexOf(req.slot);
  }
}
