/** Feeding of commands: the loop that writes the words of one command to the device, and the run of
    many threads (the work thread and the releasing threads) that do so under the feed lock. */
module FeedPort {
  import opened Basics
  import opened Commands

  /** The feed register of the device. `stream` is every word ever written to it. */
  class Port {
    var stream: seq<Word>

    constructor ()
      ensures stream == []
    {
      stream := [];
    }

    /** Writes the words of a command one by one. */
    method FeedCmd(cmd: seq<Word>)
      modifies this
      ensures stream == old(stream) + cmd
    {
      var i := 0;
      while i < |cmd|
        invariant 0 <= i <= |cmd|
        invariant stream == old(stream) + cmd[..i]
      {
        stream := stream + [cmd[i]];
        i := i + 1;
      }
    }
  }

  // ---------- Many threads ----------

  type ThreadId = nat

  datatype Where = Outside | Inside(cmd: seq<Word>, sent: nat)

  /** `calls` lists the commands in the order in which their callers got the lock. */
  datatype FeedState = FeedState(lock: Option<ThreadId>, threads: map<ThreadId, Where>,
                                 stream: seq<Word>, calls: seq<seq<Word>>)

  /** A thread calls the feed routine and gets the lock, writes its next word, or unlocks and returns. */
  datatype FeedStep = Lock(thread: ThreadId, cmd: seq<Word>) | Put(thread: ThreadId) | Unlock(thread: ThreadId)

  predicate FeedEnabled(s: FeedState, step: FeedStep) {
    && step.thread in s.threads
    && match step
       case Lock(t, cmd) => s.lock.None? && s.threads[t].Outside? && IsFrame(cmd)
       case Put(t) => s.threads[t].Inside? && s.threads[t].sent < |s.threads[t].cmd|
       case Unlock(t) => s.threads[t].Inside? && s.threads[t].sent >= |s.threads[t].cmd|
  }

  function FeedApply(s: FeedState, step: FeedStep): FeedState
    requires FeedEnabled(s, step)
  {
    match step
    case Lock(t, cmd) =>
      s.(lock := Some(t), threads := s.threads[t := Inside(cmd, 0)], calls := s.calls + [cmd])
    case Put(t) =>
      var w := s.threads[t];
      s.(stream := s.stream + [w.cmd[w.sent]], threads := s.threads[t := w.(sent := w.sent + 1)])
    case Unlock(t) =>
      s.(lock := None, threads := s.threads[t := Outside])
  }

  /** Only the holder of the lock is inside, and what is not a whole call in the stream is its prefix. */
  ghost predicate FeedInv(s: FeedState) {
    && (forall t :: t in s.threads && s.threads[t].Inside? ==> s.lock == Some(t))
    && (forall i :: 0 <= i < |s.calls| ==> IsFrame(s.calls[i]))
    && match s.lock
       case None => s.stream == Flatten(s.calls)
       case Some(t) =>
         && t in s.threads && s.threads[t].Inside? && s.threads[t].sent <= |s.threads[t].cmd|
         && s.calls != [] && s.calls[|s.calls| - 1] == s.threads[t].cmd
         && s.stream == Flatten(s.calls[..|s.calls| - 1]) + s.threads[t].cmd[..s.threads[t].sent]
  }

  lemma FeedInvStep(s: FeedState, step: FeedStep)
    requires FeedInv(s) && FeedEnabled(s, step)
    ensures FeedInv(FeedApply(s, step))
  {
    match step
    case Lock(t, cmd) =>
      assert (s.calls + [cmd])[..|s.calls|] == s.calls;
      assert cmd[..0] == [];
    case Put(t) =>
      var w := s.threads[t];
      assert w.cmd[..w.sent] + [w.cmd[w.sent]] == w.cmd[..w.sent + 1];
    case Unlock(t) =>
      var w := s.threads[t];
      assert w.cmd[..w.sent] == w.cmd;
      FlattenAppend(s.calls[..|s.calls| - 1], w.cmd);
      assert s.calls[..|s.calls| - 1] + [w.cmd] == s.calls;
  }

  ghost predicate FeedRun(states: seq<FeedState>, steps: seq<FeedStep>) {
    && |states| == |steps| + 1
    && states[0].lock.None? && states[0].stream == [] && states[0].calls == []
    && (forall t :: t in states[0].threads ==> states[0].threads[t].Outside?)
    && forall i :: 0 <= i < |steps| ==>
         FeedEnabled(states[i], steps[i]) && states[i + 1] == FeedApply(states[i], steps[i])
  }

  lemma {:induction false} FeedInvRun(states: seq<FeedState>, steps: seq<FeedStep>, i: nat)
    requires FeedRun(states, steps) && i < |states|
    ensures FeedInv(states[i])
  {
    if i > 0 {
      FeedInvRun(states, steps, i - 1);
      FeedInvStep(states[i - 1], steps[i - 1]);
    }
  }

  /** In every run, for every interleaving of the threads, the device finds in its word stream exactly the
      calls made so far, in the order of the lock and none mixed with another. Only a call in progress is
      left out, and of it the device holds the words written so far. */
  lemma DeviceSeesCalls(states: seq<FeedState>, steps: seq<FeedStep>, i: nat)
    requires FeedRun(states, steps) && i < |states|
    ensures var s := states[i];
            match s.lock
            case None => Frames(s.stream) == s.calls && Leftover(s.stream) == []
            case Some(t) =>
              && t in s.threads && s.threads[t].Inside? && s.calls != []
              && (if s.threads[t].sent < |s.threads[t].cmd| then
                    Frames(s.stream) == s.calls[..|s.calls| - 1]
                    && Leftover(s.stream) == s.threads[t].cmd[..s.threads[t].sent]
                  else Frames(s.stream) == s.calls && Leftover(s.stream) == [])
  {
    FeedInvRun(states, steps, i);
    var s := states[i];
    match s.lock
    case None =>
      FramesOfFlatten(s.calls, []);
      assert Flatten(s.calls) + [] == s.stream;
    case Some(t) =>
      var w := s.threads[t];
      var before := s.calls[..|s.calls| - 1];
      if w.sent < |w.cmd| {
        FramesOfFlatten(before, w.cmd[..w.sent]);
      } else {
        assert w.cmd[..w.sent] == w.cmd;
        FlattenAppend(before, w.cmd);
        assert before + [w.cmd] == s.calls;
        FramesOfFlatten(s.calls, []);
        assert Flatten(s.calls) + [] == s.stream;
      }
  }
}
