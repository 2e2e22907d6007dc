/** Starvation is real: sixteen writes to sixteen buffers take all the slots for good, and the next task finds none. */
module Starvation {
  import opened Slots
  import opened Protocol
  import opened Runs
  import opened Completion
  import opened Blocking
  import opened Scenario

  function Upto(n: nat): (s: set<BufId>)
    ensures |s| == n && forall x :: x in s <==> 0 <= x < n
  {
    if n == 0 then {} else Upto(n - 1) + {n - 1}
  }

  lemma WrittenNext(log: seq<Task>, log': seq<Task>)
    requires |log'| == |log| + 1 && log'[..|log|] == log
    ensures Written(log') == Written(log) + if log'[|log|].kind.Write? then {log'[|log|].buf} else {}
  {
    assert forall t :: 0 <= t < |log| ==> log'[t] == log[t];
  }

  /** One context has written to `n` buffers, and each of them keeps its slot. */
  lemma {:induction false} Many(n: nat) returns (s: State)
    requires n <= 16
    ensures Calm(s, n, 17, 1) && Written(s.d.log) == Upto(n)
  {
    if n == 0 {
      var start := Start(17);
      s := OpenOne(start, 0, 17, 0);
    } else {
      var before := Many(n - 1);
      s := OneMore(before, n - 1, 17, 1, 0);
      WrittenNext(before.d.log, s.d.log);
    }
  }

  /** No buffer has been given up by its context. */
  lemma AllWriters(d: Data, n: nat, split: nat, w: nat)
    requires BufsAre(d.bufs, n, w, split) && Written(d.log) == Upto(w) && w <= n
    ensures Writers(d) == Upto(w)
  {
    forall b: BufId | b in Upto(w) ensures b in Writers(d) {
      assert b in d.bufs && BufIs(d.bufs[b], b, w, split);
    }
  }

  function Full(n: nat): World { World(n + 1, n, 17, 1, 0, BUSY) }

  /** A run on one more buffer is put on the list. */
  lemma RunNext(s0: State, n: nat) returns (s: State, t: TaskId)
    requires Calm(s0, n, 17, 1) && n < 17
    ensures Listed(s, Full(n), t, Run, n, []) && Written(s.d.log) == Written(s0.d.log)
  {
    var s1 := CreateOne(s0, n, 17, 1, 0);
    EmptyParse(s1.d.bufs[n].allowed);
    s, t := SubmitOne(s1, Full(n).(busy := QUIET), Run, n, []);
    WrittenNext(s1.d.log, s.d.log);
  }

  lemma ListedIsBlocked(s: State, n: nat, t: TaskId)
    requires Listed(s, Full(n), t, Run, n, []) && n == 16
    ensures Blocked(s) && !Starving(s)
  {
  }

  lemma FetchedStarves(s: State, n: nat, t: TaskId)
    requires Fetched(s, Full(n), t, Run, n, []) && n == 16
    ensures Starving(s) && Blocked(s)
    ensures 0 in s.d.ctxs && s.d.ctxs[0].phase.Open? && !s.d.ctxs[0].failed
  {
    ReachableAtPc(s);
    StarvingIsBlocked(s);
  }

  /** After sixteen writes, a run on another buffer is on the list. */
  lemma OneTooMany() returns (s: State, n: nat, t: TaskId)
    ensures n == 16 && Listed(s, Full(n), t, Run, n, []) && |Writers(s.d)| == 16
  {
    n := 16;
    var s0 := Many(n);
    s, t := RunNext(s0, n);
    AllWriters(s.d, n + 1, 17, n);
  }

  /** Sixteen buffers that are written to are enough: there is a run in which the work thread starves with no task
      running, the context of the waiting task open and not failed, and no step but those of releases ever ends
      another task. */
  lemma StarvationHappens()
    ensures exists s :: Reachable(s) && Wf(s) && Starving(s) && NoMore(s) && |Writers(s.d)| == 16
                        && 0 in s.d.ctxs && s.d.ctxs[0].phase.Open? && !s.d.ctxs[0].failed
  {
    var s0, n, t := OneTooMany();
    var s := FetchOne(s0, Full(n), t, Run, n, []);
    FetchedStarves(s, n, t);
    BlockedIsLeft(s);
    NoMoreExactly(s);
  }

  /** A task may be blocked while it is still on the list, and the work thread does not starve yet. */
  lemma BlockedBeforeStarving()
    ensures exists s :: Reachable(s) && Wf(s) && Blocked(s) && !Starving(s) && NoMore(s) && !AllDone(s)
  {
    var s, n, t := OneTooMany();
    ListedIsBlocked(s, n, t);
    BlockedIsLeft(s);
    NoMoreExactly(s);
  }
}
