/** The loop of `vis_py_interrupt_batches` over the listed batches, against the function the
    state machine uses for it. */
module InterruptLoops {
  import opened GatherModel

  class Batch {
    const owner: nat
    const tasks: seq<Task>
    var stopped: bool
    var interrupted: bool

    constructor (owner: nat, tasks: seq<Task>)
      ensures this.owner == owner && this.tasks == tasks && !stopped && !interrupted
    {
      this.owner, this.tasks := owner, tasks;
      stopped, interrupted := false, false;
    }
  }

  /** The objects are the state machine's listed batches, in order. */
  ghost predicate Lists(batches: seq<Batch>, s: State, linked: seq<nat>) {
    |linked| == |batches| && forall k :: 0 <= k < |linked| ==> IsListed(batches[k], s, linked[k])
  }

  ghost predicate IsListed(batch: Batch, s: State, b: nat) {
    b < |s.gathers| && batch.owner == s.gathers[b].owner && batch.tasks == s.gathers[b].tasks
  }

  lemma {:induction false} OneMoreBatch(s: State, linked: seq<nat>, k: nat, owner: nat)
    requires k < |linked| && linked[k] < |s.gathers|
    ensures Runners(s, linked[..k + 1], owner)
         == Runners(s, linked[..k], owner)
            + if s.gathers[linked[k]].owner == owner then TaskRunners(s.gathers[linked[k]].tasks, owner) else []
    decreases k
  {
    if k > 0 {
      OneMoreBatch(s, linked[1..], k - 1, owner);
      assert linked[..k + 1][1..] == linked[1..][..k] && linked[..k][1..] == linked[1..][..k - 1];
    } else {
      assert linked[..1][1..] == [] && linked[..0] == [];
    }
  }

  function OneRunner(task: Task, owner: nat): seq<nat> {
    if task.runner.Some? && task.runner.value != owner then [task.runner.value] else []
  }

  lemma {:induction false} RunnersAppend(tasks: seq<Task>, k: nat, owner: nat)
    requires k < |tasks|
    ensures TaskRunners(tasks[..k + 1], owner) == TaskRunners(tasks[..k], owner) + OneRunner(tasks[k], owner)
    decreases k
  {
    if k > 0 {
      RunnersAppend(tasks[1..], k - 1, owner);
      assert tasks[..k + 1][1..] == tasks[1..][..k] && tasks[..k][1..] == tasks[1..][..k - 1];
    } else {
      assert tasks[..1][1..] == [] && tasks[..0] == [];
    }
  }

  lemma TruncatedGrows(names: seq<nat>, more: seq<nat>, room: nat)
    requires |more| <= 1
    ensures |Truncated(names, room)| < room ==> Truncated(names + more, room) == Truncated(names, room) + more
    ensures |Truncated(names, room)| == room ==> Truncated(names + more, room) == Truncated(names, room)
  {
  }

  /** Stop every batch of `owner` and name the threads that run its thunks: those that the
      state machine's interrupt names, as many as the array has room for. */
  method InterruptBatches(batches: seq<Batch>, owner: nat, runner: array<nat>, ghost s: State) returns (named: nat)
    requires Lists(batches, s, s.linked)
    modifies batches, runner
    ensures named <= runner.Length && runner[..named] == Truncated(Runners(s, s.linked, owner), runner.Length)
    ensures forall b :: b in batches && b.owner == owner ==> b.stopped && b.interrupted
    ensures forall b :: b in batches && b.owner != owner ==> b.stopped == old(b.stopped) && b.interrupted == old(b.interrupted)
  {
    named := 0;
    for k := 0 to |batches|
      invariant named <= runner.Length && runner[..named] == Truncated(Runners(s, s.linked[..k], owner), runner.Length)
      invariant forall i :: 0 <= i < k && batches[i].owner == owner ==> batches[i].stopped && batches[i].interrupted
      invariant forall b :: b in batches && b.owner != owner ==> b.stopped == old(b.stopped) && b.interrupted == old(b.interrupted)
    {
      assert IsListed(batches[k], s, s.linked[k]);
      named := InterruptBatch(batches[k], owner, runner, named, s, k);
    }
    assert s.linked[..|batches|] == s.linked;
  }

  method InterruptBatch(batch: Batch, owner: nat, runner: array<nat>, from: nat, ghost s: State, ghost k: nat) returns (named: nat)
    requires k < |s.linked| && IsListed(batch, s, s.linked[k])
    requires from <= runner.Length && runner[..from] == Truncated(Runners(s, s.linked[..k], owner), runner.Length)
    modifies batch, runner
    ensures named <= runner.Length && runner[..named] == Truncated(Runners(s, s.linked[..k + 1], owner), runner.Length)
    ensures if batch.owner == owner then batch.stopped && batch.interrupted
            else batch.stopped == old(batch.stopped) && batch.interrupted == old(batch.interrupted)
  {
    named := from;
    OneMoreBatch(s, s.linked, k, owner);
    if batch.owner == owner {
      batch.stopped, batch.interrupted := true, true;
      named := NameRunners(batch.tasks, owner, runner, named, Runners(s, s.linked[..k], owner));
    }
  }

  method NameRunners(tasks: seq<Task>, owner: nat, runner: array<nat>, from: nat, ghost names: seq<nat>) returns (named: nat)
    requires from <= runner.Length && runner[..from] == Truncated(names, runner.Length)
    modifies runner
    ensures named <= runner.Length && runner[..named] == Truncated(names + TaskRunners(tasks, owner), runner.Length)
  {
    named := from;
    assert names + TaskRunners(tasks[..0], owner) == names;
    for i := 0 to |tasks|
      invariant named <= runner.Length && runner[..named] == Truncated(names + TaskRunners(tasks[..i], owner), runner.Length)
    {
      RunnersAppend(tasks, i, owner);
      ghost var soFar := names + TaskRunners(tasks[..i], owner);
      assert soFar + OneRunner(tasks[i], owner) == names + TaskRunners(tasks[..i + 1], owner);
      TruncatedGrows(soFar, OneRunner(tasks[i], owner), runner.Length);
      var thread := tasks[i].runner;
      if thread.Some? && thread.value != owner && named < runner.Length {
        runner[named] := thread.value;
        named := named + 1;
      }
    }
    assert tasks[..|tasks|] == tasks;
  }
}
