/** What holds of one gather by itself, and that every critical section keeps it. */
module GatherLocal {
  import opened Basics
  import opened GatherAnswers
  import opened GatherModel

  function CountFinished(ts: seq<Task>, n: nat): (c: nat)
    requires n <= |ts|
    ensures c <= n
  {
    if n == 0 then 0 else CountFinished(ts, n - 1) + (if ts[n - 1].finished then 1 else 0)
  }

  predicate SomeStopping(ts: seq<Task>) {
    exists i :: 0 <= i < |ts| && ts[i].result.Some? && ts[i].result.value.Stopping?
  }

  /** A task past `submitted` is untouched; a started one was claimed and runs until
      it is recorded; only a stopped batch holds a task that ended unrun. */
  predicate TaskOk(g: Gather, i: nat)
    requires i < |g.tasks|
  {
    var k := g.tasks[i];
    && (i >= g.submitted ==> k == NewTask)
    && k.starts <= 1
    && (k.starts == 1 ==> k.claimer.Some?)
    && (k.runner.Some? ==> k.claimer == k.runner && !k.finished && k.starts == 1)
    && (!k.finished ==> k.result.None? && (k.starts == 1 ==> k.runner.Some?))
    && (k.finished ==> k.runner.None? && (k.starts == 1 <==> k.result.Some?))
    && (k.result.Some? && k.result.value.Stopping? ==> g.stopped)
    && (k.finished && k.result.None? ==> g.stopped)
  }

  predicate InLoop(p: Phase) {
    p.Submit? || p.Check? || p.Wait? || p.Woken? || p.Return? || p.CallerRun?
  }

  predicate AllFinished(g: Gather, n: nat) {
    n <= |g.tasks| && forall j :: 0 <= j < n ==> g.tasks[j].finished
  }

  /** The owner itself holds task `at`, to run it or running it. */
  predicate CallerClaims(g: Gather) { g.phase == Return(true) || g.phase.CallerRun? }

  predicate Settled(p: Phase) { p.Drained? || p.Unlink? || p.Answering? || p.Returned? }

  ghost predicate PhaseOk(g: Gather) {
    && (g.phase.Link? ==> g.at == 0 && g.submitted == 0 && !g.stopped)
    && (InLoop(g.phase) ==> g.at < |g.tasks| && (g.stopped || AllFinished(g, g.at)))
    && (InLoop(g.phase) && !g.phase.Submit? ==> g.at < g.submitted)
    && (CallerClaims(g) ==> g.at < |g.tasks| && g.tasks[g.at].claimer == Some(g.owner) && !g.tasks[g.at].finished)
    && (g.phase == Return(true) ==> g.at < |g.tasks| && g.tasks[g.at].starts == 0)
    && (g.phase == Return(false) ==> g.stopped || (g.at < |g.tasks| && g.tasks[g.at].finished))
    && (!g.phase.Link? && !InLoop(g.phase) ==> g.stopped || AllFinished(g, |g.tasks|))
    && (g.phase.DrainWait? || g.phase.DrainWoken? ==> forall i: nat :: !Waiting(g, i))
    && (Settled(g.phase) ==> g.outstanding == 0)
    && (g.phase.Answering? ==> g.phase.interrupted == g.interrupted)
    && (g.phase.Returned? ==> g.phase.answer == PoolAnswer(Results(g), g.interrupted))
  }

  ghost predicate GatherOk(g: Gather) {
    && |g.tasks| >= 2 && g.submitted <= |g.tasks| && g.quota >= 1
    && g.done == CountFinished(g.tasks, |g.tasks|)
    && g.outstanding == g.submitted - g.done
    && g.outstanding <= g.quota
    && (forall i :: 0 <= i < |g.tasks| ==> TaskOk(g, i))
    && (g.interrupted ==> g.stopped)
    && (g.stopped ==> g.interrupted || SomeStopping(g.tasks))
    && PhaseOk(g)
  }

  // ----- counting

  lemma {:induction false} CountUpdate(ts: seq<Task>, i: nat, x: Task, n: nat)
    requires i < |ts| && n <= |ts|
    ensures CountFinished(ts[i := x], n) ==
            CountFinished(ts, n) + (if i < n && x.finished then 1 else 0) - (if i < n && ts[i].finished then 1 else 0)
  {
    if n > 0 {
      CountUpdate(ts, i, x, n - 1);
    }
  }

  lemma {:induction false} CountAtLeast(ts: seq<Task>, from: nat, n: nat)
    requires from <= n <= |ts| && forall j :: 0 <= j < from ==> ts[j].finished
    ensures CountFinished(ts, n) >= from
  {
    if n > 0 {
      CountAtLeast(ts, if from == n then n - 1 else from, n - 1);
    }
  }

  /** With nothing outstanding, every submitted task has finished. */
  lemma {:induction false} CountFull(ts: seq<Task>, to: nat, n: nat)
    requires to <= n <= |ts| && forall j :: to <= j < n ==> !ts[j].finished
    ensures CountFinished(ts, n) <= to
    ensures CountFinished(ts, n) == to ==> forall j :: 0 <= j < to ==> ts[j].finished
  {
    if n > 0 {
      CountFull(ts, if to == n then n - 1 else to, n - 1);
    }
  }

  lemma SettledAllFinished(g: Gather)
    requires GatherOk(g)
    ensures g.outstanding >= 0
    ensures g.outstanding == 0 ==> AllFinished(g, g.submitted)
  {
    forall j | g.submitted <= j < |g.tasks| ensures !g.tasks[j].finished { assert TaskOk(g, j); }
    CountFull(g.tasks, g.submitted, |g.tasks|);
  }

  /** Every submitted task that has not finished is queued or claimed, and they are
      as many as the batch counts outstanding. */
  function CountClaimed(g: Gather, n: nat): nat {
    if n == 0 then 0
    else CountClaimed(g, n - 1)
         + (if n - 1 < g.submitted && n - 1 < |g.tasks| && !g.tasks[n - 1].finished && g.tasks[n - 1].claimer.Some? then 1 else 0)
  }

  lemma {:induction false} CountsAdd(g: Gather, n: nat)
    requires n <= |g.tasks| && forall i :: g.submitted <= i < n ==> !g.tasks[i].finished
    ensures CountWaiting(g, n) + CountClaimed(g, n) + CountFinished(g.tasks, n) == if n < g.submitted then n else g.submitted
  {
    if n > 0 {
      CountsAdd(g, n - 1);
    }
  }

  lemma OutstandingIsQueuedPlusClaimed(g: Gather)
    requires GatherOk(g)
    ensures g.submitted - g.done == g.outstanding
    ensures g.outstanding == CountWaiting(g, |g.tasks|) + CountClaimed(g, |g.tasks|)
    ensures 0 <= g.outstanding <= g.quota
  {
    forall i | g.submitted <= i < |g.tasks| ensures !g.tasks[i].finished { assert TaskOk(g, i); }
    CountsAdd(g, |g.tasks|);
  }

  // ----- the critical sections keep a gather well-formed

  lemma SubmitOk(g: Gather)
    requires GatherOk(g) && g.phase.Submit? && !g.stopped
    ensures GatherOk(SubmitMore(g))
    ensures g.at < SubmitTo(g)
  {
    var g' := SubmitMore(g);
    CountAtLeast(g.tasks, g.at, |g.tasks|);
    assert g.done >= g.at;
    forall i | 0 <= i < |g'.tasks| ensures TaskOk(g', i) { assert TaskOk(g, i); }
  }

  lemma ClaimStepOk(g: Gather, i: nat, t: nat)
    requires GatherOk(g) && Waiting(g, i)
    ensures GatherOk(Claim(g, i, t))
  {
    var g' := Claim(g, i, t);
    assert TaskOk(g, i);
    CountUpdate(g.tasks, i, g'.tasks[i], |g.tasks|);
    forall j | 0 <= j < |g'.tasks| ensures TaskOk(g', j) { assert TaskOk(g, j); }
    if g.stopped && !g.interrupted {
      SameStopping(g.tasks, g'.tasks);
    }
    SettledAllFinished(g);
    forall j: nat | !Waiting(g, j) ensures !Waiting(g', j) {}
  }

  lemma SameStopping(ts: seq<Task>, ts': seq<Task>)
    requires SomeStopping(ts) && |ts| == |ts'|
    requires forall i :: 0 <= i < |ts| ==> ts[i].result.Some? ==> ts'[i].result == ts[i].result
    ensures SomeStopping(ts')
  {
    var i :| 0 <= i < |ts| && ts[i].result.Some? && ts[i].result.value.Stopping?;
    assert ts'[i].result.Some? && ts'[i].result.value.Stopping?;
  }

  lemma TakenBackOk(g: Gather)
    requires GatherOk(g) && (g.phase.Check? || g.phase.Woken?) && Waiting(g, g.at)
    ensures GatherOk(Claim(g, g.at, g.owner).(phase := Return(true), saturated := true))
  {
    ClaimStepOk(g, g.at, g.owner);
    assert TaskOk(g, g.at);
    var c := Claim(g, g.at, g.owner);
    var g' := c.(phase := Return(true), saturated := true);
    forall j | 0 <= j < |g'.tasks| ensures TaskOk(g', j) { assert TaskOk(c, j); }
  }

  lemma StartOk(g: Gather, i: nat, t: nat)
    requires GatherOk(g) && !g.stopped
    requires i < g.submitted && g.tasks[i].claimer == Some(t) && g.tasks[i].starts == 0 && !g.tasks[i].finished
    requires g.phase == Return(true) ==> i != g.at
    ensures GatherOk(Start(g, i, t))
  {
    var g' := Start(g, i, t);
    assert TaskOk(g, i);
    CountUpdate(g.tasks, i, g'.tasks[i], |g.tasks|);
    forall j | 0 <= j < |g'.tasks| ensures TaskOk(g', j) { assert TaskOk(g, j); }
    SettledAllFinished(g);
    forall j: nat | !Waiting(g, j) ensures !Waiting(g', j) {}
  }

  /** How a task may end: unrun in a stopped batch, or as its thunk did. */
  predicate MayFinish(g: Gather, i: nat, outcome: Option<Outcome>) {
    && i < g.submitted && i < |g.tasks| && !g.tasks[i].finished
    && (outcome.None? ==> g.stopped && g.tasks[i].starts == 0)
    && (outcome.Some? ==> g.tasks[i].starts == 1)
  }

  lemma FinishLocal(g: Gather, i: nat, outcome: Option<Outcome>)
    requires GatherOk(g) && MayFinish(g, i, outcome)
    ensures var g' := Finish(g, i, outcome);
            && g'.done == CountFinished(g'.tasks, |g'.tasks|)
            && (forall j :: 0 <= j < |g'.tasks| ==> TaskOk(g', j))
            && (g'.stopped ==> g'.interrupted || SomeStopping(g'.tasks))
            && !Settled(g.phase)
  {
    var g' := Finish(g, i, outcome);
    CountUpdate(g.tasks, i, g'.tasks[i], |g.tasks|);
    assert TaskOk(g, i);
    forall j | 0 <= j < |g'.tasks| ensures TaskOk(g', j) { assert TaskOk(g, j); }
    SettledAllFinished(g);
    if g'.stopped && !g'.interrupted {
      if g.stopped {
        SameStopping(g.tasks, g'.tasks);
      } else {
        assert g'.tasks[i].result.Some? && g'.tasks[i].result.value.Stopping?;
      }
    }
  }

  lemma FinishOk(g: Gather, i: nat, outcome: Option<Outcome>)
    requires GatherOk(g) && MayFinish(g, i, outcome)
    requires CallerClaims(g) ==> i != g.at
    ensures GatherOk(Finish(g, i, outcome))
  {
    FinishLocal(g, i, outcome);
    var g' := Finish(g, i, outcome);
    forall j: nat | !Waiting(g, j) ensures !Waiting(g', j) {}
  }

  lemma CallerFinishOk(g: Gather, outcome: Option<Outcome>)
    requires GatherOk(g) && g.phase.CallerRun? && MayFinish(g, g.at, outcome)
    ensures GatherOk(NextTurn(Finish(g, g.at, outcome)))
  {
    FinishLocal(g, g.at, outcome);
    var f := Finish(g, g.at, outcome);
    var g' := NextTurn(f);
    forall j | 0 <= j < |g'.tasks| ensures TaskOk(g', j) { assert TaskOk(f, j); }
    assert !f.stopped ==> AllFinished(f, f.at + 1);
  }

  lemma NextTurnOk(g: Gather)
    requires GatherOk(g) && g.phase == Return(false)
    ensures GatherOk(NextTurn(g))
  {
    var g' := NextTurn(g);
    forall j | 0 <= j < |g'.tasks| ensures TaskOk(g', j) { assert TaskOk(g, j); }
    assert !g.stopped ==> AllFinished(g, g.at + 1);
  }

  lemma {:induction false} CountTakeBack(g: Gather, n: nat)
    requires n <= |g.tasks|
    ensures CountFinished(TakeBack(g).tasks, n) == CountFinished(g.tasks, n) + CountWaiting(g, n)
  {
    if n > 0 {
      CountTakeBack(g, n - 1);
    }
  }

  lemma TakeBackOk(g: Gather, epoch: nat)
    requires GatherOk(g) && g.phase.Drain? && g.stopped
    ensures GatherOk(DrainPhase(TakeBack(g), epoch))
    ensures forall i: nat :: !Waiting(TakeBack(g), i)
  {
    CountTakeBack(g, |g.tasks|);
    var b := TakeBack(g);
    var g' := DrainPhase(b, epoch);
    forall j | 0 <= j < |g'.tasks| ensures TaskOk(g', j) { assert TaskOk(g, j); }
    if !g.interrupted {
      SameStopping(g.tasks, g'.tasks);
    }
    forall i: nat ensures !Waiting(b, i) && !Waiting(g', i) {}
    forall j | g.submitted <= j < |g.tasks| ensures !b.tasks[j].finished { assert TaskOk(g', j); }
    SettledNonNegative(b);
  }

  lemma SettledNonNegative(g: Gather)
    requires g.submitted <= |g.tasks| && g.done == CountFinished(g.tasks, |g.tasks|) && g.outstanding == g.submitted - g.done
    requires forall j :: g.submitted <= j < |g.tasks| ==> !g.tasks[j].finished
    ensures g.outstanding >= 0
  {
    CountFull(g.tasks, g.submitted, |g.tasks|);
  }

  /** With the batch not stopped, every task it still has has finished. */
  lemma DrainOk(g: Gather, epoch: nat)
    requires GatherOk(g) && ((g.phase.Drain? && !g.stopped) || g.phase.DrainWoken?)
    ensures GatherOk(DrainPhase(g, epoch))
  {
    var g' := DrainPhase(g, epoch);
    forall j | 0 <= j < |g'.tasks| ensures TaskOk(g', j) { assert TaskOk(g, j); }
    SettledAllFinished(g);
    forall i: nat ensures !Waiting(g', i) { assert !Waiting(g, i); }
  }

  lemma MarkOk(g: Gather)
    requires GatherOk(g) && !g.phase.Link? && !g.phase.Answering? && !g.phase.Returned?
    ensures GatherOk(MarkStopped(g))
  {
    var g' := MarkStopped(g);
    forall j | 0 <= j < |g'.tasks| ensures TaskOk(g', j) { assert TaskOk(g, j); }
    forall i: nat | !Waiting(g, i) ensures !Waiting(g', i) {}
  }

  /** A step of the owner that moves its phase and nothing else. */
  lemma PhaseStepOk(g: Gather, phase: Phase)
    requires GatherOk(g) && PhaseOk(g.(phase := phase))
    ensures GatherOk(g.(phase := phase))
  {
    var g' := g.(phase := phase);
    forall j | 0 <= j < |g'.tasks| ensures TaskOk(g', j) { assert TaskOk(g, j); }
  }
}
