/** What every reachable state of the pool guarantees: each task in one place, exact
    answers, no batch freed while it can be reached, and the order of the two locks. */
module GatherSafety {
  import opened Basics
  import opened GatherAnswers
  import opened GatherModel
  import opened GatherLocal
  import opened GatherInvariant
  import opened GatherParSteps
  import opened GatherLifeSteps

  // ----- where a task is

  predicate Unsubmitted(g: Gather, i: nat) { i >= g.submitted }

  /** Some thread took the task and has not recorded its end. */
  ghost predicate ClaimedByThread(s: State, b: nat, i: nat) {
    exists t :: 0 <= t < |s.threads| && HeldBy(s, t, b, i)
  }

  function Truth(p: bool): nat { if p then 1 else 0 }

  /** Each task of each gather is in exactly one place, and the thread that claimed
      it is a worker with this as its only task, or the owner at this very task. */
  lemma EachTaskInOnePlace(s: State, b: nat, i: nat)
    requires Reachable(s) && b < |s.gathers| && i < |s.gathers[b].tasks|
    ensures Truth(Unsubmitted(s.gathers[b], i)) + Truth(TaskRef(b, i) in s.queue)
            + Truth(ClaimedByThread(s, b, i)) + Truth(s.gathers[b].tasks[i].finished) == 1
    ensures forall t :: 0 <= t < |s.threads| && HeldBy(s, t, b, i) ==>
              if Worker(s, t) then WorkerHas(s, t, b, i)
              else s.gathers[b].owner == t && s.gathers[b].at == i && CallerClaims(s.gathers[b])
  {
    ReachableHolds(s);
    var g := s.gathers[b];
    assert GatherOk(g) && TaskOk(g, i) && ClaimOk(s, b, i);
    if TaskRef(b, i) in s.queue { QueuedIsWaiting(s, b, i); }
    if g.tasks[i].claimer.Some? && !g.tasks[i].finished && i < g.submitted {
      assert HeldBy(s, g.tasks[i].claimer.value, b, i);
    } else if i < g.submitted && !g.tasks[i].finished {
      assert Waiting(g, i);
    }
  }

  /** The batch's counters say how many of its tasks are queued or claimed, and that
      is never more than the call's quota. */
  lemma CountersAreExact(s: State, b: nat)
    requires Reachable(s) && b < |s.gathers|
    ensures var g := s.gathers[b];
            && g.submitted - g.done == g.outstanding
            && g.outstanding == CountWaiting(g, |g.tasks|) + CountClaimed(g, |g.tasks|)
            && 0 <= g.outstanding <= g.quota
            && g.done == CountFinished(g.tasks, |g.tasks|)
  {
    ReachableHolds(s);
    OutstandingIsQueuedPlusClaimed(s.gathers[b]);
  }

  // ----- answers

  function OutcomeOf(r: Option<Outcome>): Outcome { if r.Some? then r.value else Value(0) }

  /** How the thunks of a batch ended, where all of them did. */
  function Outcomes(g: Gather): (os: seq<Outcome>)
    ensures |os| == |g.tasks|
  {
    seq(|g.tasks|, i requires 0 <= i < |g.tasks| => OutcomeOf(g.tasks[i].result))
  }

  /** Without an interrupt - no thunk stopping its batch, none from the host - a `par`
      has run each thunk exactly once when it answers, and answers what the sequential
      form, which calls them all, answers for the ends on record. */
  lemma SettledAnswer(s: State, b: nat)
    requires Reachable(s) && b < |s.gathers| && s.gathers[b].phase.Returned?
    requires !s.gathers[b].interrupted && !SomeStopping(s.gathers[b].tasks)
    ensures forall i :: 0 <= i < |s.gathers[b].tasks| ==> s.gathers[b].tasks[i].starts == 1 && s.gathers[b].tasks[i].finished
    ensures Results(s.gathers[b]) == Ended(Outcomes(s.gathers[b]))
    ensures s.gathers[b].phase.answer == PoolAnswer(Ended(Outcomes(s.gathers[b])), false)
    ensures InlineCalls(Outcomes(s.gathers[b])) == |s.gathers[b].tasks|
  {
    ReachableHolds(s);
    var g := s.gathers[b];
    assert GatherOk(g);
    forall i | 0 <= i < |g.tasks|
      ensures g.tasks[i].starts == 1 && g.tasks[i].finished && g.tasks[i].result.Some? && !Outcomes(g)[i].Stopping?
    {
      assert AllFinished(g, |g.tasks|) && TaskOk(g, i);
    }
    assert FirstStopping(Ended(Outcomes(g))) == |g.tasks|;
  }

  /** In every case no thunk runs twice or is still running when `par` answers, and
      the answer is an interrupt exactly when the batch was stopped - by the host or
      by one of its own thunks. */
  lemma AnswerTellsStop(s: State, b: nat)
    requires Reachable(s) && b < |s.gathers| && s.gathers[b].phase.Returned?
    ensures forall i :: 0 <= i < |s.gathers[b].tasks| ==>
              s.gathers[b].tasks[i].starts <= 1 && s.gathers[b].tasks[i].runner.None?
    ensures s.gathers[b].stopped <==> s.gathers[b].interrupted || SomeStopping(s.gathers[b].tasks)
    ensures s.gathers[b].phase.answer.Stops() <==> s.gathers[b].stopped
  {
    ReachableHolds(s);
    var g := s.gathers[b];
    var rs := Results(g);
    assert GatherOk(g);
    SettledAllFinished(g);
    var first := FirstStopping(rs);
    assert first < |rs| ==> g.tasks[first].result == rs[first];
    forall i | 0 <= i < |g.tasks| ensures g.tasks[i].starts <= 1 && g.tasks[i].runner.None? { assert TaskOk(g, i); }
    if SomeStopping(g.tasks) {
      var i :| 0 <= i < |g.tasks| && g.tasks[i].result.Some? && g.tasks[i].result.value.Stopping?;
      assert TaskOk(g, i);
      assert rs[i] == g.tasks[i].result;
      assert FirstStopping(rs) <= i;
    }
    assert FirstFailed(rs) < |rs| ==> rs[FirstFailed(rs)].value.Failed?;
  }

  // ----- who can still reach a batch

  ghost predicate Reaches(s: State, t: nat, b: nat)
    requires t < |s.threads|
  {
    || (s.threads[t].pc.Claimed? && s.threads[t].pc.b == b)
    || exists k :: 0 <= k < |s.threads[t].frames| && !s.threads[t].frames[k].Entry? && s.threads[t].frames[k].b == b
  }

  /** When `par` is about to free its batch, no queue node and no listed batch leads to
      it, and no thread but the caller - at the call itself - still holds it. Once it is
      freed, nothing does. */
  lemma FreedBatchUnreachable(s: State, b: nat)
    requires Reachable(s) && b < |s.gathers| && (s.gathers[b].phase.Answering? || s.gathers[b].phase.Returned?)
    ensures forall r :: r in s.queue ==> r.b != b
    ensures b !in s.linked
    ensures forall t :: 0 <= t < |s.threads| && Reaches(s, t, b) ==>
              s.gathers[b].phase.Answering? && t == s.gathers[b].owner && s.threads[t].pc == Par(b)
  {
    ReachableHolds(s);
    var g := s.gathers[b];
    assert GatherOk(g);
    SettledAllFinished(g);
    forall r | r in s.queue ensures r.b != b { QueuedIsWaiting(s, r.b, r.i); }
    forall t | 0 <= t < |s.threads| && Reaches(s, t, b)
      ensures g.phase.Answering? && t == g.owner && s.threads[t].pc == Par(b)
    {
      OnlyCallerReaches(s, b, t);
    }
  }

  lemma OnlyCallerReaches(s: State, b: nat, t: nat)
    requires Inv(s) && b < |s.gathers|
    requires s.gathers[b].phase.Answering? || s.gathers[b].phase.Returned?
    requires t < |s.threads| && Reaches(s, t, b)
    ensures s.gathers[b].phase.Answering? && t == s.gathers[b].owner && s.threads[t].pc == Par(b)
  {
    assert ThreadOk(s, t) && LiveOk(s, b) && GatherOk(s.gathers[b]);
    SettledAllFinished(s.gathers[b]);
    if k :| 0 <= k < |s.threads[t].frames| && !s.threads[t].frames[k].Entry? && s.threads[t].frames[k].b == b {
      assert FrameOk(s, t, k);
    }
  }

  // ----- the two locks

  /** Whoever holds the pool lock stands at a critical section and does not wait for
      the GIL; and no worker is ever inside a `par`, so none waits on a batch. */
  lemma LockDiscipline(s: State, t: nat)
    requires Reachable(s) && t < |s.threads|
    ensures s.lock == Some(t) ==> NeedsLock(s, t) && !WantsGil(s, t)
    ensures s.gil == Some(t) <==> HoldsGil(s, t)
    ensures Worker(s, t) ==> !s.threads[t].pc.Par? && forall k :: 0 <= k < |s.threads[t].frames| ==> !s.threads[t].frames[k].InPar?
  {
    ReachableHolds(s);
    assert ThreadOk(s, t);
    assert s.threads[t].frames != [] ==> FrameOk(s, t, |s.threads[t].frames| - 1);
    if Worker(s, t) {
      forall k | 0 <= k < |s.threads[t].frames| ensures !s.threads[t].frames[k].InPar? { assert FrameOk(s, t, k); }
    }
  }

  /** The count of idle workers is exact, and there are never more than 64 of them. */
  lemma IdleIsExact(s: State)
    requires Reachable(s)
    ensures s.idle == CountIdle(s.threads) && s.made <= 64
  {
    ReachableHolds(s);
  }
}
