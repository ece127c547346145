/** The steps that make, free or mark gathers, and the pool's start, keep the
    invariant; so every reachable state satisfies it. */
module GatherLifeSteps {
  import opened Basics
  import opened GatherAnswers
  import opened GatherModel
  import opened GatherLocal
  import opened GatherInvariant
  import opened GatherParSteps
  import opened GatherThreadSteps
  import opened GatherTaskSteps

  lemma AcquireKeeps(s: State, t: nat)
    requires Inv(s) && Enabled(s, Acquire(t))
    ensures Inv(Apply(s, Acquire(t)))
  {
    LockTakenKeeps(s, s.(lock := Some(t)), t);
  }

  lemma LockTakenKeeps(s: State, s': State, t: nat)
    requires Inv(s) && t < |s.threads| && s.lock.None? && NeedsLock(s, t) && s' == s.(lock := Some(t))
    ensures Inv(s')
  {
    assert StepOf(s, s', t) by {
      forall b | 0 <= b < |s.gathers| ensures Kept(s.gathers[b], s'.gathers[b], t) {}
    }
    assert Threads(s') by {
      forall u | 0 <= u < |s.threads| ensures ThreadOk(s', u) {
        assert ThreadOk(s, u);
        forall k | 0 <= k < |s.threads[u].frames| ensures FrameOk(s', u, k) { assert FrameOk(s, u, k); }
      }
    }
    assert Locks(s') by {
      assert HoldsGil(s', t) <==> HoldsGil(s, t);
      LocksStep(s, s', t);
    }
    assert Lives(s') by { forall b | 0 <= b < |s.gathers| ensures LiveOk(s', b) { assert LiveOk(s, b); } }
    assert Claims(s') by {
      forall b, i | 0 <= b < |s.gathers| && 0 <= i < |s.gathers[b].tasks| ensures ClaimOk(s', b, i) { assert ClaimOk(s, b, i); }
    }
  }

  /** A change of the scan budgets alone. */
  lemma BudgetsKeep(s: State, s': State)
    requires Inv(s) && s' == s.(budgets := s'.budgets)
    ensures Inv(s')
  {
    forall u | 0 <= u < |s.threads| ensures ThreadOk(s', u) {
      assert ThreadOk(s, u);
      forall k | 0 <= k < |s.threads[u].frames| ensures FrameOk(s', u, k) { assert FrameOk(s, u, k); }
    }
    forall u | 0 <= u < |s.threads| ensures HoldsGil(s', u) <==> s'.gil == Some(u) { assert HoldsGil(s', u) == HoldsGil(s, u); }
    assert s.lock.Some? ==> NeedsLock(s', s.lock.value) == NeedsLock(s, s.lock.value);
    forall b | 0 <= b < |s.gathers| ensures LiveOk(s', b) { assert LiveOk(s, b); }
    forall b, i | 0 <= b < |s.gathers| && 0 <= i < |s.gathers[b].tasks| ensures ClaimOk(s', b, i) { assert ClaimOk(s, b, i); }
  }

  // ----- the caller runs its own task

  ghost predicate CallerBegan(s: State, s': State, t: nat, b: nat) {
    && t < |s.threads| && b < |s.gathers| && s.threads[t].pc == Par(b)
    && var g := s.gathers[b];
    && g.phase == Return(true) && g.owner == t && GatherOk(g) && !Worker(s, t)
    && |s'.threads| == |s.threads| && s'.threads == s.threads[t := s'.threads[t]]
    && s'.threads[t].pc.TaskStart? && s'.threads[t].runs == s.threads[t].runs
    && s'.threads[t].frames != [] && Top(s'.threads[t]).InTask? && Top(s'.threads[t]).b == b && Top(s'.threads[t]).i == g.at
    && s'.threads[t].frames == s.threads[t].frames + [Top(s'.threads[t])]
    && s'.gathers == s.gathers[b := g.(phase := CallerRun)]
    && s'.firstWorker == s.firstWorker && s'.made == s.made && s'.idle == s.idle
    && s'.queue == s.queue && s'.linked == s.linked && s'.epoch == s.epoch
    && s.gil.None? && s'.gil == Some(t) && s'.lock == s.lock != Some(t)
  }

  lemma CallerShape(s: State, s': State, t: nat, b: nat)
    requires Inv(s) && Enabled(s, TakeGil(t)) && s.threads[t].pc == Par(b) && s.gathers[b].phase == Return(true)
    requires s' == Apply(s, TakeGil(t))
    ensures CallerBegan(s, s', t, b)
  {
    Stands(s, t);
  }

  lemma CallerStepOf(s: State, s': State, t: nat, b: nat)
    requires CallerBegan(s, s', t, b)
    ensures StepOf(s, s', t)
  {
    forall c | 0 <= c < |s.gathers| ensures Kept(s.gathers[c], s'.gathers[c], t) {}
  }

  lemma CallerThread(s: State, s': State, t: nat, b: nat)
    requires CallerBegan(s, s', t, b) && ThreadOk(s, t)
    ensures ThreadOk(s', t)
  {
    var fs := s.threads[t].frames;
    var g := s.gathers[b];
    assert TaskOk(g, g.at);
    assert FrameOk(s, t, |fs| - 1);
    forall k | 0 <= k < |s'.threads[t].frames| ensures FrameOk(s', t, k) {
      if k < |fs| {
        assert FrameOk(s, t, k);
        if k > 0 && fs[k].InTask? { assert FrameOk(s, t, k - 1); }
      }
    }
  }

  lemma CallerLives(s: State, s': State, t: nat, b: nat)
    requires Inv(s) && CallerBegan(s, s', t, b) && StepOf(s, s', t)
    ensures Lives(s')
  {
    forall c | 0 <= c < |s'.gathers| && s'.gathers[c].owner == t ensures LiveOk(s', c) {
      assert LiveOk(s, c) && LiveOk(s, b);
    }
    LivesStep(s, s', t);
  }

  lemma CallerClaimed(s: State, s': State, t: nat, b: nat)
    requires Inv(s) && CallerBegan(s, s', t, b) && StepOf(s, s', t)
    ensures Claims(s')
  {
    forall c, i | 0 <= c < |s'.gathers| && 0 <= i < |s'.gathers[c].tasks| && s'.gathers[c].tasks[i].claimer == Some(t)
      ensures ClaimOk(s', c, i)
    {
      assert ClaimOk(s, c, i);
    }
    ClaimsStep(s, s', t);
  }

  lemma CallerRest(s: State, s': State, t: nat, b: nat)
    requires CallerBegan(s, s', t, b) && Gathers(s) && Queued(s) && LinkedOk(s) && Epochs(s)
    ensures Gathers(s') && Queued(s') && LinkedOk(s') && Epochs(s')
  {
    var g := s.gathers[b];
    PhaseStepOk(g, CallerRun);
    QueuedKept(s, s');
    TaskChangeParts(s, s', t, b, g.(phase := CallerRun));
  }

  lemma CallerKeeps(s: State, t: nat)
    requires Inv(s) && Enabled(s, TakeGil(t)) && s.threads[t].pc.Par? && s.gathers[s.threads[t].pc.b].phase == Return(true)
    ensures Inv(Apply(s, TakeGil(t)))
  {
    var s' := Apply(s, TakeGil(t));
    var b := s.threads[t].pc.b;
    CallerShape(s, s', t, b);
    CallerStepOf(s, s', t, b);
    CallerThread(s, s', t, b);
    CallerRest(s, s', t, b);
    CallerLives(s, s', t, b);
    CallerClaimed(s, s', t, b);
    PoolStep(s, s', t);
    Assemble(s, s', t);
  }

  // ----- guest code calls `par`

  ghost predicate NewGather(g: Gather, t: nat, home: nat) {
    && g.owner == t && g.home == home && g.phase.Link? && GatherOk(g)
    && forall i :: 0 <= i < |g.tasks| ==> g.tasks[i] == NewTask
  }

  lemma {:induction false} CountNone(ts: seq<Task>, n: nat)
    requires n <= |ts| && forall i :: 0 <= i < n ==> !ts[i].finished
    ensures CountFinished(ts, n) == 0
  {
    if n > 0 { CountNone(ts, n - 1); }
  }

  lemma NewGatherOk(g: Gather, t: nat, home: nat, session: string, budget: Option<nat>, quota: nat, count: nat)
    requires count >= 2 && quota >= 1
    requires g == Gather(t, home, session, budget, quota, seq(count, _ => NewTask), Link, 0, 0, false, 0, 0, false, false)
    ensures NewGather(g, t, home)
  {
    CountNone(g.tasks, |g.tasks|);
    forall i | 0 <= i < |g.tasks| ensures TaskOk(g, i) {}
  }

  ghost predicate Called(s: State, s': State, t: nat) {
    && t < |s.threads| && s.threads[t].pc.Guest? && s.threads[t].frames != [] && !Worker(s, t)
    && |s'.threads| == |s.threads| && s'.threads == s.threads[t := s'.threads[t]]
    && s'.threads[t].frames == s.threads[t].frames + [InPar(|s.gathers|)]
    && s'.threads[t].pc == Par(|s.gathers|) && s'.threads[t].runs == s.threads[t].runs
    && |s'.gathers| == |s.gathers| + 1 && s'.gathers == s.gathers + [s'.gathers[|s.gathers|]]
    && NewGather(s'.gathers[|s.gathers|], t, |s.threads[t].frames|)
    && s'.firstWorker == s.firstWorker && s'.made == s.made && s'.idle == s.idle
    && s'.queue == s.queue && s'.linked == s.linked && s'.epoch == s.epoch
    && s'.gil == s.gil == Some(t) && s'.lock == s.lock != Some(t)
  }

  lemma CallShape(s: State, s': State, t: nat, count: nat, quota: int)
    requires Inv(s) && Enabled(s, CallPar(t, count, quota)) && s' == Apply(s, CallPar(t, count, quota))
    ensures Called(s, s', t)
  {
    assert HoldsGil(s, t) && !NeedsLock(s, t);
    var g := s'.gathers[|s.gathers|];
    NewGatherOk(g, t, |s.threads[t].frames|, g.session, g.budget, g.quota, count);
  }

  lemma CallStepOf(s: State, s': State, t: nat)
    requires Called(s, s', t)
    ensures StepOf(s, s', t)
  {
    forall c | 0 <= c < |s.gathers| ensures Kept(s.gathers[c], s'.gathers[c], t) { assert s'.gathers[c] == s.gathers[c]; }
  }

  lemma CallThread(s: State, s': State, t: nat)
    requires Called(s, s', t) && ThreadOk(s, t)
    ensures ThreadOk(s', t)
  {
    var fs := s.threads[t].frames;
    forall k | 0 <= k < |s'.threads[t].frames| ensures FrameOk(s', t, k) {
      if k < |fs| {
        assert FrameOk(s, t, k);
        assert s'.threads[t].frames[k] == fs[k];
      } else {
        assert PcOk(s, t);
      }
    }
  }

  lemma CallLives(s: State, s': State, t: nat)
    requires Called(s, s', t) && StepOf(s, s', t) && Lives(s)
    ensures Lives(s')
  {
    forall c | 0 <= c < |s'.gathers| && (c >= |s.gathers| || s'.gathers[c].owner == t) ensures LiveOk(s', c) {
      if c < |s.gathers| {
        assert s'.gathers[c] == s.gathers[c] && LiveOk(s, c);
      }
    }
    LivesStep(s, s', t);
  }

  lemma CallClaims(s: State, s': State, t: nat)
    requires Called(s, s', t) && StepOf(s, s', t) && Claims(s)
    ensures Claims(s')
  {
    forall c, i | 0 <= c < |s'.gathers| && 0 <= i < |s'.gathers[c].tasks| &&
                  (c >= |s.gathers| || s'.gathers[c].tasks[i].claimer == Some(t))
      ensures ClaimOk(s', c, i)
    {
      if c < |s.gathers| {
        assert s'.gathers[c] == s.gathers[c] && ClaimOk(s, c, i);
      }
    }
    ClaimsStep(s, s', t);
  }

  lemma CallRest(s: State, s': State, t: nat)
    requires Called(s, s', t) && Gathers(s) && Queued(s) && LinkedOk(s) && Epochs(s)
    ensures Gathers(s') && Queued(s') && LinkedOk(s') && Epochs(s')
  {
    forall c | 0 <= c < |s.gathers| ensures s'.gathers[c] == s.gathers[c] {}
  }

  lemma CallKeeps(s: State, t: nat, count: nat, quota: int)
    requires Inv(s) && Enabled(s, CallPar(t, count, quota))
    ensures Inv(Apply(s, CallPar(t, count, quota)))
  {
    var s' := Apply(s, CallPar(t, count, quota));
    CallShape(s, s', t, count, quota);
    CallStepOf(s, s', t);
    CallThread(s, s', t);
    CallRest(s, s', t);
    CallLives(s, s', t);
    CallClaims(s, s', t);
    PoolStep(s, s', t);
    Assemble(s, s', t);
  }

  // ----- `par` answers

  ghost predicate Answered(s: State, s': State, t: nat, b: nat) {
    && t < |s.threads| && b < |s.gathers| && s.threads[t].pc == Par(b) && !Worker(s, t)
    && var g := s.gathers[b];
    && g.phase.Answering? && g.owner == t && GatherOk(g) && OwnClaims(g, t)
    && s.threads[t].frames != [] && Top(s.threads[t]) == InPar(b) && g.home + 1 == |s.threads[t].frames|
    && |s'.threads| == |s.threads| && s'.threads == s.threads[t := s'.threads[t]]
    && s'.threads[t].frames == s.threads[t].frames[..g.home]
    && s'.threads[t].pc.Guest? && s'.threads[t].runs == s.threads[t].runs
    && s'.gathers == s.gathers[b := g.(phase := Returned(PoolAnswer(Results(g), g.phase.interrupted)))]
    && s'.firstWorker == s.firstWorker && s'.made == s.made && s'.idle == s.idle
    && s'.queue == s.queue && s'.linked == s.linked && s'.epoch == s.epoch
    && s'.gil == s.gil == Some(t) && s'.lock == s.lock != Some(t)
  }

  lemma AnswerShape(s: State, s': State, t: nat)
    requires Inv(s) && Enabled(s, AnswerPar(t)) && s' == Apply(s, AnswerPar(t))
    ensures Answered(s, s', t, s.threads[t].pc.b)
  {
    Stands(s, t);
    assert LiveOk(s, s.threads[t].pc.b);
    assert ThreadOk(s, t);
  }

  lemma AnswerStepOf(s: State, s': State, t: nat, b: nat)
    requires Answered(s, s', t, b)
    ensures StepOf(s, s', t)
  {
    forall c | 0 <= c < |s.gathers| ensures Kept(s.gathers[c], s'.gathers[c], t) {}
  }

  lemma AnswerThread(s: State, s': State, t: nat, b: nat)
    requires Answered(s, s', t, b) && ThreadOk(s, t)
    ensures ThreadOk(s', t)
  {
    var fs, fs' := s.threads[t].frames, s'.threads[t].frames;
    assert FrameOk(s, t, |fs| - 1);
    forall k | 0 <= k < |fs'| ensures FrameOk(s', t, k) {
      assert FrameOk(s, t, k);
      if k > 0 && fs[k].InTask? { assert FrameOk(s, t, k - 1); }
    }
  }

  lemma AnswerLives(s: State, s': State, t: nat, b: nat)
    requires Answered(s, s', t, b) && StepOf(s, s', t) && Lives(s) && ThreadOk(s, t)
    ensures Lives(s')
  {
    forall c | 0 <= c < |s'.gathers| && s'.gathers[c].owner == t ensures LiveOk(s', c) {
      assert LiveOk(s, c);
    }
    LivesStep(s, s', t);
  }

  lemma AnswerClaims(s: State, s': State, t: nat, b: nat)
    requires Answered(s, s', t, b) && StepOf(s, s', t) && Claims(s)
    ensures Claims(s')
  {
    forall c, i | 0 <= c < |s'.gathers| && 0 <= i < |s'.gathers[c].tasks| && s'.gathers[c].tasks[i].claimer == Some(t)
      ensures ClaimOk(s', c, i)
    {
      assert ClaimOk(s, c, i);
    }
    ClaimsStep(s, s', t);
  }

  lemma AnswerRest(s: State, s': State, t: nat, b: nat)
    requires Answered(s, s', t, b) && Gathers(s) && Queued(s) && LinkedOk(s) && Epochs(s)
    ensures Gathers(s') && Queued(s') && LinkedOk(s') && Epochs(s')
  {
    var g := s.gathers[b];
    var g' := s'.gathers[b];
    assert Results(g') == Results(g);
    PhaseStepOk(g, g'.phase);
    QueuedKept(s, s');
    TaskChangeParts(s, s', t, b, g');
  }

  lemma AnswerKeeps(s: State, t: nat)
    requires Inv(s) && Enabled(s, AnswerPar(t))
    ensures Inv(Apply(s, AnswerPar(t)))
  {
    var s' := Apply(s, AnswerPar(t));
    var b := s.threads[t].pc.b;
    AnswerShape(s, s', t);
    AnswerStepOf(s, s', t, b);
    AnswerThread(s, s', t, b);
    AnswerRest(s, s', t, b);
    AnswerLives(s, s', t, b);
    AnswerClaims(s, s', t, b);
    PoolStep(s, s', t);
    Assemble(s, s', t);
  }

  // ----- the host's interrupt marks the batches of its target

  ghost predicate Marked(s: State, s': State, t: nat, target: nat) {
    && t < |s.threads| && s.threads[t].pc == Mark(target)
    && |s'.threads| == |s.threads| && s'.threads == s.threads[t := s'.threads[t]]
    && s'.threads[t].pc.Raise? && s'.threads[t].pc.target == target && s'.threads[t].frames == s.threads[t].frames && s'.threads[t].runs == s.threads[t].runs
    && |s'.gathers| == |s.gathers|
    && (forall b :: 0 <= b < |s.gathers| ==>
          s'.gathers[b] == if b in s.linked && s.gathers[b].owner == target then MarkStopped(s.gathers[b]) else s.gathers[b])
    && s'.firstWorker == s.firstWorker && s'.made == s.made && s'.idle == s.idle
    && s'.queue == s.queue && s'.linked == s.linked && s'.epoch == s.epoch + 1
    && s'.gil == s.gil == Some(t) && s'.lock.None?
  }

  lemma MarkShape(s: State, s': State, t: nat)
    requires Inv(s) && Enabled(s, Critical(t)) && s.threads[t].pc.Mark? && s' == Apply(s, Critical(t))
    ensures Marked(s, s', t, s.threads[t].pc.target)
  {
    assert HoldsGil(s, t);
  }

  lemma MarkStepOf(s: State, s': State, t: nat, target: nat)
    requires Marked(s, s', t, target)
    ensures StepOf(s, s', t)
  {
    forall c | 0 <= c < |s.gathers| ensures Kept(s.gathers[c], s'.gathers[c], t) {}
  }

  lemma MarkThread(s: State, s': State, t: nat, target: nat)
    requires Marked(s, s', t, target) && StepOf(s, s', t) && ThreadOk(s, t)
    ensures ThreadOk(s', t)
  {
    forall k | 0 <= k < |s.threads[t].frames| ensures FrameOk(s', t, k) {
      assert FrameOk(s, t, k);
      var f := s.threads[t].frames[k];
      if !f.Entry? { assert Kept(s.gathers[f.b], s'.gathers[f.b], t); }
    }
  }

  lemma MarkLives(s: State, s': State, t: nat, target: nat)
    requires Marked(s, s', t, target) && StepOf(s, s', t) && Lives(s)
    ensures Lives(s')
  {
    forall c | 0 <= c < |s'.gathers| && s'.gathers[c].owner == t ensures LiveOk(s', c) { assert LiveOk(s, c); }
    LivesStep(s, s', t);
  }

  lemma MarkClaims(s: State, s': State, t: nat, target: nat)
    requires Marked(s, s', t, target) && StepOf(s, s', t) && Claims(s) && ThreadOk(s, t)
    ensures Claims(s')
  {
    forall c, i | 0 <= c < |s'.gathers| && 0 <= i < |s'.gathers[c].tasks| && s'.gathers[c].tasks[i].claimer == Some(t)
      ensures ClaimOk(s', c, i)
    {
      assert ClaimOk(s, c, i);
    }
    ClaimsStep(s, s', t);
  }

  lemma MarkRest(s: State, s': State, t: nat, target: nat)
    requires Marked(s, s', t, target) && Gathers(s) && Queued(s) && LinkedOk(s) && Epochs(s)
    ensures Gathers(s') && Queued(s') && LinkedOk(s') && Epochs(s')
  {
    forall b | 0 <= b < |s'.gathers| ensures GatherOk(s'.gathers[b]) {
      if b in s.linked && s.gathers[b].owner == target {
        var k :| 0 <= k < |s.linked| && s.linked[k] == b;
        assert Listed(s.gathers[s.linked[k]].phase);
        MarkOk(s.gathers[b]);
      }
    }
    QueuedKept(s, s');
    LinkedKept(s, s');
  }

  lemma MarkKeeps(s: State, t: nat)
    requires Inv(s) && Enabled(s, Critical(t)) && s.threads[t].pc.Mark?
    ensures Inv(Apply(s, Critical(t)))
  {
    MarkShape(s, Apply(s, Critical(t)), t);
    MarkedKeeps(s, Apply(s, Critical(t)), t, s.threads[t].pc.target);
  }

  lemma MarkedKeeps(s: State, s': State, t: nat, target: nat)
    requires Inv(s) && Marked(s, s', t, target)
    ensures Inv(s')
  {
    MarkStepOf(s, s', t, target);
    MarkThread(s, s', t, target);
    MarkRest(s, s', t, target);
    MarkLives(s, s', t, target);
    MarkClaims(s, s', t, target);
    PoolStep(s, s', t);
    Assemble(s, s', t);
  }

  // ----- the workers start

  lemma {:induction false} CountIdleAppend(ths: seq<Thread>, n: nat, th: Thread)
    requires !Idling(th)
    ensures CountIdle(ths + seq(n, _ => th)) == CountIdle(ths)
  {
    var all := ths + seq(n, _ => th);
    if n == 0 {
      assert all == ths;
    } else {
      assert all[..|all| - 1] == ths + seq(n - 1, _ => th);
      CountIdleAppend(ths, n - 1, th);
    }
  }

  lemma OldThreadStays(s: State, made: nat, u: nat)
    requires Inv(s) && s.made == 0 && s.firstWorker == |s.threads| && u < |s.threads|
    ensures var s' := PoolStarted(s, made);
            && s'.threads[u] == s.threads[u] && ThreadOk(s', u) && !Worker(s', u) && !Worker(s, u)
            && (HoldsGil(s', u) <==> HoldsGil(s, u)) && (NeedsLock(s', u) <==> NeedsLock(s, u))
  {
    var s' := PoolStarted(s, made);
    assert ThreadOk(s, u);
    forall k | 0 <= k < |s.threads[u].frames| ensures FrameOk(s', u, k) { assert FrameOk(s, u, k); }
  }

  lemma StartPoolThreads(s: State, made: nat)
    requires Inv(s) && s.made == 0 && s.firstWorker == |s.threads|
    ensures Threads(PoolStarted(s, made)) && Locks(PoolStarted(s, made))
  {
    var s' := PoolStarted(s, made);
    forall u | 0 <= u < |s'.threads| ensures ThreadOk(s', u) && (HoldsGil(s', u) <==> s'.gil == Some(u)) {
      if u < |s.threads| {
        OldThreadStays(s, made, u);
        assert HoldsGil(s, u) <==> s.gil == Some(u);
      } else {
        assert s'.threads[u] == Thread([], Seek, None, NewRuns());
      }
    }
    if s.lock.Some? { OldThreadStays(s, made, s.lock.value); }
  }

  lemma StartPoolRest(s: State, made: nat)
    requires Inv(s) && s.made == 0 && s.firstWorker == |s.threads| && made <= WORKERS_MAX
    ensures var s' := PoolStarted(s, made);
            Lives(s') && Claims(s') && Pool(s') && Gathers(s') && Queued(s') && LinkedOk(s') && Epochs(s')
  {
    var s' := PoolStarted(s, made);
    forall b | 0 <= b < |s'.gathers| ensures LiveOk(s', b) { assert LiveOk(s, b); }
    forall b, i | 0 <= b < |s'.gathers| && 0 <= i < |s'.gathers[b].tasks| ensures ClaimOk(s', b, i) { assert ClaimOk(s, b, i); }
    CountIdleAppend(s.threads, made, Thread([], Seek, None, NewRuns()));
  }

  lemma StartPoolKeeps(s: State, t: nat, made: nat)
    requires Inv(s) && Enabled(s, StartPool(t, made))
    ensures Inv(Apply(s, StartPool(t, made)))
  {
    StartPoolThreads(s, made);
    StartPoolRest(s, made);
  }

  // ----- every step, every run

  lemma SectionKeeps(s: State, t: nat)
    requires Inv(s) && Enabled(s, Critical(t))
    ensures Inv(Apply(s, Critical(t)))
  {
    var pc := s.threads[t].pc;
    if pc.Par? { ParSectionKeeps(s, t); }
    else if pc.TaskStart? {
      if s.gathers[Top(s.threads[t]).b].stopped { StartStoppedKeeps(s, t); } else { StartKeeps(s, t); }
    }
    else if pc.TaskEnd? { EndKeeps(s, t); }
    else if pc.Mark? { MarkKeeps(s, t); }
    else if s.queue == [] { SeekEmptyKeeps(s, t); }
    else { SeekPopKeeps(s, t); }
  }

  lemma TakeGilKeeps(s: State, t: nat)
    requires Inv(s) && Enabled(s, TakeGil(t))
    ensures Inv(Apply(s, TakeGil(t)))
  {
    var pc := s.threads[t].pc;
    if pc.Host? { HostResumes(s, t); }
    else if pc.WantMark? { MarkerTakesGil(s, t); }
    else if pc.Claimed? { ClaimedTakesGil(s, t); }
    else if s.gathers[pc.b].phase == Return(true) { CallerKeeps(s, t); }
    else { GilBackKeeps(s, t); }
  }

  /** Every step of every thread keeps the invariant. */
  lemma LockStepKeeps(s: State, a: Step)
    requires Inv(s) && Enabled(s, a) && (a.Acquire? || a.Critical? || a.TakeGil? || a.Wake? || a.DropGil?)
    ensures Inv(Apply(s, a))
  {
    match a
    case Acquire(t) => AcquireKeeps(s, t);
    case Critical(t) => SectionKeeps(s, t);
    case TakeGil(t) => TakeGilKeeps(s, t);
    case Wake(t, timedOut) =>
      if s.threads[t].pc.Idle? { IdleWakeKeeps(s, t, timedOut); } else { ParWakeKeeps(s, t, timedOut); }
    case DropGil(t) => DropGilKeeps(s, t);
  }

  lemma CodeStepKeeps(s: State, a: Step)
    requires Inv(s) && Enabled(s, a) && !(a.Acquire? || a.Critical? || a.TakeGil? || a.Wake? || a.DropGil?)
    ensures Inv(Apply(s, a))
  {
    match a
    case Enter(t, session, block) => EnterKeeps(s, t, session, block);
    case Leave(t) => LeaveKeeps(s, t);
    case FinishThunk(t, outcome) => FinishThunkKeeps(s, t, outcome);
    case CallPar(t, count, quota) => CallKeeps(s, t, count, quota);
    case AnswerPar(t) => AnswerKeeps(s, t);
    case StartPool(t, made) => StartPoolKeeps(s, t, made);
    case Scan(t, exempt) => BudgetsKeep(s, Apply(s, a));
    case Interrupt(t, target) => InterruptKeeps(s, t, target);
    case FinishInterrupt(t) => FinishInterruptKeeps(s, t);
  }

  lemma StepKeeps(s: State, a: Step)
    requires Inv(s) && Enabled(s, a)
    ensures Inv(Apply(s, a))
  {
    if a.Acquire? || a.Critical? || a.TakeGil? || a.Wake? || a.DropGil? {
      LockStepKeeps(s, a);
    } else {
      CodeStepKeeps(s, a);
    }
  }

  lemma {:induction false} NoIdle(ths: seq<Thread>)
    requires forall t :: 0 <= t < |ths| ==> !Idling(ths[t])
    ensures CountIdle(ths) == 0
  {
    if ths != [] { NoIdle(ths[..|ths| - 1]); }
  }

  lemma InitialHolds(s: State)
    requires Initial(s)
    ensures Inv(s)
  {
    NoIdle(s.threads);
    forall t | 0 <= t < |s.threads| ensures ThreadOk(s, t) && !HoldsGil(s, t) {}
  }

  lemma {:induction false} RunKeeps(s: State, steps: seq<Step>)
    requires Inv(s) && CanRun(s, steps)
    ensures Inv(Run(s, steps))
    decreases |steps|
  {
    if steps != [] {
      StepKeeps(s, steps[0]);
      RunKeeps(Apply(s, steps[0]), steps[1..]);
    }
  }

  /** The invariant holds in every state any interleaving can reach. */
  lemma ReachableHolds(s: State)
    requires Reachable(s)
    ensures Inv(s)
  {
    var init, steps :| Initial(init) && CanRun(init, steps) && Run(init, steps) == s;
    InitialHolds(init);
    RunKeeps(init, steps);
  }
}
