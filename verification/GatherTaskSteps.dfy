/** The steps that move a task between the queue, its claimer and its end, and those
    that make or free a gather, keep the invariant. */
module GatherTaskSteps {
  import opened Basics
  import opened GatherModel
  import opened GatherLocal
  import opened GatherInvariant
  import opened GatherParSteps

  predicate GilStep(s: State, s': State, t: nat) {
    s'.gil == s.gil || (s.gil == Some(t) && s'.gil.None?) || (s.gil.None? && s'.gil == Some(t))
  }

  lemma Assemble(s: State, s': State, t: nat)
    requires Inv(s) && StepOf(s, s', t) && ThreadOk(s', t) && GilStep(s, s', t)
    requires HoldsGil(s', t) <==> s'.gil == Some(t)
    requires s'.lock.None? || (s'.lock == s.lock && s.lock != Some(t))
    requires Gathers(s') && Lives(s') && Claims(s') && Queued(s') && LinkedOk(s') && Epochs(s') && Pool(s')
    ensures Inv(s')
  {
    assert Threads(s') by { ThreadsStep(s, s', t); }
    assert Locks(s') by { LocksStep(s, s', t); }
  }

  /** The parts of the invariant that a change of tasks alone leaves as they were. */
  lemma TaskChangeParts(s: State, s': State, t: nat, b: nat, g': Gather)
    requires b < |s.gathers| && s'.gathers == s.gathers[b := g'] && s'.linked == s.linked
    requires LinkedOk(s) && Epochs(s) && s'.epoch >= s.epoch && Listed(g'.phase) == Listed(s.gathers[b].phase)
    requires g'.phase.DrainWait? ==> g'.phase == s.gathers[b].phase
    requires g'.outstanding == s.gathers[b].outstanding || s'.epoch > s.epoch
    ensures LinkedOk(s') && Epochs(s')
  {
    LinkedKept(s, s');
  }

  // ----- a worker pops the queue

  ghost predicate Popped(s: State, s': State, t: nat, b: nat, i: nat) {
    && t < |s.threads| && b < |s.gathers| && i < |s.gathers[b].tasks| && Waiting(s.gathers[b], i)
    && s.threads[t].frames == [] && !s.threads[t].pc.Claimed? && !s.threads[t].pc.Par? && Worker(s, t)
    && s'.threads == s.threads[t := s.threads[t].(pc := Claimed(b, i))]
    && s'.gathers == s.gathers[b := Claim(s.gathers[b], i, t)]
    && s'.firstWorker == s.firstWorker && s'.made == s.made
  }

  lemma PoppedStepOf(s: State, s': State, t: nat, b: nat, i: nat)
    requires Popped(s, s', t, b, i)
    ensures StepOf(s, s', t)
  {
    forall c | 0 <= c < |s.gathers| ensures Kept(s.gathers[c], s'.gathers[c], t) {}
  }

  lemma PoppedLives(s: State, s': State, t: nat, b: nat, i: nat)
    requires Popped(s, s', t, b, i) && StepOf(s, s', t) && Lives(s)
    ensures Lives(s')
  {
    forall c | 0 <= c < |s'.gathers| && s'.gathers[c].owner == t ensures LiveOk(s', c) { assert LiveOk(s, c); }
    LivesStep(s, s', t);
  }

  lemma PoppedClaims(s: State, s': State, t: nat, b: nat, i: nat)
    requires Popped(s, s', t, b, i) && StepOf(s, s', t) && Claims(s)
    ensures Claims(s')
  {
    forall c, j | 0 <= c < |s'.gathers| && 0 <= j < |s'.gathers[c].tasks| && s'.gathers[c].tasks[j].claimer == Some(t)
      ensures ClaimOk(s', c, j)
    {
      assert ClaimOk(s, c, j);
    }
    ClaimsStep(s, s', t);
  }

  lemma PoppedThread(s: State, s': State, t: nat, b: nat, i: nat)
    requires Popped(s, s', t, b, i) && GatherOk(s.gathers[b]) && ThreadOk(s, t)
    ensures ThreadOk(s', t)
  {
    assert TaskOk(s.gathers[b], i);
  }

  lemma PoppedShape(s: State, s': State, t: nat)
    requires Inv(s) && Enabled(s, Critical(t)) && (s.threads[t].pc.Seek? || s.threads[t].pc.IdleWoken?) && s.queue != []
    requires s' == Apply(s, Critical(t))
    ensures Popped(s, s', t, s.queue[0].b, s.queue[0].i) && s'.queue == Without(s.queue, s.queue[0])
    ensures !HoldsGil(s, t) && s.gil != Some(t) && TaskRef(s.queue[0].b, s.queue[0].i) == s.queue[0]
    ensures GatherOk(s.gathers[s.queue[0].b])
  {
    assert ThreadOk(s, t) && !HoldsGil(s, t);
    assert Waiting(s.gathers[s.queue[0].b], s.queue[0].i);
    WithoutAt(s.queue, 0);
  }

  lemma PoppedRest(s: State, s': State, t: nat, b: nat, i: nat)
    requires Popped(s, s', t, b, i) && GatherOk(s.gathers[b]) && Gathers(s) && Queued(s) && LinkedOk(s) && Epochs(s)
    requires TaskRef(b, i) in s.queue && s'.queue == Without(s.queue, TaskRef(b, i))
    requires s'.linked == s.linked && s'.epoch == s.epoch
    ensures Gathers(s') && Queued(s') && LinkedOk(s') && Epochs(s')
  {
    var g := s.gathers[b];
    ClaimStepOk(g, i, t);
    UnqueueOne(s, b, i, t, Claim(g, i, t), s');
    TaskChangeParts(s, s', t, b, Claim(g, i, t));
  }

  lemma SeekPopKeeps(s: State, t: nat)
    requires Inv(s) && Enabled(s, Critical(t)) && (s.threads[t].pc.Seek? || s.threads[t].pc.IdleWoken?) && s.queue != []
    ensures Inv(Apply(s, Critical(t)))
  {
    var s' := Apply(s, Critical(t));
    var b, i := s.queue[0].b, s.queue[0].i;
    PoppedShape(s, s', t);
    PoppedStepOf(s, s', t, b, i);
    PoppedThread(s, s', t, b, i);
    PoppedRest(s, s', t, b, i);
    PoppedLives(s, s', t, b, i);
    PoppedClaims(s, s', t, b, i);
    PoolStep(s, s', t);
    Assemble(s, s', t);
  }

  // ----- the top of a stack runs a task

  /** The holder of task `i` of gather `b` runs it on top of its stack. */
  lemma TopTask(s: State, t: nat)
    requires Inv(s) && InTaskFrame(s, t)
    ensures var f := Top(s.threads[t]);
            && HeldBy(s, t, f.b, f.i) && GatherOk(s.gathers[f.b]) && TaskOk(s.gathers[f.b], f.i)
            && !s.gathers[f.b].phase.Returned?
            && (Worker(s, t) ==> |s.threads[t].frames| == 1 && s.gathers[f.b].owner != t)
            && (!Worker(s, t) ==>
                  && s.gathers[f.b].owner == t && s.gathers[f.b].phase.CallerRun? && s.gathers[f.b].at == f.i
                  && s.gathers[f.b].home + 2 == |s.threads[t].frames|
                  && s.threads[t].frames[s.gathers[f.b].home] == InPar(f.b))
  {
    var fs := s.threads[t].frames;
    var f := Top(s.threads[t]);
    var k := |fs| - 1;
    assert ThreadOk(s, t) && FrameOk(s, t, k);
    SettledAllFinished(s.gathers[f.b]);
    assert LiveOk(s, f.b);
    assert ClaimOk(s, f.b, f.i);
    if !Worker(s, t) {
      assert FrameOk(s, t, k - 1);
    }
  }

  /** The frames under a top task refer to other gathers, whatever it does to its own. */
  lemma LowerFrames(s: State, s': State, t: nat, k: nat)
    requires Inv(s) && InTaskFrame(s, t) && k < |s.threads[t].frames| - 1
    requires |s'.threads| == |s.threads| && s'.firstWorker == s.firstWorker && s'.made == s.made
    requires k < |s'.threads[t].frames| && s'.threads[t].frames[..k + 1] == s.threads[t].frames[..k + 1]
    requires s'.threads[t].pc.Guest? || s'.threads[t].pc.Par?
    requires |s'.gathers| == |s.gathers|
    requires forall c :: 0 <= c < |s.gathers| && c != Top(s.threads[t]).b ==> s'.gathers[c] == s.gathers[c]
    requires var b := Top(s.threads[t]).b;
             s'.gathers[b].owner == s.gathers[b].owner && s'.gathers[b].home == s.gathers[b].home && !s'.gathers[b].phase.Returned?
    ensures FrameOk(s', t, k)
  {
    var fs, fs' := s.threads[t].frames, s'.threads[t].frames;
    assert fs'[k] == fs'[..k + 1][k] && fs[k] == fs[..k + 1][k];
    if k > 0 { assert fs'[k - 1] == fs'[..k + 1][k - 1] && fs[k - 1] == fs[..k + 1][k - 1]; }
    TopTask(s, t);
    assert ThreadOk(s, t) && FrameOk(s, t, k) && (k > 0 ==> FrameOk(s, t, k - 1));
  }

  // ----- a task starts

  ghost predicate Started(s: State, s': State, t: nat, b: nat, i: nat) {
    && InTaskFrame(s, t) && Top(s.threads[t]).b == b && Top(s.threads[t]).i == i
    && HeldBy(s, t, b, i) && s.gathers[b].tasks[i].starts == 0 && !s.gathers[b].stopped
    && (s.gathers[b].phase == Return(true) ==> i != s.gathers[b].at)
    && |s'.threads| == |s.threads|
    && s.threads[t].pc.TaskStart? && s'.threads[t].pc.Guest? && s'.threads[t].runs.Valid()
    && s'.threads == s.threads[t := s'.threads[t]]
    && s'.threads[t].frames == s.threads[t].frames
    && s'.gathers == s.gathers[b := Start(s.gathers[b], i, t)]
    && s'.firstWorker == s.firstWorker && s'.made == s.made && s'.idle == s.idle
    && s'.queue == s.queue && s'.linked == s.linked && s'.epoch == s.epoch
    && s'.gil == s.gil == Some(t) && s'.lock.None?
  }

  lemma StartShape(s: State, s': State, t: nat)
    requires Inv(s) && Enabled(s, Critical(t)) && s.threads[t].pc.TaskStart? && !s.gathers[Top(s.threads[t]).b].stopped
    requires s' == Apply(s, Critical(t))
    ensures Started(s, s', t, Top(s.threads[t]).b, Top(s.threads[t]).i)
  {
    assert ThreadOk(s, t) && FrameOk(s, t, |s.threads[t].frames| - 1);
    assert HoldsGil(s, t);
    TopTask(s, t);
  }

  lemma StartStepOf(s: State, s': State, t: nat, b: nat, i: nat)
    requires Started(s, s', t, b, i)
    ensures StepOf(s, s', t)
  {
    forall c | 0 <= c < |s.gathers| ensures Kept(s.gathers[c], s'.gathers[c], t) {}
  }

  lemma StartThread(s: State, s': State, t: nat, b: nat, i: nat)
    requires Inv(s) && Started(s, s', t, b, i)
    ensures ThreadOk(s', t)
  {
    TopTask(s, t);
    var k := |s.threads[t].frames| - 1;
    assert ThreadOk(s, t) && FrameOk(s, t, k);
    forall j | 0 <= j < |s.threads[t].frames| ensures FrameOk(s', t, j) {
      if j < k { LowerFrames(s, s', t, j); }
    }
  }

  lemma StartLives(s: State, s': State, t: nat, b: nat, i: nat)
    requires Inv(s) && Started(s, s', t, b, i) && StepOf(s, s', t)
    ensures Lives(s')
  {
    forall c | 0 <= c < |s'.gathers| && s'.gathers[c].owner == t ensures LiveOk(s', c) { assert LiveOk(s, c); }
    LivesStep(s, s', t);
  }

  lemma StartClaims(s: State, s': State, t: nat, b: nat, i: nat)
    requires Claims(s) && Started(s, s', t, b, i) && StepOf(s, s', t)
    ensures Claims(s')
  {
    forall c, j | 0 <= c < |s'.gathers| && 0 <= j < |s'.gathers[c].tasks| && s'.gathers[c].tasks[j].claimer == Some(t)
      ensures ClaimOk(s', c, j)
    {
      assert ClaimOk(s, c, j);
    }
    ClaimsStep(s, s', t);
  }

  lemma StartRest(s: State, s': State, t: nat, b: nat, i: nat)
    requires Started(s, s', t, b, i) && Gathers(s) && Queued(s) && LinkedOk(s) && Epochs(s)
    ensures Gathers(s') && Queued(s') && LinkedOk(s') && Epochs(s')
  {
    StartOk(s.gathers[b], i, t);
    QueuedKept(s, s');
    TaskChangeParts(s, s', t, b, Start(s.gathers[b], i, t));
  }

  lemma StartKeeps(s: State, t: nat)
    requires Inv(s) && Enabled(s, Critical(t)) && s.threads[t].pc.TaskStart? && !s.gathers[Top(s.threads[t]).b].stopped
    ensures Inv(Apply(s, Critical(t)))
  {
    var s' := Apply(s, Critical(t));
    var b, i := Top(s.threads[t]).b, Top(s.threads[t]).i;
    StartShape(s, s', t);
    StartStepOf(s, s', t, b, i);
    StartThread(s, s', t, b, i);
    StartRest(s, s', t, b, i);
    StartLives(s, s', t, b, i);
    StartClaims(s, s', t, b, i);
    PoolStep(s, s', t);
    Assemble(s, s', t);
  }

  // ----- a task ends

  /** What a thread about to record a task's end may record. */
  lemma EndMayFinish(s: State, t: nat)
    requires Inv(s) && InTaskFrame(s, t) && s.threads[t].pc.TaskEnd?
    ensures MayFinish(s.gathers[Top(s.threads[t]).b], Top(s.threads[t]).i, s.threads[t].pc.outcome)
  {
    TopTask(s, t);
    assert ThreadOk(s, t) && FrameOk(s, t, |s.threads[t].frames| - 1);
  }

  ghost predicate EndStep(s: State, s': State, t: nat) {
    && t < |s.threads| && s.threads[t].pc.TaskEnd? && Enabled(s, Critical(t)) && s' == Apply(s, Critical(t))
  }

  lemma EndStepOf(s: State, s': State, t: nat)
    requires Inv(s) && EndStep(s, s', t)
    ensures StepOf(s, s', t)
  {
    TopTask(s, t);
    forall c | 0 <= c < |s.gathers| ensures Kept(s.gathers[c], s'.gathers[c], t) {}
  }

  lemma EndThread(s: State, s': State, t: nat)
    requires Inv(s) && EndStep(s, s', t)
    ensures ThreadOk(s', t)
  {
    TopTask(s, t);
    assert ThreadOk(s, t);
    var fs := s.threads[t].frames;
    forall k | 0 <= k < |s'.threads[t].frames| ensures FrameOk(s', t, k) {
      assert s'.threads[t].frames[..k + 1] == fs[..k + 1];
      LowerFrames(s, s', t, k);
    }
  }

  lemma EndLives(s: State, s': State, t: nat)
    requires Inv(s) && EndStep(s, s', t) && StepOf(s, s', t)
    ensures Lives(s')
  {
    TopTask(s, t);
    forall c | 0 <= c < |s'.gathers| && s'.gathers[c].owner == t ensures LiveOk(s', c) {
      assert LiveOk(s, c);
      if c != Top(s.threads[t]).b && !s.gathers[c].phase.Returned? {
        assert s.threads[t].frames[s.gathers[c].home + 1] != Top(s.threads[t]);
        assert s.gathers[c].home + 1 < |s.threads[t].frames| - 1;
      }
    }
    LivesStep(s, s', t);
  }

  lemma EndClaims(s: State, s': State, t: nat)
    requires Inv(s) && EndStep(s, s', t) && StepOf(s, s', t)
    ensures Claims(s')
  {
    forall c, j | 0 <= c < |s'.gathers| && 0 <= j < |s'.gathers[c].tasks| && s'.gathers[c].tasks[j].claimer == Some(t)
      ensures ClaimOk(s', c, j)
    {
      EndClaim(s, s', t, c, j);
    }
    ClaimsStep(s, s', t);
  }

  /** A claim that is left to the thread is one of its other tasks. */
  lemma EndClaim(s: State, s': State, t: nat, c: nat, j: nat)
    requires Inv(s) && EndStep(s, s', t) && c < |s'.gathers| && j < |s'.gathers[c].tasks|
    requires s'.gathers[c].tasks[j].claimer == Some(t)
    ensures ClaimOk(s', c, j)
  {
    TopTask(s, t);
    assert ClaimOk(s, c, j);
  }

  lemma EndGathers(s: State, s': State, t: nat)
    requires Inv(s) && EndStep(s, s', t)
    ensures Gathers(s')
  {
    var f := Top(s.threads[t]);
    var g := s.gathers[f.b];
    TopTask(s, t);
    EndMayFinish(s, t);
    if Worker(s, t) {
      assert LiveOk(s, f.b);
      assert CallerClaims(g) ==> g.tasks[g.at].claimer == Some(g.owner);
      FinishOk(g, f.i, s.threads[t].pc.outcome);
    } else {
      CallerFinishOk(g, s.threads[t].pc.outcome);
    }
  }

  lemma EndRest(s: State, s': State, t: nat)
    requires Inv(s) && EndStep(s, s', t)
    ensures Queued(s') && LinkedOk(s') && Epochs(s')
  {
    TopTask(s, t);
    QueuedKept(s, s');
    var b := Top(s.threads[t]).b;
    TaskChangeParts(s, s', t, b, s'.gathers[b]);
  }

  lemma EndGil(s: State, s': State, t: nat)
    requires Inv(s) && EndStep(s, s', t)
    ensures GilStep(s, s', t) && s'.lock.None? && (HoldsGil(s', t) <==> s'.gil == Some(t))
    ensures |s'.threads| == |s.threads| && s'.threads == s.threads[t := s'.threads[t]] && s'.idle == s.idle
    ensures !Idling(s.threads[t]) && !Idling(s'.threads[t])
  {
    TopTask(s, t);
    assert HoldsGil(s, t);
  }

  lemma EndKeeps(s: State, t: nat)
    requires Inv(s) && Enabled(s, Critical(t)) && s.threads[t].pc.TaskEnd?
    ensures Inv(Apply(s, Critical(t)))
  {
    var s' := Apply(s, Critical(t));
    EndStepOf(s, s', t);
    EndThread(s, s', t);
    EndGathers(s, s', t);
    EndLives(s, s', t);
    EndClaims(s, s', t);
    EndRest(s, s', t);
    EndGil(s, s', t);
    PoolStep(s, s', t);
    Assemble(s, s', t);
  }
}
