/** The critical sections of `par` itself keep the invariant. */
module GatherParSteps {
  import opened Basics
  import opened GatherModel
  import opened GatherLocal
  import opened GatherInvariant

  lemma QueuedKept(s: State, s': State)
    requires Queued(s) && s'.queue == s.queue && |s'.gathers| == |s.gathers|
    requires forall b :: 0 <= b < |s.gathers| ==>
               && |s'.gathers[b].tasks| == |s.gathers[b].tasks|
               && forall i: nat :: Waiting(s'.gathers[b], i) <==> Waiting(s.gathers[b], i)
    ensures Queued(s')
  {
  }

  lemma LinkedKept(s: State, s': State)
    requires LinkedOk(s) && s'.linked == s.linked && |s'.gathers| == |s.gathers|
    requires forall b :: 0 <= b < |s.gathers| ==> (Listed(s'.gathers[b].phase) <==> Listed(s.gathers[b].phase))
    ensures LinkedOk(s')
  {
  }

  /** The owner holds no task but the one it takes or runs itself. */
  predicate OwnClaims(g: Gather, t: nat) {
    forall i :: 0 <= i < |g.tasks| && g.tasks[i].claimer == Some(t) && !g.tasks[i].finished ==> i == g.at && CallerClaims(g)
  }

  /** A step of an owner inside its `par`: no thread's stack moves. */
  ghost predicate OwnerMoves(s: State, s': State, t: nat, b: nat, g': Gather) {
    && t < |s.threads| && b < |s.gathers| && s.threads[t].pc == Par(b)
    && s'.threads == s.threads && s'.firstWorker == s.firstWorker && s'.made == s.made && s'.idle == s.idle
    && s'.gathers == s.gathers[b := g']
    && Kept(s.gathers[b], g', t)
    && !g'.phase.CallerRun? && !g'.phase.Returned?
  }

  lemma OwnerThread(s: State, s': State, t: nat, b: nat, g': Gather)
    requires OwnerMoves(s, s', t, b, g') && ThreadOk(s, t)
    ensures ThreadOk(s', t)
  {
    var th := s.threads[t];
    assert FrameOk(s, t, |th.frames| - 1);
    forall k | 0 <= k < |th.frames| ensures FrameOk(s', t, k) {
      assert FrameOk(s, t, k);
      if k > 0 && th.frames[k].InTask? {
        assert FrameOk(s, t, k - 1);
      }
    }
  }

  lemma OwnerLives(s: State, s': State, t: nat, b: nat, g': Gather)
    requires OwnerMoves(s, s', t, b, g') && StepOf(s, s', t) && Lives(s)
    requires !s.gathers[b].phase.CallerRun? && !s.gathers[b].phase.Returned?
    ensures Lives(s')
  {
    forall c | 0 <= c < |s'.gathers| && s'.gathers[c].owner == t ensures LiveOk(s', c) { assert LiveOk(s, c); }
    LivesStep(s, s', t);
  }

  lemma OwnerClaims(s: State, s': State, t: nat, b: nat, g': Gather)
    requires OwnerMoves(s, s', t, b, g') && StepOf(s, s', t) && Claims(s) && OwnClaims(g', t)
    requires s.gathers[b].owner == t && !Worker(s, t)
    ensures Claims(s')
  {
    forall c, i | 0 <= c < |s'.gathers| && 0 <= i < |s'.gathers[c].tasks| && s'.gathers[c].tasks[i].claimer == Some(t)
      ensures ClaimOk(s', c, i)
    {
      if c != b { assert ClaimOk(s, c, i); }
    }
    ClaimsStep(s, s', t);
  }

  /** What the owner of gather `b` may build on while `par` is what it does. */
  ghost predicate Standing(s: State, t: nat, b: nat, g: Gather) {
    && t < |s.threads| && s.threads[t].pc == Par(b) && b < |s.gathers| && g == s.gathers[b]
    && GatherOk(g) && g.owner == t && OwnClaims(g, t) && !g.phase.CallerRun? && !g.phase.Returned?
    && (PhaseHoldsGil(g.phase) <==> s.gil == Some(t))
    && (s.lock == Some(t) ==> PhaseNeedsLock(g.phase))
    && Queued(s) && LinkedOk(s) && Epochs(s)
  }

  lemma Stands(s: State, t: nat)
    requires Inv(s) && t < |s.threads| && s.threads[t].pc.Par?
    ensures var b := s.threads[t].pc.b;
            b < |s.gathers| && Standing(s, t, b, s.gathers[b]) && !Worker(s, t)
  {
    var b := s.threads[t].pc.b;
    assert ThreadOk(s, t);
    assert FrameOk(s, t, |s.threads[t].frames| - 1);
    assert LiveOk(s, b);
    forall i | 0 <= i < |s.gathers[b].tasks| && s.gathers[b].tasks[i].claimer == Some(t) && !s.gathers[b].tasks[i].finished
      ensures i == s.gathers[b].at && CallerClaims(s.gathers[b])
    {
      assert ClaimOk(s, b, i);
    }
    assert HoldsGil(s, t) <==> s.gil == Some(t);
  }

  /** A step of the owner after which the invariant is whole again. */
  ghost predicate Moved(s: State, s': State, t: nat, b: nat, g': Gather) {
    && OwnerMoves(s, s', t, b, g') && GatherOk(g') && OwnClaims(g', t)
    && (PhaseHoldsGil(g'.phase) <==> s'.gil == Some(t))
    && (s'.gil == s.gil || (s.gil == Some(t) && s'.gil.None?) || (s.gil.None? && s'.gil == Some(t)))
    && (s'.lock.None? || (s'.lock == s.lock && s.lock != Some(t)))
    && Queued(s') && LinkedOk(s') && Epochs(s')
  }

  lemma OwnerStep(s: State, s': State, t: nat, b: nat, g': Gather)
    requires Inv(s) && Moved(s, s', t, b, g')
    ensures Inv(s')
  {
    Stands(s, t);
    assert StepOf(s, s', t) by {
      forall c | 0 <= c < |s.gathers| ensures Kept(s.gathers[c], s'.gathers[c], t) {}
    }
    assert Threads(s') by { OwnerThread(s, s', t, b, g'); ThreadsStep(s, s', t); }
    assert Locks(s') by { LocksStep(s, s', t); }
    assert Lives(s') by { OwnerLives(s, s', t, b, g'); }
    assert Claims(s') by { OwnerClaims(s, s', t, b, g'); }
  }

  lemma EpochsKept(s: State, s': State, b: nat, g': Gather)
    requires Epochs(s) && b < |s.gathers| && s'.gathers == s.gathers[b := g'] && s'.epoch == s.epoch
    requires g'.phase.DrainWait? ==> g'.phase.since == s.epoch && g'.outstanding > 0
    ensures Epochs(s')
  {
  }

  /** A move of the owner's phase alone, with the lists as they were. */
  lemma PhaseMoved(s: State, s': State, t: nat, b: nat, g: Gather, g': Gather)
    requires Standing(s, t, b, g) && OwnerMoves(s, s', t, b, g') && GatherOk(g')
    requires g'.tasks == g.tasks && g'.submitted == g.submitted
    requires Listed(g.phase) && Listed(g'.phase) && CallerClaims(g') == CallerClaims(g) && (CallerClaims(g) ==> g'.at == g.at)
    requires g'.phase.DrainWait? ==> g'.phase.since == s.epoch && g'.outstanding > 0
    requires s'.queue == s.queue && s'.linked == s.linked && s'.epoch == s.epoch
    requires PhaseHoldsGil(g'.phase) <==> s'.gil == Some(t)
    requires s'.gil == s.gil || (s.gil == Some(t) && s'.gil.None?) || (s.gil.None? && s'.gil == Some(t))
    requires s'.lock.None? || (s'.lock == s.lock && s.lock != Some(t))
    ensures Moved(s, s', t, b, g')
  {
    QueuedKept(s, s');
    LinkedKept(s, s');
    EpochsKept(s, s', b, g');
  }

  // ----- one lemma for each critical section

  lemma LinkMoves(s: State, t: nat, b: nat, g: Gather)
    requires Standing(s, t, b, g) && Enabled(s, Critical(t)) && g.phase.Link?
    ensures Moved(s, Apply(s, Critical(t)), t, b, g.(phase := Submit))
  {
    var s' := Apply(s, Critical(t));
    PhaseStepOk(g, Submit);
    QueuedKept(s, s');
    EpochsKept(s, s', b, g.(phase := Submit));
    assert b !in s.linked;
    forall c | 0 <= c < |s'.gathers| && Listed(s'.gathers[c].phase) ensures c in s'.linked {
      if c != b { assert c in s.linked; }
    }
  }

  lemma SubmitStoppedMoves(s: State, t: nat, b: nat, g: Gather)
    requires Standing(s, t, b, g) && Enabled(s, Critical(t)) && g.phase.Submit? && g.stopped
    ensures Moved(s, Apply(s, Critical(t)), t, b, g.(phase := Settle))
  {
    PhaseStepOk(g, Settle);
    PhaseMoved(s, Apply(s, Critical(t)), t, b, g, g.(phase := Settle));
  }

  lemma SubmitQueue(s: State, b: nat, s': State)
    requires Queued(s) && b < |s.gathers| && GatherOk(s.gathers[b])
    requires var g := s.gathers[b];
             && s'.gathers == s.gathers[b := SubmitMore(g)] && SubmitTo(g) <= |g.tasks|
             && s'.queue == s.queue + Refs(b, g.submitted, SubmitTo(g))
    ensures Queued(s')
  {
    var g := s.gathers[b];
    var g' := SubmitMore(g);
    var added := Refs(b, g.submitted, SubmitTo(g));
    forall i | g.submitted <= i < |g.tasks| ensures g.tasks[i] == NewTask { assert TaskOk(g, i); }
    forall k | 0 <= k < |s.queue| ensures s.queue[k] !in added {
      assert Waiting(s.gathers[s.queue[k].b], s.queue[k].i);
    }
    forall k | 0 <= k < |s'.queue|
      ensures s'.queue[k].b < |s'.gathers| && Waiting(s'.gathers[s'.queue[k].b], s'.queue[k].i)
    {
      if k < |s.queue| {
        assert s'.queue[k] == s.queue[k];
        assert Waiting(s.gathers[s.queue[k].b], s.queue[k].i);
      }
    }
    forall c, i | 0 <= c < |s'.gathers| && 0 <= i < |s'.gathers[c].tasks| && Waiting(s'.gathers[c], i)
      ensures TaskRef(c, i) in s'.queue
    {
      if c == b && i >= g.submitted {
        assert added[i - g.submitted] == TaskRef(c, i);
        assert s'.queue[|s.queue| + i - g.submitted] == TaskRef(c, i);
      } else {
        assert Waiting(s.gathers[c], i);
        assert TaskRef(c, i) in s.queue;
      }
    }
  }

  lemma SubmitMoves(s: State, t: nat, b: nat, g: Gather)
    requires Standing(s, t, b, g) && Enabled(s, Critical(t)) && g.phase.Submit? && !g.stopped
    ensures Moved(s, Apply(s, Critical(t)), t, b, SubmitMore(g))
  {
    var s' := Apply(s, Critical(t));
    SubmitOk(g);
    SubmitQueue(s, b, s');
    LinkedKept(s, s');
    EpochsKept(s, s', b, SubmitMore(g));
  }

  /** Taking one task off the queue, for whoever claims it. */
  lemma UnqueueOne(s: State, b: nat, i: nat, t: nat, g': Gather, s': State)
    requires Queued(s) && b < |s.gathers| && i < |s.gathers[b].tasks| && TaskRef(b, i) in s.queue
    requires g'.tasks == Claim(s.gathers[b], i, t).tasks && g'.submitted == s.gathers[b].submitted
    requires s'.gathers == s.gathers[b := g'] && s'.queue == Without(s.queue, TaskRef(b, i))
    ensures Queued(s')
  {
    WithoutKeepsNoDup(s.queue, TaskRef(b, i));
    forall k | 0 <= k < |s'.queue|
      ensures s'.queue[k].b < |s'.gathers| && Waiting(s'.gathers[s'.queue[k].b], s'.queue[k].i)
    {
      assert s'.queue[k] in s'.queue;
      assert s'.queue[k] in s.queue && s'.queue[k] != TaskRef(b, i);
      var j :| 0 <= j < |s.queue| && s.queue[j] == s'.queue[k];
      assert Waiting(s.gathers[s.queue[j].b], s.queue[j].i);
    }
    forall c, j | 0 <= c < |s'.gathers| && 0 <= j < |s'.gathers[c].tasks| && Waiting(s'.gathers[c], j)
      ensures TaskRef(c, j) in s'.queue
    {
      assert Waiting(s.gathers[c], j);
      assert TaskRef(c, j) in s.queue;
    }
  }

  predicate TakesBack(s: State, b: nat, g: Gather) {
    && TaskRef(b, g.at) in s.queue
    && if g.phase.Check? then g.saturated && s.idle == 0 else g.phase.Woken? && g.phase.timedOut
  }

  lemma QueuedIsWaiting(s: State, b: nat, i: nat)
    requires Queued(s) && TaskRef(b, i) in s.queue
    ensures b < |s.gathers| && Waiting(s.gathers[b], i)
  {
    var k :| 0 <= k < |s.queue| && s.queue[k] == TaskRef(b, i);
    assert Waiting(s.gathers[s.queue[k].b], s.queue[k].i);
  }

  lemma TakenBackMoves(s: State, t: nat, b: nat, g: Gather)
    requires Standing(s, t, b, g) && Enabled(s, Critical(t)) && TakesBack(s, b, g)
    ensures exists g' :: Moved(s, Apply(s, Critical(t)), t, b, g')
  {
    TakenBackState(s, Apply(s, Critical(t)), t, b, g);
  }

  lemma TakenBackState(s: State, s': State, t: nat, b: nat, g: Gather)
    requires Standing(s, t, b, g) && TakesBack(s, b, g) && s.lock == Some(t) && s' == TakenBack(s, t, b).(lock := None)
    ensures Moved(s, s', t, b, Claim(g, g.at, t).(phase := Return(true), saturated := true))
  {
    var g' := Claim(g, g.at, t).(phase := Return(true), saturated := true);
    QueuedIsWaiting(s, b, g.at);
    assert GatherOk(g') by { TakenBackOk(g); }
    assert Queued(s') by { UnqueueOne(s, b, g.at, t, g', s'); }
    assert LinkedOk(s') by { LinkedKept(s, s'); }
    assert Epochs(s') by { EpochsKept(s, s', b, g'); }
    assert OwnerMoves(s, s', t, b, g');
  }

  lemma LookedMoves(s: State, t: nat, b: nat, g: Gather)
    requires Standing(s, t, b, g) && Enabled(s, Critical(t)) && (g.phase.Check? || g.phase.Woken?) && !TakesBack(s, b, g)
    ensures exists g' :: Moved(s, Apply(s, Critical(t)), t, b, g')
  {
    var s' := Apply(s, Critical(t));
    var g' := g.(phase := if g.tasks[g.at].finished || g.stopped then Return(false) else Wait);
    assert s' == Looked(s, b).(lock := None);
    PhaseStepOk(g, g'.phase);
    PhaseMoved(s, s', t, b, g, g');
  }

  lemma SettleMoves(s: State, t: nat, b: nat, g: Gather)
    requires Standing(s, t, b, g) && Enabled(s, Critical(t)) && g.phase.Settle?
    ensures exists g' :: Moved(s, Apply(s, Critical(t)), t, b, g')
  {
    var g' := g.(phase := if g.outstanding == 0 then Unlink else Drain);
    PhaseStepOk(g, g'.phase);
    PhaseMoved(s, Apply(s, Critical(t)), t, b, g, g');
  }

  lemma {:induction false} WithoutGatherNoDup(q: seq<TaskRef>, b: nat)
    requires NoDup(q)
    ensures NoDup(WithoutGather(q, b))
  {
    if q != [] {
      WithoutGatherNoDup(q[1..], b);
      assert q[0] !in q[1..];
    }
  }

  lemma DrainQueue(s: State, b: nat, g': Gather, s': State)
    requires Queued(s) && b < |s.gathers|
    requires |g'.tasks| == |s.gathers[b].tasks| && forall i: nat :: !Waiting(g', i)
    requires s'.gathers == s.gathers[b := g'] && s'.queue == WithoutGather(s.queue, b)
    ensures Queued(s')
  {
    WithoutGatherNoDup(s.queue, b);
    forall k | 0 <= k < |s'.queue|
      ensures s'.queue[k].b < |s'.gathers| && Waiting(s'.gathers[s'.queue[k].b], s'.queue[k].i)
    {
      assert s'.queue[k] in s'.queue;
      assert s'.queue[k] in s.queue && s'.queue[k].b != b;
      var j :| 0 <= j < |s.queue| && s.queue[j] == s'.queue[k];
      assert Waiting(s.gathers[s.queue[j].b], s.queue[j].i);
    }
    forall c, j | 0 <= c < |s'.gathers| && 0 <= j < |s'.gathers[c].tasks| && Waiting(s'.gathers[c], j)
      ensures TaskRef(c, j) in s'.queue
    {
      assert c != b;
      assert Waiting(s.gathers[c], j);
      assert TaskRef(c, j) in s.queue;
    }
  }

  lemma DrainStoppedMoves(s: State, t: nat, b: nat, g: Gather)
    requires Standing(s, t, b, g) && Enabled(s, Critical(t)) && g.phase.Drain? && g.stopped
    ensures Moved(s, Apply(s, Critical(t)), t, b, DrainPhase(TakeBack(g), s.epoch))
  {
    var s' := Apply(s, Critical(t));
    var g' := DrainPhase(TakeBack(g), s.epoch);
    TakeBackOk(g, s.epoch);
    forall i: nat ensures !Waiting(g', i) { assert !Waiting(TakeBack(g), i); }
    assert Queued(s') by { DrainQueue(s, b, g', s'); }
    LinkedKept(s, s');
    EpochsKept(s, s', b, g');
  }

  lemma DrainLooksMoves(s: State, t: nat, b: nat, g: Gather)
    requires Standing(s, t, b, g) && Enabled(s, Critical(t)) && ((g.phase.Drain? && !g.stopped) || g.phase.DrainWoken?)
    ensures Moved(s, Apply(s, Critical(t)), t, b, DrainPhase(g, s.epoch))
  {
    DrainOk(g, s.epoch);
    PhaseMoved(s, Apply(s, Critical(t)), t, b, g, DrainPhase(g, s.epoch));
  }

  lemma UnlinkList(s: State, b: nat, g': Gather, s': State)
    requires LinkedOk(s) && b < |s.gathers| && !Listed(g'.phase)
    requires s'.gathers == s.gathers[b := g'] && s'.linked == Without(s.linked, b)
    ensures LinkedOk(s')
  {
    WithoutKeepsNoDup(s.linked, b);
    forall k | 0 <= k < |s'.linked| ensures s'.linked[k] < |s'.gathers| && Listed(s'.gathers[s'.linked[k]].phase) {
      assert s'.linked[k] in s'.linked;
      assert s'.linked[k] in s.linked && s'.linked[k] != b;
      var j :| 0 <= j < |s.linked| && s.linked[j] == s'.linked[k];
    }
    forall c | 0 <= c < |s'.gathers| && Listed(s'.gathers[c].phase) ensures c in s'.linked {
      assert c != b && c in s.linked;
    }
  }

  lemma UnlinkMoves(s: State, t: nat, b: nat, g: Gather)
    requires Standing(s, t, b, g) && Enabled(s, Critical(t)) && g.phase.Unlink?
    ensures Moved(s, Apply(s, Critical(t)), t, b, g.(phase := Answering(g.interrupted)))
  {
    var s' := Apply(s, Critical(t));
    var g' := g.(phase := Answering(g.interrupted));
    PhaseStepOk(g, g'.phase);
    QueuedKept(s, s');
    assert LinkedOk(s') by { UnlinkList(s, b, g', s'); }
    EpochsKept(s, s', b, g');
  }

  lemma SectionMoves(s: State, t: nat, b: nat, g: Gather)
    requires Standing(s, t, b, g) && Enabled(s, Critical(t))
    ensures exists g' :: Moved(s, Apply(s, Critical(t)), t, b, g')
  {
    if g.phase.Link? { LinkMoves(s, t, b, g); }
    else if g.phase.Submit? { if g.stopped { SubmitStoppedMoves(s, t, b, g); } else { SubmitMoves(s, t, b, g); } }
    else if g.phase.Check? || g.phase.Woken? {
      if TakesBack(s, b, g) { TakenBackMoves(s, t, b, g); } else { LookedMoves(s, t, b, g); }
    }
    else if g.phase.Settle? { SettleMoves(s, t, b, g); }
    else if g.phase.Unlink? { UnlinkMoves(s, t, b, g); }
    else if g.phase.Drain? && g.stopped { DrainStoppedMoves(s, t, b, g); }
    else { DrainLooksMoves(s, t, b, g); }
  }

  /** Every critical section of `par` keeps the invariant. */
  lemma ParSectionKeeps(s: State, t: nat)
    requires Inv(s) && Enabled(s, Critical(t)) && s.threads[t].pc.Par?
    ensures Inv(Apply(s, Critical(t)))
  {
    Stands(s, t);
    var b := s.threads[t].pc.b;
    SectionMoves(s, t, b, s.gathers[b]);
    var g' :| Moved(s, Apply(s, Critical(t)), t, b, g');
    OwnerStep(s, Apply(s, Critical(t)), t, b, g');
  }

  /** Getting the GIL back after a wait, when no task was claimed. */
  lemma GilBackMoves(s: State, t: nat, b: nat, g: Gather)
    requires Standing(s, t, b, g) && Enabled(s, TakeGil(t)) && g.phase != Return(true)
    ensures exists g' :: Moved(s, Apply(s, TakeGil(t)), t, b, g')
  {
    var g' := if g.phase.Drained? then g.(phase := Unlink) else NextTurn(g);
    if g.phase.Drained? { PhaseStepOk(g, Unlink); } else { NextTurnOk(g); }
    PhaseMoved(s, Apply(s, TakeGil(t)), t, b, g, g');
  }

  lemma GilBackKeeps(s: State, t: nat)
    requires Inv(s) && Enabled(s, TakeGil(t)) && AtPar(s, t) && s.gathers[s.threads[t].pc.b].phase != Return(true)
    ensures Inv(Apply(s, TakeGil(t)))
  {
    Stands(s, t);
    var b := s.threads[t].pc.b;
    GilBackMoves(s, t, b, s.gathers[b]);
    var g' :| Moved(s, Apply(s, TakeGil(t)), t, b, g');
    OwnerStep(s, Apply(s, TakeGil(t)), t, b, g');
  }

  lemma WakeMoves(s: State, t: nat, b: nat, g: Gather, timedOut: bool)
    requires Standing(s, t, b, g) && Enabled(s, Wake(t, timedOut))
    ensures exists g' :: Moved(s, Apply(s, Wake(t, timedOut)), t, b, g')
  {
    var g' := g.(phase := if g.phase.Wait? then Woken(timedOut) else DrainWoken);
    forall i: nat | !Waiting(g, i) ensures !Waiting(g', i) {}
    PhaseStepOk(g, g'.phase);
    PhaseMoved(s, Apply(s, Wake(t, timedOut)), t, b, g, g');
  }

  lemma ParWakeKeeps(s: State, t: nat, timedOut: bool)
    requires Inv(s) && Enabled(s, Wake(t, timedOut)) && s.threads[t].pc.Par?
    ensures Inv(Apply(s, Wake(t, timedOut)))
  {
    Stands(s, t);
    var b := s.threads[t].pc.b;
    WakeMoves(s, t, b, s.gathers[b], timedOut);
    var g' :| Moved(s, Apply(s, Wake(t, timedOut)), t, b, g');
    OwnerStep(s, Apply(s, Wake(t, timedOut)), t, b, g');
  }
}
