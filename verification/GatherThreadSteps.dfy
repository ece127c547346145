/** The steps that move one thread's stack or program counter keep the invariant. */
module GatherThreadSteps {
  import opened Basics
  import opened GatherAnswers
  import opened GatherModel
  import opened GatherInvariant

  // ----- steps that touch one thread and no gather

  /** Only thread `t` changes, and no frame of a gather or a task on its stack does. */
  ghost predicate OnlyThread(s: State, s': State, t: nat, th': Thread) {
    && t < |s.threads| && s'.threads == s.threads[t := th'] && s'.gathers == s.gathers
    && s'.firstWorker == s.firstWorker && s'.made == s.made
    && s'.queue == s.queue && s'.linked == s.linked && s'.epoch == s.epoch
    && !s.threads[t].pc.Par? && !th'.pc.Par?
    && (forall k :: 0 <= k < |s.threads[t].frames| && !s.threads[t].frames[k].Entry? ==>
          k < |th'.frames| && th'.frames[k] == s.threads[t].frames[k])
    && (s.threads[t].frames == [] && s.threads[t].pc.Claimed? ==>
          if th'.frames == [] then th'.pc == s.threads[t].pc
          else th'.frames[0].InTask? && th'.frames[0].b == s.threads[t].pc.b && th'.frames[0].i == s.threads[t].pc.i)
    && s'.idle == s.idle + (if Idling(th') then 1 else 0) - (if Idling(s.threads[t]) then 1 else 0)
  }

  lemma OnlyThreadLives(s: State, s': State, t: nat, th': Thread)
    requires OnlyThread(s, s', t, th') && StepOf(s, s', t) && Lives(s)
    ensures Lives(s')
  {
    forall b | 0 <= b < |s'.gathers| && s'.gathers[b].owner == t ensures LiveOk(s', b) { assert LiveOk(s, b); }
    LivesStep(s, s', t);
  }

  lemma OnlyThreadClaims(s: State, s': State, t: nat, th': Thread)
    requires OnlyThread(s, s', t, th') && StepOf(s, s', t) && Claims(s)
    ensures Claims(s')
  {
    forall b, i | 0 <= b < |s'.gathers| && 0 <= i < |s'.gathers[b].tasks| && s'.gathers[b].tasks[i].claimer == Some(t)
      ensures ClaimOk(s', b, i)
    {
      assert ClaimOk(s, b, i);
    }
    ClaimsStep(s, s', t);
  }

  lemma ThreadStep(s: State, s': State, t: nat, th': Thread)
    requires Inv(s) && OnlyThread(s, s', t, th') && ThreadOk(s', t)
    requires HoldsGil(s', t) <==> s'.gil == Some(t)
    requires s'.gil == s.gil || (s.gil == Some(t) && s'.gil.None?) || (s.gil.None? && s'.gil == Some(t))
    requires s'.lock.None? || (s'.lock == s.lock && s.lock != Some(t))
    ensures Inv(s')
  {
    assert StepOf(s, s', t) by {
      forall b | 0 <= b < |s.gathers| ensures Kept(s.gathers[b], s'.gathers[b], t) {}
    }
    assert Threads(s') by { ThreadsStep(s, s', t); }
    assert Locks(s') by { LocksStep(s, s', t); }
    assert Lives(s') by { OnlyThreadLives(s, s', t, th'); }
    assert Claims(s') by { OnlyThreadClaims(s, s', t, th'); }
    assert Pool(s') by { PoolStep(s, s', t); }
    assert Queued(s') && LinkedOk(s') && Epochs(s') && Gathers(s');
  }

  /** The same stack under another program counter. */
  lemma SameStack(s: State, s': State, t: nat, th': Thread)
    requires OnlyThread(s, s', t, th') && ThreadOk(s, t)
    requires th'.frames == s.threads[t].frames && th'.runs.Valid() && PcOk(s', t)
    requires th'.frames != [] && Top(th').InTask? ==> FrameOk(s', t, |th'.frames| - 1)
    ensures ThreadOk(s', t)
  {
    forall k | 0 <= k < |th'.frames| ensures FrameOk(s', t, k) { assert FrameOk(s, t, k); }
  }

  lemma DropGilKeeps(s: State, t: nat)
    requires Inv(s) && Enabled(s, DropGil(t))
    ensures Inv(Apply(s, DropGil(t)))
  {
    var s' := Apply(s, DropGil(t));
    assert ThreadOk(s, t) && FrameOk(s, t, |s.threads[t].frames| - 1);
    assert HoldsGil(s, t) && !NeedsLock(s, t);
    SameStack(s, s', t, s'.threads[t]);
    ThreadStep(s, s', t, s'.threads[t]);
  }

  lemma HostResumes(s: State, t: nat)
    requires Inv(s) && Enabled(s, TakeGil(t)) && s.threads[t].pc.Host?
    ensures Inv(Apply(s, TakeGil(t)))
  {
    var s' := Apply(s, TakeGil(t));
    assert ThreadOk(s, t) && FrameOk(s, t, |s.threads[t].frames| - 1);
    assert !NeedsLock(s, t);
    SameStack(s, s', t, s'.threads[t]);
    ThreadStep(s, s', t, s'.threads[t]);
  }

  lemma InterruptKeeps(s: State, t: nat, target: nat)
    requires Inv(s) && Enabled(s, Interrupt(t, target))
    ensures Inv(Apply(s, Interrupt(t, target)))
  {
    var s' := Apply(s, Interrupt(t, target));
    assert ThreadOk(s, t) && !NeedsLock(s, t);
    assert HoldsGil(s, t) <==> s.gil == Some(t);
    assert s.threads[t].frames != [] ==> FrameOk(s, t, |s.threads[t].frames| - 1);
    SameStack(s, s', t, s'.threads[t]);
    ThreadStep(s, s', t, s'.threads[t]);
  }

  lemma MarkerTakesGil(s: State, t: nat)
    requires Inv(s) && Enabled(s, TakeGil(t)) && s.threads[t].pc.WantMark?
    ensures Inv(Apply(s, TakeGil(t)))
  {
    var s' := Apply(s, TakeGil(t));
    assert ThreadOk(s, t) && !NeedsLock(s, t);
    assert HoldsGil(s, t) <==> s.gil == Some(t);
    assert s.threads[t].frames != [] ==> FrameOk(s, t, |s.threads[t].frames| - 1);
    SameStack(s, s', t, s'.threads[t]);
    ThreadStep(s, s', t, s'.threads[t]);
  }

  lemma FinishInterruptKeeps(s: State, t: nat)
    requires Inv(s) && Enabled(s, FinishInterrupt(t))
    ensures Inv(Apply(s, FinishInterrupt(t)))
  {
    var s' := Apply(s, FinishInterrupt(t));
    assert ThreadOk(s, t) && !NeedsLock(s, t);
    assert HoldsGil(s, t) <==> s.gil == Some(t);
    assert s.threads[t].frames != [] ==> FrameOk(s, t, |s.threads[t].frames| - 1);
    SameStack(s, s', t, s'.threads[t]);
    ThreadStep(s, s', t, s'.threads[t]);
  }

  lemma FinishThunkKeeps(s: State, t: nat, outcome: Outcome)
    requires Inv(s) && Enabled(s, FinishThunk(t, outcome))
    ensures Inv(Apply(s, FinishThunk(t, outcome)))
  {
    var s' := Apply(s, FinishThunk(t, outcome));
    assert ThreadOk(s, t) && FrameOk(s, t, |s.threads[t].frames| - 1);
    assert HoldsGil(s, t) && !NeedsLock(s, t);
    SameStack(s, s', t, s'.threads[t]);
    ThreadStep(s, s', t, s'.threads[t]);
  }

  lemma IdleWakeKeeps(s: State, t: nat, timedOut: bool)
    requires Inv(s) && Enabled(s, Wake(t, timedOut)) && s.threads[t].pc.Idle?
    ensures Inv(Apply(s, Wake(t, timedOut)))
  {
    var s' := Apply(s, Wake(t, timedOut));
    assert ThreadOk(s, t) && !NeedsLock(s, t) && !HoldsGil(s, t);
    ThreadStep(s, s', t, s'.threads[t]);
  }

  lemma SeekEmptyKeeps(s: State, t: nat)
    requires Inv(s) && Enabled(s, Critical(t)) && (s.threads[t].pc.Seek? || s.threads[t].pc.IdleWoken?) && s.queue == []
    ensures Inv(Apply(s, Critical(t)))
  {
    var s' := Apply(s, Critical(t));
    assert ThreadOk(s, t) && !HoldsGil(s, t);
    ThreadStep(s, s', t, s'.threads[t]);
  }

  lemma StartStoppedKeeps(s: State, t: nat)
    requires Inv(s) && Enabled(s, Critical(t)) && s.threads[t].pc.TaskStart? && s.gathers[Top(s.threads[t]).b].stopped
    ensures Inv(Apply(s, Critical(t)))
  {
    var s' := Apply(s, Critical(t));
    assert ThreadOk(s, t) && FrameOk(s, t, |s.threads[t].frames| - 1);
    assert HoldsGil(s, t);
    SameStack(s, s', t, s'.threads[t]);
    ThreadStep(s, s', t, s'.threads[t]);
  }

  /** One more frame on top of a stack whose top is left alone. */
  lemma PushStack(s: State, s': State, t: nat, th': Thread)
    requires OnlyThread(s, s', t, th') && ThreadOk(s, t) && th'.runs.Valid() && PcOk(s', t)
    requires th'.frames != [] && th'.frames == s.threads[t].frames + [Top(th')]
    requires FrameOk(s', t, |th'.frames| - 1)
    requires s.threads[t].pc.Guest? || s.threads[t].pc.Host? || s.threads[t].pc.Claimed?
    ensures ThreadOk(s', t)
  {
    forall k | 0 <= k < |th'.frames| ensures FrameOk(s', t, k) {
      if k < |th'.frames| - 1 { assert FrameOk(s, t, k); }
    }
  }

  lemma EnterKeeps(s: State, t: nat, session: string, block: bool)
    requires Inv(s) && Enabled(s, Enter(t, session, block))
    ensures Inv(Apply(s, Enter(t, session, block)))
  {
    var s' := Apply(s, Enter(t, session, block));
    assert ThreadOk(s, t) && !NeedsLock(s, t);
    PushStack(s, s', t, s'.threads[t]);
    ThreadStep(s, s', t, s'.threads[t]);
  }

  /** A worker with the task it claimed, now that it has the GIL. */
  lemma ClaimedTakesGil(s: State, t: nat)
    requires Inv(s) && Enabled(s, TakeGil(t)) && s.threads[t].pc.Claimed?
    ensures Inv(Apply(s, TakeGil(t)))
  {
    var s' := Apply(s, TakeGil(t));
    assert ThreadOk(s, t) && !NeedsLock(s, t);
    PushStack(s, s', t, s'.threads[t]);
    ThreadStep(s, s', t, s'.threads[t]);
  }

  lemma LeaveKeeps(s: State, t: nat)
    requires Inv(s) && Enabled(s, Leave(t))
    ensures Inv(Apply(s, Leave(t)))
  {
    var s' := Apply(s, Leave(t));
    var th, th' := s.threads[t], s'.threads[t];
    assert ThreadOk(s, t) && FrameOk(s, t, |th.frames| - 1);
    assert HoldsGil(s, t) && !NeedsLock(s, t);
    assert th'.frames == th.frames[..|th.frames| - 1] && th'.pc == Host && s'.gathers == s.gathers;
    forall k | 0 <= k < |th'.frames| ensures FrameOk(s', t, k) { assert FrameOk(s, t, k); }
    ThreadStep(s, s', t, th');
  }
}
