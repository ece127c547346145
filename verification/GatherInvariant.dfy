/** The invariant of the whole pool, and what a step of one thread leaves to others. */
module GatherInvariant {
  import opened Basics
  import opened GatherModel
  import opened GatherLocal

  // ----- threads

  ghost predicate FrameOk(s: State, t: nat, k: nat)
    requires t < |s.threads| && k < |s.threads[t].frames|
  {
    var th := s.threads[t];
    var top := k == |th.frames| - 1;
    match th.frames[k]
    case Entry(_, _, _, _) => if k == 0 then !Worker(s, t) else GuestFrame(th.frames[k - 1])
    case InPar(b) =>
      && !Worker(s, t) && k > 0 && GuestFrame(th.frames[k - 1]) && b < |s.gathers|
      && s.gathers[b].owner == t && s.gathers[b].home == k && !s.gathers[b].phase.Returned?
    case InTask(b, i, _) =>
      && HeldBy(s, t, b, i)
      && (if Worker(s, t) then k == 0 else k > 0 && th.frames[k - 1] == InPar(b))
      && (if top && th.pc.TaskStart? then s.gathers[b].tasks[i].starts == 0
          else if top && th.pc == TaskEnd(None) then s.gathers[b].tasks[i].starts == 0 && s.gathers[b].stopped
          else s.gathers[b].tasks[i].runner == Some(t))
  }

  ghost predicate HeldBy(s: State, t: nat, b: nat, i: nat) {
    && b < |s.gathers| && i < |s.gathers[b].tasks| && i < s.gathers[b].submitted
    && s.gathers[b].tasks[i].claimer == Some(t) && !s.gathers[b].tasks[i].finished
  }

  ghost predicate PcOk(s: State, t: nat)
    requires t < |s.threads|
  {
    var th := s.threads[t];
    match th.pc
    case Guest => th.frames != [] && GuestFrame(Top(th))
    case Par(b) => th.frames != [] && Top(th) == InPar(b)
    case TaskStart => th.frames != [] && Top(th).InTask?
    case TaskEnd(_) => th.frames != [] && Top(th).InTask?
    case Seek => Worker(s, t) && th.frames == []
    case Idle => Worker(s, t) && th.frames == []
    case IdleWoken => Worker(s, t) && th.frames == []
    case Claimed(b, i) => Worker(s, t) && th.frames == [] && HeldBy(s, t, b, i) && s.gathers[b].tasks[i].starts == 0
    case Host => OutsideOk(s, t)
    case WantMark(target) => OutsideOk(s, t) && target != t
    case Mark(target) => OutsideOk(s, t) && target != t
    case Raise(target, _) => OutsideOk(s, t) && target != t
  }

  predicate OutsideOk(s: State, t: nat)
    requires t < |s.threads|
  {
    if s.threads[t].frames == [] then !Worker(s, t) else GuestFrame(Top(s.threads[t]))
  }

  ghost predicate ThreadOk(s: State, t: nat)
    requires t < |s.threads|
  {
    && s.threads[t].runs.Valid()
    && PcOk(s, t)
    && forall k :: 0 <= k < |s.threads[t].frames| ==> FrameOk(s, t, k)
  }

  // ----- gathers and threads together

  /** A gather that has not returned lies on its owner's stack; either its `par` is
      what the owner does, or the owner runs task `at` on top of it. */
  ghost predicate LiveOk(s: State, b: nat)
    requires b < |s.gathers|
  {
    var g := s.gathers[b];
    !g.phase.Returned? ==>
      && g.owner < |s.threads| && !Worker(s, g.owner)
      && g.home < |s.threads[g.owner].frames| && s.threads[g.owner].frames[g.home] == InPar(b)
      && if g.phase.CallerRun? then
           && g.home + 1 < |s.threads[g.owner].frames|
           && s.threads[g.owner].frames[g.home + 1].InTask?
           && s.threads[g.owner].frames[g.home + 1].b == b
           && s.threads[g.owner].frames[g.home + 1].i == g.at
         else s.threads[g.owner].pc == Par(b) && g.home + 1 == |s.threads[g.owner].frames|
  }

  /** A worker's one task: about to run, or at the bottom of its stack. */
  ghost predicate WorkerHas(s: State, t: nat, b: nat, i: nat)
    requires t < |s.threads|
  {
    var th := s.threads[t];
    if th.frames == [] then th.pc == Claimed(b, i)
    else th.frames[0].InTask? && th.frames[0].b == b && th.frames[0].i == i
  }

  /** A claimed task that has not finished is held by the thread that claimed it. */
  ghost predicate ClaimOk(s: State, b: nat, i: nat)
    requires b < |s.gathers| && i < |s.gathers[b].tasks|
  {
    var g := s.gathers[b];
    g.tasks[i].claimer.Some? && !g.tasks[i].finished ==>
      var t := g.tasks[i].claimer.value;
      && t < |s.threads|
      && if Worker(s, t) then WorkerHas(s, t, b, i) else t == g.owner && i == g.at && CallerClaims(g)
  }

  // ----- the whole state

  ghost predicate Threads(s: State) { forall t :: 0 <= t < |s.threads| ==> ThreadOk(s, t) }

  ghost predicate Gathers(s: State) { forall b :: 0 <= b < |s.gathers| ==> GatherOk(s.gathers[b]) }

  ghost predicate Lives(s: State) { forall b :: 0 <= b < |s.gathers| ==> LiveOk(s, b) }

  ghost predicate Claims(s: State) {
    forall b, i :: 0 <= b < |s.gathers| && 0 <= i < |s.gathers[b].tasks| ==> ClaimOk(s, b, i)
  }

  /** The queue holds each waiting task once, and nothing else. */
  ghost predicate Queued(s: State) {
    && NoDup(s.queue)
    && (forall k :: 0 <= k < |s.queue| ==> s.queue[k].b < |s.gathers| && Waiting(s.gathers[s.queue[k].b], s.queue[k].i))
    && (forall b, i :: 0 <= b < |s.gathers| && 0 <= i < |s.gathers[b].tasks| && Waiting(s.gathers[b], i) ==>
          TaskRef(b, i) in s.queue)
  }

  predicate Listed(p: Phase) { !p.Link? && !p.Answering? && !p.Returned? }

  ghost predicate LinkedOk(s: State) {
    && NoDup(s.linked)
    && (forall k :: 0 <= k < |s.linked| ==> s.linked[k] < |s.gathers| && Listed(s.gathers[s.linked[k]].phase))
    && (forall b :: 0 <= b < |s.gathers| && Listed(s.gathers[b].phase) ==> b in s.linked)
  }

  /** The GIL is held by exactly the thread whose step needs it, and the pool lock
      only by a thread before a critical section. */
  ghost predicate Locks(s: State) {
    && (forall t :: 0 <= t < |s.threads| ==> (HoldsGil(s, t) <==> s.gil == Some(t)))
    && (s.gil.Some? ==> s.gil.value < |s.threads|)
    && (s.lock.Some? ==> s.lock.value < |s.threads| && NeedsLock(s, s.lock.value))
  }

  /** Whoever waits for a settled batch was woken since. */
  ghost predicate Epochs(s: State) {
    forall b :: 0 <= b < |s.gathers| && s.gathers[b].phase.DrainWait? ==>
      && s.gathers[b].phase.since <= s.epoch
      && (s.gathers[b].outstanding == 0 ==> s.gathers[b].phase.since < s.epoch)
  }

  predicate Idling(th: Thread) { th.pc.Idle? || th.pc.IdleWoken? }

  function CountIdle(ths: seq<Thread>): nat {
    if ths == [] then 0 else CountIdle(ths[..|ths| - 1]) + (if Idling(ths[|ths| - 1]) then 1 else 0)
  }

  ghost predicate Pool(s: State) {
    && s.idle == CountIdle(s.threads)
    && s.made <= WORKERS_MAX
    && |s.threads| == s.firstWorker + s.made
  }

  ghost predicate AllParts(s: State) {
    && Threads(s) && Gathers(s) && Lives(s) && Claims(s) && Queued(s)
    && LinkedOk(s) && Locks(s) && Epochs(s) && Pool(s)
  }

  /** One proposition, so that a proof that ends in it is checked as a whole. */
  ghost predicate Inv(s: State) { AllParts(s) == true }

  // ----- what a step of thread `t` keeps of everything else

  ghost predicate Kept(g: Gather, g': Gather, t: nat) {
    && |g'.tasks| == |g.tasks| && g'.owner == g.owner && g'.home == g.home
    && g.submitted <= g'.submitted && (g.stopped ==> g'.stopped)
    && (forall i :: 0 <= i < |g.tasks| && g.tasks[i].claimer.Some? && g.tasks[i].claimer.value != t ==> g'.tasks[i] == g.tasks[i])
    && (forall i :: 0 <= i < |g.tasks| && g'.tasks[i].claimer.Some? && g'.tasks[i].claimer.value != t ==> g'.tasks[i] == g.tasks[i])
    && (g.owner != t ==> g'.phase == g.phase && g'.at == g.at)
  }

  ghost predicate StepOf(s: State, s': State, t: nat) {
    && t < |s.threads| == |s'.threads|
    && s'.firstWorker == s.firstWorker && s'.made == s.made
    && (forall u :: 0 <= u < |s.threads| && u != t ==> s'.threads[u] == s.threads[u])
    && |s.gathers| <= |s'.gathers|
    && (forall b :: 0 <= b < |s.gathers| ==> Kept(s.gathers[b], s'.gathers[b], t))
  }

  lemma OtherFrame(s: State, s': State, t: nat, u: nat, k: nat)
    requires StepOf(s, s', t) && u < |s.threads| && u != t
    requires k < |s.threads[u].frames| && FrameOk(s, u, k)
    ensures FrameOk(s', u, k)
  {
    var f := s.threads[u].frames[k];
    if f.InPar? || f.InTask? {
      assert Kept(s.gathers[f.b], s'.gathers[f.b], t);
    }
  }

  lemma OtherThread(s: State, s': State, t: nat, u: nat)
    requires StepOf(s, s', t) && u < |s.threads| && u != t && ThreadOk(s, u)
    ensures ThreadOk(s', u)
    ensures HoldsGil(s', u) <==> HoldsGil(s, u)
    ensures NeedsLock(s, u) ==> NeedsLock(s', u)
  {
    var th := s.threads[u];
    forall k | 0 <= k < |th.frames| ensures FrameOk(s', u, k) { OtherFrame(s, s', t, u, k); }
    if th.pc.Claimed? {
      assert Kept(s.gathers[th.pc.b], s'.gathers[th.pc.b], t);
    }
    if th.pc.Par? {
      assert FrameOk(s, u, |th.frames| - 1);
      assert Kept(s.gathers[th.pc.b], s'.gathers[th.pc.b], t);
    }
  }

  lemma ThreadsStep(s: State, s': State, t: nat)
    requires StepOf(s, s', t) && Threads(s) && ThreadOk(s', t)
    ensures Threads(s')
  {
    forall u | 0 <= u < |s'.threads| ensures ThreadOk(s', u) {
      if u != t { OtherThread(s, s', t, u); }
    }
  }

  lemma LocksStep(s: State, s': State, t: nat)
    requires StepOf(s, s', t) && Threads(s) && Locks(s)
    requires HoldsGil(s', t) <==> s'.gil == Some(t)
    requires s'.gil == s.gil || (s.gil == Some(t) && s'.gil.None?) || (s.gil.None? && s'.gil == Some(t))
    requires s'.lock.None? || (s'.lock == s.lock && s.lock != Some(t)) || (s'.lock == Some(t) && NeedsLock(s', t))
    ensures Locks(s')
  {
    forall u | 0 <= u < |s'.threads| ensures HoldsGil(s', u) <==> s'.gil == Some(u) {
      if u != t { OtherThread(s, s', t, u); }
    }
    if s'.lock.Some? && s'.lock.value != t {
      OtherThread(s, s', t, s'.lock.value);
    }
  }

  lemma LivesStep(s: State, s': State, t: nat)
    requires StepOf(s, s', t) && Lives(s)
    requires forall b :: 0 <= b < |s'.gathers| && (b >= |s.gathers| || s'.gathers[b].owner == t) ==> LiveOk(s', b)
    ensures Lives(s')
  {
    forall b | 0 <= b < |s'.gathers| ensures LiveOk(s', b) {
      if b < |s.gathers| && s'.gathers[b].owner != t {
        assert Kept(s.gathers[b], s'.gathers[b], t) && LiveOk(s, b);
      }
    }
  }

  /** A claim of `t` itself is checked by the caller; the others are kept. */
  lemma ClaimsStep(s: State, s': State, t: nat)
    requires StepOf(s, s', t) && Claims(s)
    requires forall b, i :: 0 <= b < |s'.gathers| && 0 <= i < |s'.gathers[b].tasks| ==>
               (b >= |s.gathers| || s'.gathers[b].tasks[i].claimer == Some(t)) ==> ClaimOk(s', b, i)
    ensures Claims(s')
  {
    forall b, i | 0 <= b < |s'.gathers| && 0 <= i < |s'.gathers[b].tasks| ensures ClaimOk(s', b, i) {
      if b < |s.gathers| && s'.gathers[b].tasks[i].claimer != Some(t) {
        var g, g' := s.gathers[b], s'.gathers[b];
        assert Kept(g, g', t) && ClaimOk(s, b, i);
        if g'.tasks[i].claimer.Some? && !g'.tasks[i].finished {
          var u := g'.tasks[i].claimer.value;
          assert g'.tasks[i] == g.tasks[i];
          assert u != t;
        }
      }
    }
  }

  lemma {:induction false} CountIdleUpdate(ths: seq<Thread>, t: nat, th: Thread)
    requires t < |ths|
    ensures CountIdle(ths[t := th]) == CountIdle(ths) + (if Idling(th) then 1 else 0) - (if Idling(ths[t]) then 1 else 0)
  {
    var n := |ths| - 1;
    if t == n {
      assert ths[t := th][..n] == ths[..n];
    } else {
      assert ths[t := th][..n] == ths[..n][t := th];
      CountIdleUpdate(ths[..n], t, th);
    }
  }

  lemma PoolStep(s: State, s': State, t: nat)
    requires StepOf(s, s', t) && Pool(s) && s'.threads == s.threads[t := s'.threads[t]]
    requires s'.idle == s.idle + (if Idling(s'.threads[t]) then 1 else 0) - (if Idling(s.threads[t]) then 1 else 0)
    ensures Pool(s')
  {
    CountIdleUpdate(s.threads, t, s'.threads[t]);
  }
}
