/** No state with an unreturned `par` is stuck: some step is possible that brings all
    of them nearer their answers, so from every reachable state all can return. */
module GatherProgress {
  import opened Basics
  import opened GatherAnswers
  import opened GatherModel
  import opened GatherLocal
  import opened GatherInvariant
  import opened GatherParSteps
  import opened GatherTaskSteps
  import opened GatherLifeSteps
  import opened GatherInterrupt

  // ----- how far the calls are from their answers

  predicate Unclaimed(k: Task) { !k.finished && k.claimer.None? }

  function CountUnclaimed(ts: seq<Task>): nat {
    if ts == [] then 0 else CountUnclaimed(ts[..|ts| - 1]) + (if Unclaimed(ts[|ts| - 1]) then 1 else 0)
  }

  /** Task `at` ended, or nothing will start any more. */
  predicate OverAt(g: Gather) { g.stopped || (g.at < |g.tasks| && g.tasks[g.at].finished) }

  function Turns(g: Gather): nat { if g.at < |g.tasks| then (|g.tasks| - g.at) * 100 else 0 }

  function PhaseRank(g: Gather): nat {
    match g.phase
    case Link => Turns(g) + 90
    case Submit => Turns(g) + 80
    case Check => Turns(g) + 70
    case Wait => Turns(g) + (if OverAt(g) || Waiting(g, g.at) then 60 else 20)
    case Woken(timedOut) =>
      Turns(g) + (if OverAt(g) || (timedOut && Waiting(g, g.at)) then 50 else if Waiting(g, g.at) then 65 else 30)
    case Return(claimed) => Turns(g) + (if claimed then 120 else 40)
    case CallerRun => Turns(g) + 10
    case Settle => 70
    case Drain => 60
    case DrainWait(_) => if g.outstanding == 0 then 50 else 10
    case DrainWoken => if g.outstanding == 0 then 45 else 15
    case Drained => 40
    case Unlink => 30
    case Answering(_) => 20
    case Returned(_) => 0
  }

  function GatherRank(g: Gather): nat { PhaseRank(g) + 100 * CountUnclaimed(g.tasks) }

  function FramesRank(fs: seq<Frame>): nat {
    if fs == [] then 0
    else FramesRank(fs[..|fs| - 1])
         + (match fs[|fs| - 1] case Entry(_, _, _, _) => 10 case InPar(_) => 80 case InTask(_, _, _) => 0)
  }

  /** `n` is the number of gathers a marking may touch. */
  function PcRank(th: Thread, n: nat): nat {
    match th.pc
    case Host => if th.frames == [] then 0 else 85
    case Guest => 80
    case Par(_) => 0
    case TaskStart => 90
    case TaskEnd(_) => 70
    case Seek => 10
    case Idle => 0
    case IdleWoken => 10
    case Claimed(_, _) => 100
    case WantMark(_) => 200 + 50 * n
    case Mark(_) => 100 + 50 * n
    case Raise(_, _) => 90
  }

  function ThreadRank(th: Thread, n: nat): nat { FramesRank(th.frames) + PcRank(th, n) }

  function SumThreads(ths: seq<Thread>, n: nat): nat {
    if ths == [] then 0 else SumThreads(ths[..|ths| - 1], n) + ThreadRank(ths[|ths| - 1], n)
  }

  function SumGathers(gs: seq<Gather>): nat {
    if gs == [] then 0 else SumGathers(gs[..|gs| - 1]) + GatherRank(gs[|gs| - 1])
  }

  function Rank(s: State): nat {
    SumThreads(s.threads, |s.gathers|) + SumGathers(s.gathers) + (if s.lock.None? then 1 else 0)
  }

  lemma {:induction false} SumThreadsUpdate(ths: seq<Thread>, n: nat, t: nat, th: Thread)
    requires t < |ths|
    ensures SumThreads(ths[t := th], n) == SumThreads(ths, n) + ThreadRank(th, n) - ThreadRank(ths[t], n)
  {
    var m := |ths| - 1;
    if t == m {
      assert ths[t := th][..m] == ths[..m];
    } else {
      assert ths[t := th][..m] == ths[..m][t := th];
      SumThreadsUpdate(ths[..m], n, t, th);
    }
  }

  lemma {:induction false} SumGathersUpdate(gs: seq<Gather>, b: nat, g: Gather)
    requires b < |gs|
    ensures SumGathers(gs[b := g]) == SumGathers(gs) + GatherRank(g) - GatherRank(gs[b])
  {
    var m := |gs| - 1;
    if b == m {
      assert gs[b := g][..m] == gs[..m];
    } else {
      assert gs[b := g][..m] == gs[..m][b := g];
      SumGathersUpdate(gs[..m], b, g);
    }
  }

  lemma {:induction false} SumGathersBound(gs: seq<Gather>, gs': seq<Gather>)
    requires |gs| == |gs'| && forall b :: 0 <= b < |gs| ==> GatherRank(gs'[b]) <= GatherRank(gs[b]) + 40
    ensures SumGathers(gs') <= SumGathers(gs) + 40 * |gs|
  {
    if gs != [] {
      SumGathersBound(gs[..|gs| - 1], gs'[..|gs| - 1]);
    }
  }

  lemma {:induction false} UnclaimedUpdate(ts: seq<Task>, i: nat, k: Task)
    requires i < |ts|
    ensures CountUnclaimed(ts[i := k]) == CountUnclaimed(ts) + (if Unclaimed(k) then 1 else 0) - (if Unclaimed(ts[i]) then 1 else 0)
  {
    var m := |ts| - 1;
    if i == m {
      assert ts[i := k][..m] == ts[..m];
    } else {
      assert ts[i := k][..m] == ts[..m][i := k];
      UnclaimedUpdate(ts[..m], i, k);
    }
  }

  lemma {:induction false} UnclaimedFewer(ts: seq<Task>, ts': seq<Task>)
    requires |ts'| == |ts| && forall i :: 0 <= i < |ts| && Unclaimed(ts'[i]) ==> Unclaimed(ts[i])
    ensures CountUnclaimed(ts') <= CountUnclaimed(ts)
  {
    if ts != [] {
      UnclaimedFewer(ts[..|ts| - 1], ts'[..|ts| - 1]);
    }
  }

  lemma PopFrames(fs: seq<Frame>)
    requires fs != []
    ensures FramesRank(fs) == FramesRank(fs[..|fs| - 1])
              + (match fs[|fs| - 1] case Entry(_, _, _, _) => 10 case InPar(_) => 80 case InTask(_, _, _) => 0)
  {
  }

  lemma PushTask(fs: seq<Frame>, f: Frame)
    requires f.InTask?
    ensures FramesRank(fs + [f]) == FramesRank(fs)
  {
    assert (fs + [f])[..|fs|] == fs;
  }

  // ----- steps of this measure

  /** A step that brings no new work and needs no luck: a wait in `par` may time out at
      any moment, a wait without a limit ends only after a broadcast since it began. */
  predicate Proper(s: State, a: Step) {
    match a
    case Acquire(_) => true
    case Critical(_) => true
    case TakeGil(_) => true
    case Wake(t, timedOut) =>
      AtPar(s, t) && var p := s.gathers[s.threads[t].pc.b].phase;
      (p.Wait? && timedOut) || (p.DrainWait? && p.since < s.epoch)
    case Leave(_) => true
    case FinishThunk(_, _) => true
    case AnswerPar(_) => true
    case FinishInterrupt(_) => true
    case _ => false
  }

  ghost predicate Advances(s: State, a: Step) {
    Enabled(s, a) && Proper(s, a) && Rank(Apply(s, a)) < Rank(s)
  }

  /** A change of one thread. */
  lemma RankThread(s: State, s': State, t: nat)
    requires t < |s.threads| && |s'.threads| == |s.threads| && s'.threads == s.threads[t := s'.threads[t]]
    requires s'.gathers == s.gathers
    ensures Rank(s') == Rank(s) + ThreadRank(s'.threads[t], |s.gathers|) - ThreadRank(s.threads[t], |s.gathers|)
                        + (if s'.lock.None? then 1 else 0) - (if s.lock.None? then 1 else 0)
  {
    SumThreadsUpdate(s.threads, |s.gathers|, t, s'.threads[t]);
  }

  /** A change of one thread and one gather. */
  lemma RankBoth(s: State, s': State, t: nat, b: nat)
    requires t < |s.threads| && |s'.threads| == |s.threads| && s'.threads == s.threads[t := s'.threads[t]]
    requires b < |s.gathers| && |s'.gathers| == |s.gathers| && s'.gathers == s.gathers[b := s'.gathers[b]]
    ensures Rank(s') == Rank(s) + ThreadRank(s'.threads[t], |s.gathers|) - ThreadRank(s.threads[t], |s.gathers|)
                        + GatherRank(s'.gathers[b]) - GatherRank(s.gathers[b])
                        + (if s'.lock.None? then 1 else 0) - (if s.lock.None? then 1 else 0)
  {
    SumThreadsUpdate(s.threads, |s.gathers|, t, s'.threads[t]);
    SumGathersUpdate(s.gathers, b, s'.gathers[b]);
  }

  // ----- every critical section comes nearer

  lemma SubmitRank(g: Gather)
    requires GatherOk(g)
    ensures g.phase.Link? ==> GatherRank(g.(phase := Submit)) + 2 <= GatherRank(g)
    ensures g.phase.Submit? ==> GatherRank(g.(phase := Settle)) + 2 <= GatherRank(g) && GatherRank(SubmitMore(g)) + 2 <= GatherRank(g)
  {
  }

  lemma ClaimRank(g: Gather)
    requires GatherOk(g) && (g.phase.Check? || (g.phase.Woken? && g.phase.timedOut)) && Waiting(g, g.at)
    ensures GatherRank(Claim(g, g.at, g.owner).(phase := Return(true), saturated := true)) + 2 <= GatherRank(g)
  {
    UnclaimedUpdate(g.tasks, g.at, g.tasks[g.at].(claimer := Some(g.owner)));
  }

  lemma LookRank(g: Gather)
    requires GatherOk(g) && (g.phase.Check? || g.phase.Woken?) && g.at < |g.tasks|
    requires g.phase.Woken? ==> !(g.phase.timedOut && Waiting(g, g.at))
    ensures GatherRank(g.(phase := if g.tasks[g.at].finished || g.stopped then Return(false) else Wait)) + 2 <= GatherRank(g)
  {
    var g' := g.(phase := if g.tasks[g.at].finished || g.stopped then Return(false) else Wait);
    assert Waiting(g', g.at) == Waiting(g, g.at) && OverAt(g') == OverAt(g) && Turns(g') == Turns(g);
  }

  lemma SettleRank(g: Gather)
    requires GatherOk(g)
    ensures g.phase.Settle? ==> GatherRank(g.(phase := if g.outstanding == 0 then Unlink else Drain)) + 2 <= GatherRank(g)
    ensures g.phase.Unlink? ==> GatherRank(g.(phase := Answering(g.interrupted))) + 2 <= GatherRank(g)
  {
    SettledAllFinished(g);
  }

  lemma DrainRank(g: Gather, epoch: nat)
    requires GatherOk(g)
    ensures g.phase.Drain? || g.phase.DrainWoken? ==> GatherRank(DrainPhase(g, epoch)) + 2 <= GatherRank(g)
    ensures g.phase.Drain? ==> GatherRank(DrainPhase(TakeBack(g), epoch)) + 2 <= GatherRank(g)
  {
    SettledAllFinished(g);
    UnclaimedFewer(g.tasks, TakeBack(g).tasks);
  }

  lemma ParCriticalAdvances(s: State, t: nat)
    requires Queued(s) && s.lock == Some(t) && t < |s.threads| && s.threads[t].pc.Par? && NeedsLock(s, t)
    requires Standing(s, t, s.threads[t].pc.b, s.gathers[s.threads[t].pc.b])
    ensures Enabled(s, Critical(t)) && Rank(Apply(s, Critical(t))) < Rank(s)
  {
    var b := s.threads[t].pc.b;
    var g := s.gathers[b];
    var s' := Apply(s, Critical(t));
    if g.phase.Check? || g.phase.Woken? {
      WaitAdvances(s, t);
    } else {
      SubmitRank(g);
      SettleRank(g);
      DrainRank(g, s.epoch);
      RankBoth(s, s', t, b);
    }
  }

  lemma WaitAdvances(s: State, t: nat)
    requires Queued(s) && s.lock == Some(t) && t < |s.threads| && s.threads[t].pc.Par? && NeedsLock(s, t)
    requires var g := s.gathers[s.threads[t].pc.b]; Standing(s, t, s.threads[t].pc.b, g) && (g.phase.Check? || g.phase.Woken?)
    ensures Enabled(s, Critical(t)) && Rank(Apply(s, Critical(t))) < Rank(s)
  {
    var b := s.threads[t].pc.b;
    var g := s.gathers[b];
    if TakesBack(s, b, g) {
      QueuedIsWaiting(s, b, g.at);
      ClaimRank(g);
    } else {
      if Waiting(g, g.at) { assert TaskRef(b, g.at) in s.queue; }
      LookRank(g);
    }
    RankBoth(s, Apply(s, Critical(t)), t, b);
  }

  /** A task's claim, start or end can only make its batch's waiting caller nearer to
      waking up, by less than the thread that did it comes nearer itself. */
  lemma TaskChangeRank(g: Gather, g': Gather, i: nat)
    requires i < |g.tasks| && |g'.tasks| == |g.tasks| && g'.tasks == g.tasks[i := g'.tasks[i]]
    requires g'.phase == g.phase && g'.at == g.at && g'.submitted == g.submitted
    requires Unclaimed(g'.tasks[i]) ==> Unclaimed(g.tasks[i])
    requires g.stopped ==> g'.stopped
    requires g.tasks[i].finished ==> g'.tasks[i].finished
    ensures GatherRank(g') <= GatherRank(g) + 40
    ensures Unclaimed(g.tasks[i]) && !Unclaimed(g'.tasks[i]) && g'.stopped == g.stopped
            && g'.tasks[i].finished == g.tasks[i].finished && g'.outstanding == g.outstanding ==>
              GatherRank(g') + 100 <= GatherRank(g)
    ensures Unclaimed(g.tasks[i]) == Unclaimed(g'.tasks[i]) && g'.stopped == g.stopped
            && g'.tasks[i].finished == g.tasks[i].finished && g'.outstanding == g.outstanding ==>
              GatherRank(g') == GatherRank(g)
  {
    UnclaimedUpdate(g.tasks, i, g'.tasks[i]);
    assert Turns(g') == Turns(g);
  }

  lemma SeekAdvances(s: State, t: nat)
    requires Queued(s) && s.lock == Some(t) && t < |s.threads| && (s.threads[t].pc.Seek? || s.threads[t].pc.IdleWoken?)
    ensures Enabled(s, Critical(t)) && Rank(Apply(s, Critical(t))) < Rank(s)
  {
    if s.queue == [] {
      RankThread(s, Apply(s, Critical(t)), t);
    } else {
      var b, i := s.queue[0].b, s.queue[0].i;
      assert Waiting(s.gathers[s.queue[0].b], s.queue[0].i);
      TaskChangeRank(s.gathers[b], Claim(s.gathers[b], i, t), i);
      RankBoth(s, Apply(s, Critical(t)), t, b);
    }
  }

  lemma TaskFrameThere(s: State, t: nat)
    requires Inv(s) && t < |s.threads| && (s.threads[t].pc.TaskStart? || s.threads[t].pc.TaskEnd?)
    ensures InTaskFrame(s, t) && s.threads[t].runs.Valid()
  {
    assert ThreadOk(s, t) && FrameOk(s, t, |s.threads[t].frames| - 1);
  }

  lemma StartAdvances(s: State, t: nat)
    requires s.lock == Some(t) && t < |s.threads| && s.threads[t].pc.TaskStart?
    requires InTaskFrame(s, t) && s.threads[t].runs.Valid()
    ensures Enabled(s, Critical(t)) && Rank(Apply(s, Critical(t))) < Rank(s)
  {
    var s' := Apply(s, Critical(t));
    var f := Top(s.threads[t]);
    var g := s.gathers[f.b];
    if g.stopped {
      RankThread(s, s', t);
    } else {
      TaskChangeRank(g, Start(g, f.i, t), f.i);
      RankBoth(s, s', t, f.b);
    }
  }

  lemma EndRank(g: Gather, i: nat, outcome: Option<Outcome>)
    requires GatherOk(g) && MayFinish(g, i, outcome) && g.tasks[i].claimer.Some?
    ensures GatherRank(Finish(g, i, outcome)) <= GatherRank(g) + 40
    ensures g.phase.CallerRun? && i == g.at ==> GatherRank(NextTurn(Finish(g, i, outcome))) <= GatherRank(g)
  {
    var done := Finish(g, i, outcome);
    TaskChangeRank(g, done, i);
    UnclaimedUpdate(g.tasks, i, done.tasks[i]);
  }

  lemma EndAdvances(s: State, t: nat)
    requires Inv(s) && s.lock == Some(t) && t < |s.threads| && s.threads[t].pc.TaskEnd?
    ensures Enabled(s, Critical(t)) && Rank(Apply(s, Critical(t))) < Rank(s)
  {
    TaskFrameThere(s, t);
    TopTask(s, t);
    EndMayFinish(s, t);
    var f := Top(s.threads[t]);
    EndRank(s.gathers[f.b], f.i, s.threads[t].pc.outcome);
    EndThreadRank(s, t);
  }

  lemma EndThreadRank(s: State, t: nat)
    requires Enabled(s, Critical(t)) && s.threads[t].pc.TaskEnd? && Top(s.threads[t]).InTask?
    requires var f := Top(s.threads[t]);
             var done := Finish(s.gathers[f.b], f.i, s.threads[t].pc.outcome);
             if Worker(s, t) then GatherRank(done) <= GatherRank(s.gathers[f.b]) + 40
             else GatherRank(NextTurn(done)) <= GatherRank(s.gathers[f.b])
    ensures Rank(Apply(s, Critical(t))) < Rank(s)
  {
    PopFrames(s.threads[t].frames);
    RankBoth(s, Apply(s, Critical(t)), t, Top(s.threads[t]).b);
  }

  lemma MarkRank(g: Gather)
    ensures GatherRank(MarkStopped(g)) <= GatherRank(g) + 40
  {
    assert Waiting(MarkStopped(g), g.at) == Waiting(g, g.at) && Turns(MarkStopped(g)) == Turns(g);
  }

  lemma MarkAdvances(s: State, t: nat)
    requires Inv(s) && s.lock == Some(t) && t < |s.threads| && s.threads[t].pc.Mark? && Enabled(s, Critical(t))
    ensures Rank(Apply(s, Critical(t))) < Rank(s)
  {
    var s' := Apply(s, Critical(t));
    MarkShape(s, s', t);
    MarkedRank(s, s', t, s.threads[t].pc.target);
  }

  lemma MarkedRank(s: State, s': State, t: nat, target: nat)
    requires Marked(s, s', t, target) && s.lock == Some(t)
    ensures Rank(s') < Rank(s)
  {
    forall b | 0 <= b < |s.gathers| ensures GatherRank(s'.gathers[b]) <= GatherRank(s.gathers[b]) + 40 {
      MarkRank(s.gathers[b]);
    }
    SumGathersBound(s.gathers, s'.gathers);
    SumThreadsUpdate(s.threads, |s.gathers|, t, s'.threads[t]);
  }

  lemma CriticalAdvances(s: State, t: nat)
    requires Inv(s) && s.lock == Some(t)
    ensures Advances(s, Critical(t))
  {
    assert t < |s.threads| && NeedsLock(s, t);
    var pc := s.threads[t].pc;
    if pc.Par? { Stands(s, t); ParCriticalAdvances(s, t); }
    else if pc.TaskStart? { TaskFrameThere(s, t); StartAdvances(s, t); }
    else if pc.TaskEnd? { EndAdvances(s, t); }
    else if pc.Mark? { MarkAdvances(s, t); }
    else { SeekAdvances(s, t); }
  }

  // ----- and so does every hand-over of a lock, every end and every useful wake

  lemma AcquireAdvances(s: State, t: nat)
    requires Inv(s) && s.lock.None? && t < |s.threads| && NeedsLock(s, t)
    ensures Advances(s, Acquire(t))
  {
  }

  lemma GuestAdvances(s: State, t: nat)
    requires InGuest(s, t)
    ensures Top(s.threads[t]).InTask? ==> Advances(s, FinishThunk(t, Value(0)))
    ensures Top(s.threads[t]).Entry? ==> Advances(s, Leave(t))
  {
    PopFrames(s.threads[t].frames);
    if Top(s.threads[t]).InTask? { RankThread(s, Apply(s, FinishThunk(t, Value(0))), t); }
    if Top(s.threads[t]).Entry? { RankThread(s, Apply(s, Leave(t)), t); }
  }

  lemma AnswerAdvances(s: State, t: nat)
    requires Enabled(s, AnswerPar(t)) && Top(s.threads[t]).InPar?
    ensures Advances(s, AnswerPar(t))
  {
    AnswerParts(s, t);
    RankBoth(s, Apply(s, AnswerPar(t)), t, s.threads[t].pc.b);
  }

  /** The answer changes the caller and its batch, and brings the two nearer to their end. */
  lemma AnswerParts(s: State, t: nat)
    requires Enabled(s, AnswerPar(t)) && Top(s.threads[t]).InPar?
    ensures var s', b := Apply(s, AnswerPar(t)), s.threads[t].pc.b;
            && |s'.threads| == |s.threads| && s'.threads == s.threads[t := s'.threads[t]]
            && |s'.gathers| == |s.gathers| && s'.gathers == s.gathers[b := s'.gathers[b]] && s'.lock == s.lock
            && ThreadRank(s'.threads[t], |s.gathers|) + GatherRank(s'.gathers[b])
               < ThreadRank(s.threads[t], |s.gathers|) + GatherRank(s.gathers[b])
  {
    PopFrames(s.threads[t].frames);
    assert Apply(s, AnswerPar(t)).gathers[s.threads[t].pc.b].tasks == s.gathers[s.threads[t].pc.b].tasks;
  }

  /** The holder of the GIL, where it is not about to take the pool lock. */
  lemma HolderAdvances(s: State, t: nat)
    requires Inv(s) && t < |s.threads| && HoldsGil(s, t) && !NeedsLock(s, t)
    ensures exists a :: Advances(s, a)
  {
    assert ThreadOk(s, t);
    var th := s.threads[t];
    if th.pc.Raise? {
      RankThread(s, Apply(s, FinishInterrupt(t)), t);
      assert Advances(s, FinishInterrupt(t));
    } else if th.pc.Par? {
      AnswerAdvances(s, t);
    } else {
      GuestAdvances(s, t);
    }
  }

  lemma GilBackRank(g: Gather)
    requires GatherOk(g)
    ensures g.phase.Drained? ==> GatherRank(g.(phase := Unlink)) < GatherRank(g)
    ensures g.phase == Return(false) ==> GatherRank(NextTurn(g)) < GatherRank(g)
    ensures g.phase == Return(true) ==> GatherRank(g.(phase := CallerRun)) + 110 == GatherRank(g)
  {
  }

  lemma ParTakesGilAdvances(s: State, t: nat, b: nat, g: Gather)
    requires Standing(s, t, b, g) && Enabled(s, TakeGil(t))
    ensures Advances(s, TakeGil(t))
  {
    var s' := Apply(s, TakeGil(t));
    GilBackRank(g);
    if g.phase == Return(true) {
      PushTask(s.threads[t].frames, InTask(b, g.at, s.threads[t].scan));
      assert ThreadRank(s'.threads[t], |s.gathers|) == ThreadRank(s.threads[t], |s.gathers|) + 90;
    } else {
      assert s'.threads[t] == s.threads[t];
    }
    RankBoth(s, s', t, b);
  }

  lemma ThreadTakesGilAdvances(s: State, t: nat)
    requires Enabled(s, TakeGil(t)) && !s.threads[t].pc.Par?
    ensures Advances(s, TakeGil(t))
  {
    var s' := Apply(s, TakeGil(t));
    if s.threads[t].pc.Claimed? { PushTask(s.threads[t].frames, Top(s'.threads[t])); }
    RankThread(s, s', t);
  }

  lemma TakeGilAdvances(s: State, t: nat)
    requires Inv(s) && s.gil.None? && t < |s.threads| && WantsGil(s, t)
    ensures Advances(s, TakeGil(t))
  {
    if s.threads[t].pc.Par? {
      Stands(s, t);
      ParTakesGilAdvances(s, t, s.threads[t].pc.b, s.gathers[s.threads[t].pc.b]);
    } else {
      ThreadTakesGilAdvances(s, t);
    }
  }

  lemma WakeAdvances(s: State, t: nat, b: nat, g: Gather)
    requires t < |s.threads| && s.threads[t].pc == Par(b) && b < |s.gathers| && g == s.gathers[b]
    requires (g.phase.Wait? && (OverAt(g) || Waiting(g, g.at)))
             || (g.phase.DrainWait? && g.outstanding == 0 && g.phase.since < s.epoch)
    ensures Advances(s, Wake(t, true))
  {
    var s' := Apply(s, Wake(t, true));
    var g' := s'.gathers[b];
    assert Turns(g') == Turns(g) && Waiting(g', g.at) == Waiting(g, g.at) && OverAt(g') == OverAt(g);
    RankBoth(s, s', t, b);
  }

  // ----- when nobody wants a lock

  ghost predicate Quiet(s: State) {
    && s.lock.None? && s.gil.None?
    && forall t :: 0 <= t < |s.threads| ==> !NeedsLock(s, t) && !WantsGil(s, t)
  }

  /** In a quiet state a thread is outside the interpreter, idle, or waits in `par`. */
  lemma QuietThread(s: State, t: nat)
    requires Inv(s) && Quiet(s) && t < |s.threads|
    ensures var th := s.threads[t];
            || (th.pc.Host? && th.frames == []) || th.pc.Idle?
            || (th.pc.Par? && th.pc.b < |s.gathers| && s.gathers[th.pc.b].owner == t && !Worker(s, t)
                && (s.gathers[th.pc.b].phase.Wait? || s.gathers[th.pc.b].phase.DrainWait?))
    ensures s.threads[t].pc.Idle? ==> s.threads[t].frames == []
  {
    assert ThreadOk(s, t);
    assert !NeedsLock(s, t) && !WantsGil(s, t) && !HoldsGil(s, t);
    if s.threads[t].pc.Par? { Stands(s, t); }
  }

  /** In a quiet state no task is claimed and unfinished while its owner waits. */
  lemma QuietNoClaim(s: State, b: nat, i: nat)
    requires Inv(s) && Quiet(s) && b < |s.gathers| && i < |s.gathers[b].tasks|
    requires s.gathers[b].phase.Wait? || s.gathers[b].phase.DrainWait?
    ensures s.gathers[b].tasks[i].finished || s.gathers[b].tasks[i].claimer.None?
  {
    assert ClaimOk(s, b, i);
    var k := s.gathers[b].tasks[i];
    if k.claimer.Some? && !k.finished {
      QuietThread(s, k.claimer.value);
    }
  }

  /** The owner of an unreturned gather waits in a `par` of its own. */
  lemma QuietOwnerWaits(s: State, b: nat)
    requires Inv(s) && Quiet(s) && b < |s.gathers| && !s.gathers[b].phase.Returned?
    ensures var t := s.gathers[b].owner;
            && t < |s.threads| && s.threads[t].pc.Par? && s.threads[t].pc.b < |s.gathers|
            && var p := s.gathers[s.threads[t].pc.b].phase; p.Wait? || p.DrainWait?
  {
    assert LiveOk(s, b);
    QuietThread(s, s.gathers[b].owner);
  }

  lemma QuietAdvances(s: State, b: nat)
    requires Inv(s) && Quiet(s) && b < |s.gathers| && !s.gathers[b].phase.Returned?
    ensures exists a :: Advances(s, a)
  {
    QuietOwnerWaits(s, b);
    var t := s.gathers[b].owner;
    Stands(s, t);
    var c := s.threads[t].pc.b;
    var g := s.gathers[c];
    SettledAllFinished(g);
    if g.phase.Wait? {
      QuietNoClaim(s, c, g.at);
    } else if g.outstanding > 0 {
      forall i | 0 <= i < g.submitted ensures g.tasks[i].finished {
        QuietNoClaim(s, c, i);
        assert !Waiting(g, i);
      }
      CountAtLeast(g.tasks, g.submitted, |g.tasks|);
    }
    WakeAdvances(s, t, c, g);
    assert Advances(s, Wake(t, true));
  }

  /** No reachable state with an unreturned `par` is stuck: a step is possible that lowers
      the rank of the whole pool, and so the number of such steps left, without new work, without spurious
      wake-ups and without any help from an idle worker. */
  lemma NoParIsStuck(s: State, b: nat)
    requires Reachable(s) && b < |s.gathers| && !s.gathers[b].phase.Returned?
    ensures exists a :: Advances(s, a)
  {
    ReachableHolds(s);
    if s.lock.Some? {
      CriticalAdvances(s, s.lock.value);
    } else if t :| 0 <= t < |s.threads| && NeedsLock(s, t) {
      AcquireAdvances(s, t);
    } else if s.gil.Some? {
      assert HoldsGil(s, s.gil.value);
      HolderAdvances(s, s.gil.value);
    } else if t :| 0 <= t < |s.threads| && WantsGil(s, t) {
      TakeGilAdvances(s, t);
    } else {
      QuietAdvances(s, b);
    }
  }

  // ----- every call can return

  ghost predicate AllProper(s: State, steps: seq<Step>)
    requires CanRun(s, steps)
    decreases |steps|
  {
    steps != [] ==> Proper(s, steps[0]) && AllProper(Apply(s, steps[0]), steps[1..])
  }

  /** From every reachable state a finite run of proper steps answers every `par`. */
  lemma {:induction false} EveryParCanReturn(s: State) returns (steps: seq<Step>)
    requires Reachable(s)
    ensures CanRun(s, steps) && AllProper(s, steps)
    ensures forall b :: 0 <= b < |Run(s, steps).gathers| ==> Run(s, steps).gathers[b].phase.Returned?
    decreases Rank(s)
  {
    if b :| 0 <= b < |s.gathers| && !s.gathers[b].phase.Returned? {
      NoParIsStuck(s, b);
      var a :| Advances(s, a);
      StepReaches(s, a);
      var rest := EveryParCanReturn(Apply(s, a));
      steps := [a] + rest;
      assert steps[1..] == rest;
    } else {
      steps := [];
    }
  }

  ghost predicate AllAdvance(s: State, steps: seq<Step>)
    requires CanRun(s, steps)
    decreases |steps|
  {
    steps != [] ==> Advances(s, steps[0]) && AllAdvance(Apply(s, steps[0]), steps[1..])
  }

  /** However the advancing steps are chosen, there are no more of them than the rank of the
      state, and where none is left every `par` has returned. */
  lemma {:induction false} AdvancingRunsReturn(s: State, steps: seq<Step>)
    requires Reachable(s) && CanRun(s, steps) && AllAdvance(s, steps)
    ensures |steps| + Rank(Run(s, steps)) <= Rank(s)
    ensures (exists a :: Advances(Run(s, steps), a))
            || forall b :: 0 <= b < |Run(s, steps).gathers| ==> Run(s, steps).gathers[b].phase.Returned?
    decreases |steps|
  {
    if steps == [] {
      if b :| 0 <= b < |s.gathers| && !s.gathers[b].phase.Returned? { NoParIsStuck(s, b); }
    } else {
      StepReaches(s, steps[0]);
      AdvancingRunsReturn(Apply(s, steps[0]), steps[1..]);
    }
  }
}
