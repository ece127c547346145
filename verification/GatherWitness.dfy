/** Runs that reach what the results about the pool speak of: an open `par`, one that has
    answered, and an interrupt about to mark an open batch. */
module GatherWitness {
  import opened Basics
  import opened GatherAnswers
  import opened GatherInterrupt
  import opened GatherLocal
  import opened GatherModel
  import opened GatherProgress
  import opened GatherSafety

  /** Two host threads, and nothing yet. */
  function TwoHosts(): State {
    State(seq(2, _ => Thread([], Host, None, NewRuns())), 2, 0, [], [], [], None, None, 0, 0, [])
  }

  /** The host runs code on thread 0, which starts `made` workers and calls `par`. */
  lemma OpenPar(session: string, block: bool, made: nat, count: nat, quota: int) returns (s: State)
    requires 0 < made <= WORKERS_MAX && count >= 2
    ensures Reachable(s) && |s.gathers| == 1 && s.gathers[0].phase == Link && s.gathers[0].owner == 0
    ensures |s.gathers[0].tasks| == count && CalmBatch(s.gathers[0]) && s.gathers[0].submitted == 0
    ensures s.firstWorker == 2 && |s.threads| == made + 2 && s.threads[0].pc == Par(0) && s.threads[1] == Thread([], Host, None, NewRuns())
    ensures s.gil == Some(0) && s.lock.None? && s.linked == []
    ensures forall t :: 2 <= t < |s.threads| ==> s.threads[t].pc.Seek?
  {
    s := PoolOf(session, block, made);
    s := After(s, CallPar(0, count, quota));
  }

  lemma PoolOf(session: string, block: bool, made: nat) returns (s: State)
    requires 0 < made <= WORKERS_MAX
    ensures Reachable(s) && s.firstWorker == 2 && |s.threads| == made + 2 && s.made > 0 && s.gathers == [] && s.linked == []
    ensures InGuest(s, 0) && s.threads[0].runs.Valid() && s.threads[1] == Thread([], Host, None, NewRuns())
    ensures s.gil == Some(0) && s.lock.None?
    ensures forall t :: 2 <= t < |s.threads| ==> s.threads[t].pc.Seek?
  {
    s := Entrance(session, block);
    s := After(s, StartPool(0, made));
  }

  lemma Entrance(session: string, block: bool) returns (s: State)
    ensures Reachable(s) && s.firstWorker == |s.threads| == 2 && s.made == 0 && s.gathers == [] && s.linked == []
    ensures s.threads[0].pc.Guest? && s.threads[0].frames != [] && s.threads[0].runs.Valid()
    ensures s.threads[1] == Thread([], Host, None, NewRuns()) && s.gil == Some(0) && s.lock.None?
  {
    s := TwoHosts();
    assert CanRun(s, []) && Run(s, []) == s;
    s := After(s, Enter(0, session, block));
  }

  lemma After(s: State, a: Step) returns (s': State)
    requires Reachable(s) && Enabled(s, a)
    ensures s' == Apply(s, a) && Reachable(s')
  {
    StepReaches(s, a);
    s' := Apply(s, a);
  }

  // ----- a run without interrupts

  /** Nobody is being interrupted, and all thunks that have ended gave a value. */
  ghost predicate Calm(s: State) {
    (forall t: nat :: CalmThread(s, t)) && (forall b: nat :: CalmGather(s, b))
  }

  predicate CalmThread(s: State, t: nat) { t < |s.threads| ==> CalmPc(s.threads[t].pc) }

  predicate CalmPc(pc: Pc) {
    !pc.WantMark? && !pc.Mark? && !pc.Raise? && (pc.TaskEnd? ==> pc.outcome.Some? && pc.outcome.value.Value?)
  }

  predicate CalmGather(s: State, b: nat) { b < |s.gathers| ==> CalmBatch(s.gathers[b]) }

  predicate CalmBatch(g: Gather) {
    !g.stopped && !g.interrupted && forall i :: 0 <= i < |g.tasks| && g.tasks[i].result.Some? ==> g.tasks[i].result.value.Value?
  }

  predicate Friendly(a: Step) { a.FinishThunk? ==> a.outcome.Value? }

  /** One thread and one batch change. */
  lemma CalmAfter(s: State, s': State, t: nat, b: nat)
    requires Calm(s) && t < |s.threads| == |s'.threads| && s'.threads == s.threads[t := s'.threads[t]] && CalmPc(s'.threads[t].pc)
    requires |s'.gathers| == |s.gathers| && (b < |s.gathers| ==> CalmBatch(s'.gathers[b]))
    requires forall c :: 0 <= c < |s.gathers| && c != b ==> s'.gathers[c] == s.gathers[c]
    ensures Calm(s')
  {
    forall u: nat ensures CalmThread(s', u) { assert CalmThread(s, u); }
    forall c: nat ensures CalmGather(s', c) { assert CalmGather(s, c); }
  }

  lemma CalmPar(s: State, t: nat, b: nat)
    requires Calm(s) && Enabled(s, Critical(t)) && s.threads[t].pc == Par(b)
    ensures Calm(ParSection(s, t, b).(lock := None))
  {
    assert CalmThread(s, t) && CalmGather(s, b);
    CalmAfter(s, ParSection(s, t, b).(lock := None), t, b);
  }

  lemma CalmTask(s: State, t: nat)
    requires Calm(s) && Enabled(s, Critical(t)) && (s.threads[t].pc.TaskStart? || s.threads[t].pc.TaskEnd?)
    ensures Calm(Apply(s, Critical(t)))
  {
    var b := Top(s.threads[t]).b;
    assert CalmThread(s, t) && CalmGather(s, b);
    CalmAfter(s, Apply(s, Critical(t)), t, b);
  }

  lemma CalmSeek(s: State, t: nat)
    requires Calm(s) && Enabled(s, Critical(t)) && (s.threads[t].pc.Seek? || s.threads[t].pc.IdleWoken?)
    ensures Calm(Apply(s, Critical(t)))
  {
    var b := if s.queue == [] then 0 else s.queue[0].b;
    assert CalmThread(s, t) && CalmGather(s, b);
    CalmAfter(s, Apply(s, Critical(t)), t, b);
  }

  lemma CalmTakeGil(s: State, t: nat)
    requires Calm(s) && Enabled(s, TakeGil(t))
    ensures Calm(GilTaken(s, t))
  {
    var b := if s.threads[t].pc.Par? then s.threads[t].pc.b else 0;
    assert CalmThread(s, t) && CalmGather(s, b);
    CalmAfter(s, GilTaken(s, t), t, b);
  }

  lemma CalmOther(s: State, a: Step)
    requires Calm(s) && Enabled(s, a) && Proper(s, a) && Friendly(a) && !a.Critical? && !a.TakeGil?
    ensures Calm(Apply(s, a))
  {
    var b := if s.threads[a.t].pc.Par? then s.threads[a.t].pc.b else 0;
    assert CalmThread(s, a.t) && CalmGather(s, b);
    CalmAfter(s, Apply(s, a), a.t, b);
  }

  lemma CalmStep(s: State, a: Step)
    requires Calm(s) && Enabled(s, a) && Proper(s, a) && Friendly(a)
    ensures Calm(Apply(s, a))
  {
    if a.Critical? {
      assert CalmThread(s, a.t);
      if s.threads[a.t].pc.Par? {
        CalmPar(s, a.t, s.threads[a.t].pc.b);
      } else if s.threads[a.t].pc.TaskStart? || s.threads[a.t].pc.TaskEnd? {
        CalmTask(s, a.t);
      } else {
        CalmSeek(s, a.t);
      }
    } else if a.TakeGil? {
      CalmTakeGil(s, a.t);
    } else {
      CalmOther(s, a);
    }
  }

  /** A thunk that ends might as well end with a value. */
  lemma ValueInstead(s: State, a: Step) returns (a': Step)
    requires Advances(s, a)
    ensures Advances(s, a') && Friendly(a')
  {
    a' := a;
    if a.FinishThunk? {
      a' := FinishThunk(a.t, Value(0));
      RankThread(s, Apply(s, a), a.t);
      RankThread(s, Apply(s, a'), a.t);
    }
  }

  lemma {:induction false} CalmReturn(s: State) returns (s': State)
    requires Reachable(s) && Calm(s)
    ensures Reachable(s') && Calm(s') && |s'.gathers| >= |s.gathers|
    ensures forall b :: 0 <= b < |s'.gathers| ==> s'.gathers[b].phase.Returned?
    decreases Rank(s)
  {
    if b :| 0 <= b < |s.gathers| && !s.gathers[b].phase.Returned? {
      NoParIsStuck(s, b);
      var any :| Advances(s, any);
      var a := ValueInstead(s, any);
      CalmStep(s, a);
      StepReaches(s, a);
      StepFreezes(s, a, |s.gathers| - 1);
      s' := CalmReturn(Apply(s, a));
    } else {
      s' := s;
    }
  }

  lemma CalmOpen(s: State)
    requires |s.gathers| == 1 && CalmBatch(s.gathers[0]) && |s.threads| >= 2
    requires s.threads[0].pc.Par? && s.threads[1].pc.Host? && forall t :: 2 <= t < |s.threads| ==> s.threads[t].pc.Seek?
    ensures Calm(s)
  {
    forall t: nat ensures CalmThread(s, t) {}
    forall b: nat ensures CalmGather(s, b) {}
  }

  /** Some reachable state has a returned `par` that nothing stopped: it has its values. */
  lemma SomeParReturns(made: nat, count: nat, quota: int) returns (s: State)
    requires 0 < made <= WORKERS_MAX && count >= 2
    ensures Reachable(s) && |s.gathers| > 0 && s.gathers[0].phase.Returned?
    ensures !s.gathers[0].interrupted && !SomeStopping(s.gathers[0].tasks)
    ensures s.gathers[0].phase.answer.Values?
  {
    var open := OpenPar("main", true, made, count, quota);
    CalmOpen(open);
    s := CalmReturn(open);
    assert CalmGather(s, 0);
    SettledAnswer(s, 0);
    ValuesInOrder(Outcomes(s.gathers[0]));
  }

  // ----- an interrupt

  /** The caller has submitted its first tasks and let the GIL go. */
  lemma SubmittedPar(made: nat, count: nat, quota: int) returns (s: State)
    requires 0 < made <= WORKERS_MAX && count >= 2
    ensures Reachable(s) && |s.gathers| == 1 && s.gathers[0].phase == Check && s.gathers[0].owner == 0
    ensures |s.gathers[0].tasks| == count && s.linked == [0] && s.gil.None? && s.lock.None?
    ensures s.firstWorker == 2 && |s.threads| == made + 2 && s.threads[1] == Thread([], Host, None, NewRuns())
  {
    s := LinkedPar(made, count, quota);
    s := After(s, Acquire(0));
    s := After(s, Critical(0));
  }

  lemma LinkedPar(made: nat, count: nat, quota: int) returns (s: State)
    requires 0 < made <= WORKERS_MAX && count >= 2
    ensures Reachable(s) && |s.gathers| == 1 && s.gathers[0].phase == Submit && s.gathers[0].owner == 0
    ensures |s.gathers[0].tasks| == count && !s.gathers[0].stopped && s.linked == [0] && s.lock.None?
    ensures s.firstWorker == 2 && |s.threads| == made + 2 && s.threads[0].pc == Par(0) && s.threads[1] == Thread([], Host, None, NewRuns())
  {
    s := OpenPar("main", true, made, count, quota);
    s := After(s, Acquire(0));
    s := After(s, Critical(0));
  }

  /** Some reachable state is about to mark an open batch. */
  lemma SomeMark(made: nat, count: nat, quota: int) returns (s: State)
    requires 0 < made <= WORKERS_MAX && count >= 2
    ensures Reachable(s) && Enabled(s, Critical(1)) && s.threads[1].pc == Mark(0)
    ensures |s.gathers| == 1 && !s.gathers[0].phase.Returned? && s.gathers[0].owner == 0 && |s.gathers[0].tasks| == count
    ensures s.linked == [0]
  {
    s := SubmittedPar(made, count, quota);
    s := After(s, Interrupt(1, 0));
    s := After(s, TakeGil(1));
    s := After(s, Acquire(1));
  }
}
