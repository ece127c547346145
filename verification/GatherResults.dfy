/** Over whole runs of the pool: what a batch records of a thunk is how that thunk ended, and
    the answer of `par` is made of the ends. */
module GatherResults {
  import opened Basics
  import opened GatherAnswers
  import opened GatherModel
  import opened GatherLocal
  import opened GatherInvariant
  import opened GatherLifeSteps
  import opened GatherParSteps
  import opened GatherSafety

  /** The step ends thunk `i` of gather `b`. */
  predicate EndsThunk(s: State, a: Step, b: nat, i: nat) {
    && a.FinishThunk? && InTaskFrame(s, a.t)
    && Top(s.threads[a.t]).b == b && Top(s.threads[a.t]).i == i
  }

  /** How the thunk ended, each time it did. */
  ghost function ThunkEnds(s: State, steps: seq<Step>, b: nat, i: nat): seq<Outcome>
    requires CanRun(s, steps)
    decreases |steps|
  {
    if steps == [] then []
    else
      (if EndsThunk(s, steps[0], b, i) then [steps[0].outcome] else [])
      + ThunkEnds(Apply(s, steps[0]), steps[1..], b, i)
  }

  // ----- what the pool knows of an end

  function TaskOf(s: State, b: nat, i: nat): Task {
    if b < |s.gathers| && i < |s.gathers[b].tasks| then s.gathers[b].tasks[i] else NewTask
  }

  predicate EndingAt(s: State, t: nat, b: nat, i: nat) {
    && t < |s.threads| && s.threads[t].pc.TaskEnd? && s.threads[t].frames != []
    && Top(s.threads[t]).InTask? && Top(s.threads[t]).b == b && Top(s.threads[t]).i == i
  }

  /** The end a thunk has come to: on record, or about to be recorded by the one who ran it. */
  function Known(s: State, b: nat, i: nat): Option<Outcome> {
    var task := TaskOf(s, b, i);
    if task.finished then task.result
    else if task.claimer.Some? && EndingAt(s, task.claimer.value, b, i) then s.threads[task.claimer.value].pc.outcome
    else None
  }

  predicate KnownAfter(s: State, s': State, a: Step, b: nat, i: nat) {
    if EndsThunk(s, a, b, i) then Known(s, b, i).None? && Known(s', b, i) == Some(a.outcome)
    else Known(s', b, i) == Known(s, b, i)
  }

  // ----- and that no step changes it, but the end itself

  /** Nothing of the task that tells its end has changed, and only thread `t` has moved. */
  predicate SameTask(k: Task, k': Task) { k'.claimer == k.claimer && k'.finished == k.finished && k'.result == k.result }

  lemma KnownSame(s: State, s': State, t: nat, b: nat, i: nat)
    requires t < |s.threads| <= |s'.threads| && SameTask(TaskOf(s, b, i), TaskOf(s', b, i))
    requires forall u :: 0 <= u < |s.threads| && u != t ==> s'.threads[u] == s.threads[u]
    requires forall u :: |s.threads| <= u < |s'.threads| ==> !EndingAt(s', u, b, i)
    requires EndingAt(s', t, b, i) ==> EndingAt(s, t, b, i) && s'.threads[t].pc == s.threads[t].pc
    requires EndingAt(s, t, b, i) ==> EndingAt(s', t, b, i)
    ensures Known(s', b, i) == Known(s, b, i)
  {
  }

  lemma KnownFinish(s: State, a: Step, b: nat, i: nat)
    requires Inv(s) && Enabled(s, a) && a.FinishThunk?
    ensures KnownAfter(s, Apply(s, a), a, b, i)
  {
    var f := Top(s.threads[a.t]);
    assert ThreadOk(s, a.t) && FrameOk(s, a.t, |s.threads[a.t].frames| - 1);
    if f.b != b || f.i != i { KnownSame(s, Apply(s, a), a.t, b, i); }
  }

  /** An unclaimed task may be claimed by a thread that ends nothing, or finish unrun. */
  predicate QuietChange(k: Task, k': Task, t: nat) {
    || SameTask(k, k')
    || (k.claimer.None? && !k.finished && k.result.None? && (k' == k.(claimer := Some(t)) || k' == k.(finished := true)))
  }

  lemma KnownQuiet(s: State, s': State, t: nat, b: nat, i: nat)
    requires t < |s.threads| == |s'.threads| && !EndingAt(s, t, b, i) && !EndingAt(s', t, b, i)
    requires forall u :: 0 <= u < |s.threads| && u != t ==> s'.threads[u] == s.threads[u]
    requires QuietChange(TaskOf(s, b, i), TaskOf(s', b, i), t)
    ensures Known(s', b, i) == Known(s, b, i)
  {
  }

  lemma TakeBackQuiet(g: Gather, i: nat, t: nat)
    requires GatherOk(g) && i < |g.tasks|
    ensures QuietChange(g.tasks[i], TakeBack(g).tasks[i], t)
  {
    assert TaskOk(g, i);
  }

  /** What the sections of `par` do to its tasks and the queue. */
  lemma ParForms(s: State, t: nat, c: nat)
    requires Enabled(s, Critical(t)) && s.threads[t].pc == Par(c)
    ensures var s' := ParSection(s, t, c);
            && s'.threads == s.threads && s'.gathers == s.gathers[c := s'.gathers[c]]
            && ParForm(s, t, c, s.gathers[c], s'.gathers[c], s'.queue)
  {
    if s.gathers[c].phase.Check? || s.gathers[c].phase.Woken? {
      WaitForms(s, t, c);
    } else if s.gathers[c].phase.Submit? {
      SubmitForms(s, t, c);
    } else {
      PassForms(s, t, c);
    }
  }

  lemma WaitForms(s: State, t: nat, c: nat)
    requires Enabled(s, Critical(t)) && s.threads[t].pc == Par(c)
    requires s.gathers[c].phase.Check? || s.gathers[c].phase.Woken?
    ensures var s' := ParSection(s, t, c); ParForm(s, t, c, s.gathers[c], s'.gathers[c], s'.queue)
  {
    assert ParSection(s, t, c) == TakenBack(s, t, c) || ParSection(s, t, c) == Looked(s, c);
  }

  lemma SubmitForms(s: State, t: nat, c: nat)
    requires Enabled(s, Critical(t)) && s.threads[t].pc == Par(c) && s.gathers[c].phase.Submit?
    ensures var s' := ParSection(s, t, c); ParForm(s, t, c, s.gathers[c], s'.gathers[c], s'.queue)
  {
  }

  lemma PassForms(s: State, t: nat, c: nat)
    requires Enabled(s, Critical(t)) && s.threads[t].pc == Par(c)
    requires !s.gathers[c].phase.Check? && !s.gathers[c].phase.Woken? && !s.gathers[c].phase.Submit?
    ensures var s' := ParSection(s, t, c); ParForm(s, t, c, s.gathers[c], s'.gathers[c], s'.queue)
  {
    if s.gathers[c].phase.Drain? && s.gathers[c].stopped { DrainForms(s, t, c); } else { KeepForms(s, t, c); }
  }

  lemma DrainForms(s: State, t: nat, c: nat)
    requires Enabled(s, Critical(t)) && s.threads[t].pc == Par(c) && s.gathers[c].phase.Drain? && s.gathers[c].stopped
    ensures var s' := ParSection(s, t, c); ParForm(s, t, c, s.gathers[c], s'.gathers[c], s'.queue)
  {
    assert ParSection(s, t, c).gathers[c] == DrainPhase(TakeBack(s.gathers[c]), s.epoch);
  }

  lemma KeepForms(s: State, t: nat, c: nat)
    requires Enabled(s, Critical(t)) && s.threads[t].pc == Par(c)
    requires var p := s.gathers[c].phase; !p.Check? && !p.Woken? && !p.Submit? && !(p.Drain? && s.gathers[c].stopped)
    ensures var s' := ParSection(s, t, c); ParForm(s, t, c, s.gathers[c], s'.gathers[c], s'.queue)
  {
    assert ParSection(s, t, c).queue == s.queue && ParSection(s, t, c).gathers[c].tasks == s.gathers[c].tasks;
  }

  predicate ParForm(s: State, t: nat, c: nat, g: Gather, g': Gather, queue: seq<TaskRef>) {
    && g'.owner == g.owner && g.submitted <= g'.submitted
    && (|| (queue == s.queue && g'.tasks == g.tasks)
        || (queue == s.queue + Refs(c, g.submitted, g'.submitted) && g'.tasks == g.tasks)
        || (TaskRef(c, g.at) in s.queue && g.at < |g.tasks| && queue == Without(s.queue, TaskRef(c, g.at))
            && g'.tasks == Claim(g, g.at, t).tasks)
        || (queue == WithoutGather(s.queue, c) && g'.tasks == TakeBack(g).tasks))
  }

  lemma ParQuiet(s: State, t: nat, c: nat, b: nat, i: nat)
    requires Inv(s) && Enabled(s, Critical(t)) && s.threads[t].pc == Par(c)
    ensures QuietChange(TaskOf(s, b, i), TaskOf(ParSection(s, t, c), b, i), t)
    ensures ParSection(s, t, c).threads == s.threads
  {
    var g := s.gathers[c];
    ParForms(s, t, c);
    assert GatherOk(g);
    if b == c && i < |g.tasks| {
      TakeBackQuiet(g, i, t);
      assert TaskOk(g, i);
      if TaskRef(c, g.at) in s.queue { QueuedIsWaiting(s, c, g.at); }
    }
  }

  lemma KnownPar(s: State, t: nat, b: nat, i: nat)
    requires Inv(s) && Enabled(s, Critical(t)) && s.threads[t].pc.Par?
    ensures Known(Apply(s, Critical(t)), b, i) == Known(s, b, i)
  {
    ParQuiet(s, t, s.threads[t].pc.b, b, i);
    KnownQuiet(s, Apply(s, Critical(t)), t, b, i);
  }

  lemma KnownSeek(s: State, t: nat, b: nat, i: nat)
    requires Inv(s) && Enabled(s, Critical(t)) && (s.threads[t].pc.Seek? || s.threads[t].pc.IdleWoken?)
    ensures Known(Apply(s, Critical(t)), b, i) == Known(s, b, i)
  {
    assert ThreadOk(s, t);
    if s.queue != [] {
      var r := s.queue[0];
      QueuedIsWaiting(s, r.b, r.i);
      assert GatherOk(s.gathers[r.b]) && TaskOk(s.gathers[r.b], r.i);
    }
    KnownQuiet(s, Apply(s, Critical(t)), t, b, i);
  }

  lemma KnownStart(s: State, t: nat, b: nat, i: nat)
    requires Inv(s) && Enabled(s, Critical(t)) && s.threads[t].pc.TaskStart?
    ensures Known(Apply(s, Critical(t)), b, i) == Known(s, b, i)
  {
    var f := Top(s.threads[t]);
    assert ThreadOk(s, t) && FrameOk(s, t, |s.threads[t].frames| - 1);
    if f.b == b && f.i == i {
      assert !s.gathers[b].tasks[i].finished && s.gathers[b].tasks[i].claimer == Some(t);
    } else {
      KnownSame(s, Apply(s, Critical(t)), t, b, i);
    }
  }

  lemma KnownEnd(s: State, t: nat, b: nat, i: nat)
    requires Inv(s) && Enabled(s, Critical(t)) && s.threads[t].pc.TaskEnd?
    ensures Known(Apply(s, Critical(t)), b, i) == Known(s, b, i)
  {
    var f := Top(s.threads[t]);
    assert ThreadOk(s, t) && FrameOk(s, t, |s.threads[t].frames| - 1);
    if f.b == b && f.i == i { KnownOwnEnd(s, t, b, i); } else { KnownSame(s, Apply(s, Critical(t)), t, b, i); }
  }

  lemma KnownOwnEnd(s: State, t: nat, b: nat, i: nat)
    requires Enabled(s, Critical(t)) && EndingAt(s, t, b, i) && TaskOf(s, b, i).claimer == Some(t) && !TaskOf(s, b, i).finished
    ensures Known(Apply(s, Critical(t)), b, i) == Known(s, b, i)
  {
    assert TaskOf(Apply(s, Critical(t)), b, i)
        == TaskOf(s, b, i).(runner := None, finished := true, result := s.threads[t].pc.outcome);
  }

  lemma KnownMark(s: State, t: nat, b: nat, i: nat)
    requires Enabled(s, Critical(t)) && s.threads[t].pc.Mark?
    ensures Known(Apply(s, Critical(t)), b, i) == Known(s, b, i)
  {
    KnownSame(s, Apply(s, Critical(t)), t, b, i);
  }

  lemma KnownTakeGil(s: State, t: nat, b: nat, i: nat)
    requires Inv(s) && Enabled(s, TakeGil(t))
    ensures Known(Apply(s, TakeGil(t)), b, i) == Known(s, b, i)
  {
    KnownSame(s, Apply(s, TakeGil(t)), t, b, i);
  }

  lemma KnownOther(s: State, a: Step, b: nat, i: nat)
    requires Enabled(s, a) && !a.FinishThunk? && !a.Critical? && !a.TakeGil?
    ensures Known(Apply(s, a), b, i) == Known(s, b, i)
  {
    KnownSame(s, Apply(s, a), a.t, b, i);
  }

  lemma KnownStep(s: State, a: Step, b: nat, i: nat)
    requires Inv(s) && Enabled(s, a)
    ensures KnownAfter(s, Apply(s, a), a, b, i)
  {
    if a.FinishThunk? {
      KnownFinish(s, a, b, i);
    } else if a.TakeGil? {
      KnownTakeGil(s, a.t, b, i);
    } else if !a.Critical? {
      KnownOther(s, a, b, i);
    } else {
      KnownSection(s, a.t, b, i);
    }
  }

  lemma KnownSection(s: State, t: nat, b: nat, i: nat)
    requires Inv(s) && Enabled(s, Critical(t))
    ensures Known(Apply(s, Critical(t)), b, i) == Known(s, b, i)
  {
    var pc := s.threads[t].pc;
    if pc.Par? {
      KnownPar(s, t, b, i);
    } else if pc.TaskStart? {
      KnownStart(s, t, b, i);
    } else if pc.TaskEnd? {
      KnownEnd(s, t, b, i);
    } else if pc.Mark? {
      KnownMark(s, t, b, i);
    } else {
      KnownSeek(s, t, b, i);
    }
  }

  // ----- whole runs

  function Shown(r: Option<Outcome>): seq<Outcome> { if r.Some? then [r.value] else [] }

  lemma {:induction false} KnownRun(s: State, steps: seq<Step>, b: nat, i: nat)
    requires Inv(s) && CanRun(s, steps)
    ensures Shown(Known(s, b, i)) + ThunkEnds(s, steps, b, i) == Shown(Known(Run(s, steps), b, i))
    decreases |steps|
  {
    if steps != [] {
      KnownStep(s, steps[0], b, i);
      StepKeeps(s, steps[0]);
      KnownRun(Apply(s, steps[0]), steps[1..], b, i);
    }
  }

  /** A thunk ends at most once, and once its task has finished the batch has on record exactly
      how: nothing if it never ran. Before that it has no result. */
  lemma RecordedAsEnded(init: State, steps: seq<Step>, b: nat, i: nat)
    requires Initial(init) && CanRun(init, steps)
    requires var s := Run(init, steps); b < |s.gathers| && i < |s.gathers[b].tasks|
    ensures var task := Run(init, steps).gathers[b].tasks[i];
            && |ThunkEnds(init, steps, b, i)| <= 1
            && (task.finished ==> Shown(task.result) == ThunkEnds(init, steps, b, i))
            && (!task.finished ==> task.result.None?)
  {
    var s := Run(init, steps);
    InitialHolds(init);
    KnownRun(init, steps, b, i);
    assert Reachable(s);
    ReachableHolds(s);
    assert GatherOk(s.gathers[b]) && TaskOk(s.gathers[b], i);
  }

  /** All thunks of gather `b` have ended, each once, as `os` says. */
  ghost predicate AllEnded(init: State, steps: seq<Step>, b: nat, os: seq<Outcome>)
    requires CanRun(init, steps)
  {
    forall i :: 0 <= i < |os| ==> ThunkEnds(init, steps, b, i) == [os[i]]
  }

  /** No thunk has ended in a way that stops its batch. */
  ghost predicate NoneStopped(init: State, steps: seq<Step>, b: nat, count: nat)
    requires CanRun(init, steps)
  {
    forall i, o :: 0 <= i < count && o in ThunkEnds(init, steps, b, i) ==> !o.Stopping?
  }

  lemma NoneOnRecord(init: State, steps: seq<Step>, b: nat)
    requires Initial(init) && CanRun(init, steps)
    requires var s := Run(init, steps); b < |s.gathers| && NoneStopped(init, steps, b, |s.gathers[b].tasks|)
    ensures !SomeStopping(Run(init, steps).gathers[b].tasks)
  {
    var g := Run(init, steps).gathers[b];
    forall i | 0 <= i < |g.tasks| && g.tasks[i].result.Some? ensures !g.tasks[i].result.value.Stopping? {
      RecordedAsEnded(init, steps, b, i);
      assert g.tasks[i].result.value in ThunkEnds(init, steps, b, i);
    }
  }

  /** How the thunks of a returned `par` ended, of which the host interrupted none and none
      stopped its batch: each has ended once, in any order and on any thread. */
  lemma EveryThunkEnded(init: State, steps: seq<Step>, b: nat) returns (os: seq<Outcome>)
    requires Initial(init) && CanRun(init, steps)
    requires var s := Run(init, steps);
             b < |s.gathers| && s.gathers[b].phase.Returned? && !s.gathers[b].interrupted && NoneStopped(init, steps, b, |s.gathers[b].tasks|)
    ensures |os| == |Run(init, steps).gathers[b].tasks| && AllEnded(init, steps, b, os)
    ensures os == Outcomes(Run(init, steps).gathers[b]) && forall i :: 0 <= i < |os| ==> !os[i].Stopping?
  {
    var s := Run(init, steps);
    var g := s.gathers[b];
    assert Reachable(s);
    NoneOnRecord(init, steps, b);
    SettledAnswer(s, b);
    os := Outcomes(g);
    forall i | 0 <= i < |os| ensures ThunkEnds(init, steps, b, i) == [os[i]] && !os[i].Stopping? {
      RecordedAsEnded(init, steps, b, i);
      assert Results(g)[i] == Ended(os)[i];
    }
  }

  /** Without an interrupt a `par` has run each thunk exactly once when it answers, and answers
      for how they ended in the run: with exactly the values in the order of the thunks if all
      gave one, else with the first failure in that order. That is what the sequential form,
      which calls them all, answers for the same ends. */
  lemma ParAnswersAsInline(init: State, steps: seq<Step>, b: nat) returns (os: seq<Outcome>)
    requires Initial(init) && CanRun(init, steps)
    requires var s := Run(init, steps);
             b < |s.gathers| && s.gathers[b].phase.Returned? && !s.gathers[b].interrupted && NoneStopped(init, steps, b, |s.gathers[b].tasks|)
    ensures var g := Run(init, steps).gathers[b];
            && |os| == |g.tasks| && AllEnded(init, steps, b, os)
            && (forall i :: 0 <= i < |os| ==> g.tasks[i].starts == 1)
            && AnswersFor(os, g.phase.answer)
            && g.phase.answer == PoolAnswer(Ended(os), false) && InlineCalls(os) == |os|
  {
    os := EveryThunkEnded(init, steps, b);
    assert Reachable(Run(init, steps));
    NoneOnRecord(init, steps, b);
    SettledAnswer(Run(init, steps), b);
    AnswerOfEnds(os);
  }

  lemma EndIsOnRecord(init: State, steps: seq<Step>, b: nat, k: nat, o: Outcome)
    requires Initial(init) && CanRun(init, steps)
    requires var s := Run(init, steps); b < |s.gathers| && s.gathers[b].phase.Returned? && k < |s.gathers[b].tasks|
    requires o in ThunkEnds(init, steps, b, k)
    ensures Run(init, steps).gathers[b].tasks[k].result == Some(o)
  {
    InitialHolds(init);
    KnownRun(init, steps, b, k);
    assert Reachable(Run(init, steps));
    ReachableHolds(Run(init, steps));
    KnownIsFinished(Run(init, steps), b, k);
    RecordedAsEnded(init, steps, b, k);
  }

  lemma KnownIsFinished(s: State, b: nat, k: nat)
    requires Inv(s) && b < |s.gathers| && s.gathers[b].phase.Returned? && k < |s.gathers[b].tasks| && Known(s, b, k).Some?
    ensures s.gathers[b].tasks[k].finished
  {
    var g := s.gathers[b];
    assert GatherOk(g) && TaskOk(g, k);
    SettledAllFinished(g);
  }

  /** If some thunk has ended in a way that stops the batch, the answer is the first such end in
      the order of the thunks, whatever the others came to and whether the host interrupts too. */
  lemma ParAnswersTheStop(init: State, steps: seq<Step>, b: nat, k: nat, o: Outcome)
    requires Initial(init) && CanRun(init, steps)
    requires var s := Run(init, steps); b < |s.gathers| && s.gathers[b].phase.Returned? && k < |s.gathers[b].tasks|
    requires o.Stopping? && o in ThunkEnds(init, steps, b, k) && NoneStopped(init, steps, b, k)
    ensures Run(init, steps).gathers[b].phase.answer == Raised(o)
  {
    var s := Run(init, steps);
    var g := s.gathers[b];
    var rs := Results(g);
    assert Reachable(s);
    ReachableHolds(s);
    assert GatherOk(g);
    EndIsOnRecord(init, steps, b, k, o);
    forall j | 0 <= j < k && rs[..k][j].Some? ensures !rs[..k][j].value.Stopping? {
      RecordedAsEnded(init, steps, b, j);
      assert rs[j].value in ThunkEnds(init, steps, b, j);
    }
    FirstStopWins(rs, g.interrupted, k);
  }
}
