/** The host's interrupt of a thread waiting in `par`: what it names, what it stops,
    and what every later state keeps of that. */
module GatherInterrupt {
  import opened Basics
  import opened GatherAnswers
  import opened GatherModel
  import opened GatherLocal
  import opened GatherInvariant
  import opened GatherLifeSteps

  // ----- the array of runners never truncates

  /** Thread `w` runs task `i` of the listed batch `b` of `target`, and is not `target`. */
  predicate RunsFor(s: State, linked: seq<nat>, target: nat, b: nat, i: nat, w: nat) {
    && b in linked && b < |s.gathers| && s.gathers[b].owner == target && i < |s.gathers[b].tasks|
    && s.gathers[b].tasks[i].runner == Some(w) && w != target
  }

  lemma {:induction false} TaskRunnersAre(ts: seq<Task>, target: nat, w: nat)
    ensures w in TaskRunners(ts, target) <==> exists i :: 0 <= i < |ts| && ts[i].runner == Some(w) && w != target
  {
    if ts != [] {
      var rest := ts[1..];
      TaskRunnersAre(rest, target, w);
      if w in TaskRunners(rest, target) {
        var i :| 0 <= i < |rest| && rest[i].runner == Some(w) && w != target;
        assert ts[i + 1].runner == Some(w);
      }
      if exists i :: 0 <= i < |ts| && ts[i].runner == Some(w) && w != target {
        var i :| 0 <= i < |ts| && ts[i].runner == Some(w) && w != target;
        if i > 0 { assert rest[i - 1].runner == Some(w); }
      }
    }
  }

  lemma {:induction false} RunnersAre(s: State, linked: seq<nat>, target: nat, w: nat)
    ensures w in Runners(s, linked, target) <==> exists b, i :: RunsFor(s, linked, target, b, i, w)
  {
    if linked != [] {
      var rest := linked[1..];
      var b0 := linked[0];
      RunnersAre(s, rest, target, w);
      if b0 < |s.gathers| && s.gathers[b0].owner == target {
        TaskRunnersAre(s.gathers[b0].tasks, target, w);
        if w in TaskRunners(s.gathers[b0].tasks, target) {
          var i :| 0 <= i < |s.gathers[b0].tasks| && s.gathers[b0].tasks[i].runner == Some(w) && w != target;
          assert RunsFor(s, linked, target, b0, i, w);
        }
      }
      if w in Runners(s, rest, target) {
        var b, i :| RunsFor(s, rest, target, b, i, w);
        assert RunsFor(s, linked, target, b, i, w);
      }
      if exists b, i :: RunsFor(s, linked, target, b, i, w) {
        var b, i :| RunsFor(s, linked, target, b, i, w);
        if b != b0 {
          assert linked == [b0] + rest;
          assert RunsFor(s, rest, target, b, i, w);
        }
      }
    }
  }

  /** A worker runs at most one task of the whole pool. */
  lemma OneTaskEach(s: State, target: nat, b: nat, i: nat, c: nat, j: nat, w: nat)
    requires Inv(s) && RunsFor(s, s.linked, target, b, i, w) && RunsFor(s, s.linked, target, c, j, w)
    ensures b == c && i == j && Worker(s, w)
  {
    assert GatherOk(s.gathers[b]) && GatherOk(s.gathers[c]);
    assert TaskOk(s.gathers[b], i) && TaskOk(s.gathers[c], j);
    assert ClaimOk(s, b, i) && ClaimOk(s, c, j);
  }

  ghost predicate OneEach(ts: seq<Task>, target: nat) {
    forall i, j :: 0 <= i < j < |ts| && ts[i].runner.Some? && ts[i].runner.value != target ==> ts[j].runner != ts[i].runner
  }

  lemma {:induction false} TaskRunnersDistinct(ts: seq<Task>, target: nat)
    requires OneEach(ts, target)
    ensures NoDup(TaskRunners(ts, target))
  {
    if ts != [] {
      var rest := ts[1..];
      forall i, j | 0 <= i < j < |rest| && rest[i].runner.Some? && rest[i].runner.value != target
        ensures rest[j].runner != rest[i].runner
      {
        assert ts[i + 1] == rest[i] && ts[j + 1] == rest[j];
      }
      TaskRunnersDistinct(rest, target);
      if ts[0].runner.Some? && ts[0].runner.value != target {
        TaskRunnersAre(rest, target, ts[0].runner.value);
        forall i | 0 <= i < |rest| ensures rest[i].runner != ts[0].runner { assert ts[i + 1] == rest[i]; }
      }
    }
  }

  lemma JoinDistinct(a: seq<nat>, b: seq<nat>)
    requires NoDup(a) && NoDup(b) && forall x :: x in a ==> x !in b
    ensures NoDup(a + b)
  {
    forall i, j | 0 <= i < j < |a + b| ensures (a + b)[i] != (a + b)[j] {
      if i < |a| <= j { assert a[i] in a && b[j - |a|] in b; }
    }
  }

  lemma {:induction false} RunnersDistinct(s: State, linked: seq<nat>, target: nat)
    requires Inv(s) && NoDup(linked) && forall b :: b in linked ==> b in s.linked
    ensures NoDup(Runners(s, linked, target))
  {
    if linked != [] {
      var rest := linked[1..];
      var b0 := linked[0];
      assert linked == [b0] + rest;
      assert b0 !in rest;
      RunnersDistinct(s, rest, target);
      if b0 < |s.gathers| && s.gathers[b0].owner == target {
        var ts := s.gathers[b0].tasks;
        forall i, j | 0 <= i < j < |ts| && ts[i].runner.Some? && ts[i].runner.value != target ensures ts[j].runner != ts[i].runner {
          if ts[j].runner == ts[i].runner { OneTaskEach(s, target, b0, i, b0, j, ts[i].runner.value); }
        }
        TaskRunnersDistinct(ts, target);
        forall w | w in TaskRunners(ts, target) ensures w !in Runners(s, rest, target) {
          TaskRunnersAre(ts, target, w);
          var i :| 0 <= i < |ts| && ts[i].runner == Some(w) && w != target;
          RunnersAre(s, rest, target, w);
          forall c, j ensures !RunsFor(s, rest, target, c, j, w) {
            if RunsFor(s, rest, target, c, j, w) { OneTaskEach(s, target, b0, i, c, j, w); }
          }
        }
        JoinDistinct(TaskRunners(ts, target), Runners(s, rest, target));
      }
    }
  }

  /** Distinct numbers of a range are no more than the range is long. */
  lemma {:induction false} Pigeonhole(xs: seq<nat>, lo: nat, n: nat)
    requires NoDup(xs) && forall x :: x in xs ==> lo <= x < lo + n
    ensures |xs| <= n
    decreases n
  {
    assert xs == [] || xs[0] in xs;
    if n > 0 {
      var top: nat := lo + n - 1;
      WithoutKeepsNoDup<nat>(xs, top);
      Pigeonhole(Without<nat>(xs, top), lo, n - 1);
      if top in xs {
        var k :| 0 <= k < |xs| && xs[k] == top;
        WithoutAt<nat>(xs, k);
      } else {
        WithoutAbsent<nat>(xs, top);
      }
    }
  }

  /** The 64-entry array holds every thread the interrupt has to reach. */
  lemma ArrayNeverTruncates(s: State, target: nat)
    requires Reachable(s)
    ensures |Runners(s, s.linked, target)| <= 64
    ensures Truncated(Runners(s, s.linked, target), WORKERS_MAX) == Runners(s, s.linked, target)
  {
    ReachableHolds(s);
    var names := Runners(s, s.linked, target);
    RunnersDistinct(s, s.linked, target);
    forall w | w in names ensures s.firstWorker <= w < s.firstWorker + s.made {
      RunnersAre(s, s.linked, target, w);
      var b, i :| RunsFor(s, s.linked, target, b, i, w);
      OneTaskEach(s, target, b, i, b, i, w);
    }
    Pigeonhole(names, s.firstWorker, s.made);
  }

  // ----- what the marking finds

  /** While the host marks, no `par` of its target is between the two ends of its life
      where the list does not hold its batch. */
  lemma AllOpenBatchesListed(s: State, t: nat, b: nat)
    requires Inv(s) && t < |s.threads| && s.threads[t].pc.Mark? && b < |s.gathers|
    requires !s.gathers[b].phase.Returned? && s.gathers[b].owner == s.threads[t].pc.target
    ensures b in s.linked
  {
    assert LiveOk(s, b) && ThreadOk(s, t);
    var owner := s.gathers[b].owner;
    assert HoldsGil(s, t) <==> s.gil == Some(t);
    assert HoldsGil(s, owner) <==> s.gil == Some(owner);
    assert Listed(s.gathers[b].phase);
  }

  /** After the marking, every unreturned batch of the target is stopped and marked,
      and each of its thunks has finished, runs on the target itself, runs on a thread
      the array names, or has not been started. */
  lemma MarkReachesEveryThunk(s: State, t: nat, b: nat, i: nat)
    requires Reachable(s) && Enabled(s, Critical(t)) && s.threads[t].pc.Mark?
    requires b < |s.gathers| && i < |s.gathers[b].tasks|
    requires !s.gathers[b].phase.Returned? && s.gathers[b].owner == s.threads[t].pc.target
    ensures var s' := Apply(s, Critical(t));
            && s'.threads[t].pc == Raise(s.threads[t].pc.target, Runners(s, s.linked, s.threads[t].pc.target))
            && s'.gathers[b].stopped && s'.gathers[b].interrupted
            && var task := s'.gathers[b].tasks[i];
               task.finished || task.runner == Some(s.threads[t].pc.target)
               || (task.runner.Some? && task.runner.value in s'.threads[t].pc.named)
               || task.starts == 0
  {
    ReachableHolds(s);
    var target := s.threads[t].pc.target;
    ArrayNeverTruncates(s, target);
    AllOpenBatchesListed(s, t, b);
    assert GatherOk(s.gathers[b]) && TaskOk(s.gathers[b], i);
    var task := s.gathers[b].tasks[i];
    if task.runner.Some? && task.runner.value != target {
      RunnersAre(s, s.linked, target, task.runner.value);
      assert RunsFor(s, s.linked, target, b, i, task.runner.value);
    }
  }

  // ----- a stopped batch stays stopped and starts nothing

  /** What no step takes back: a stop, an interrupt, that the pool was found saturated, the
      labels, and - of a stopped batch - how often each thunk was started. */
  ghost predicate Frozen(g: Gather, g': Gather) {
    && (g.stopped ==> g'.stopped) && (g.interrupted ==> g'.interrupted) && (g.saturated ==> g'.saturated)
    && g'.owner == g.owner && g'.home == g.home && g'.quota == g.quota && g'.session == g.session && g'.budget == g.budget
    && |g'.tasks| == |g.tasks|
    && (g.stopped ==> forall i :: 0 <= i < |g.tasks| ==> g'.tasks[i].starts == g.tasks[i].starts)
  }

  lemma FrozenForms(g: Gather, epoch: nat)
    ensures Frozen(g, SubmitMore(g)) && Frozen(g, DrainPhase(TakeBack(g), epoch)) && Frozen(g, DrainPhase(g, epoch))
  {
  }

  /** While it waits, the caller may at most take its own task back. */
  lemma WaitSectionFreezes(s: State, t: nat, b: nat)
    requires Enabled(s, Critical(t)) && s.threads[t].pc.Par? && b < |s.gathers|
    requires s.gathers[s.threads[t].pc.b].phase.Check? || s.gathers[s.threads[t].pc.b].phase.Woken?
    ensures b < |ParSection(s, t, s.threads[t].pc.b).gathers|
    ensures Frozen(s.gathers[b], ParSection(s, t, s.threads[t].pc.b).gathers[b])
  {
    var c := s.threads[t].pc.b;
    assert ParSection(s, t, c) == TakenBack(s, t, c) || ParSection(s, t, c) == Looked(s, c);
  }

  lemma ParSectionFreezes(s: State, t: nat, b: nat)
    requires Enabled(s, Critical(t)) && s.threads[t].pc.Par? && b < |s.gathers|
    ensures b < |ParSection(s, t, s.threads[t].pc.b).gathers|
    ensures Frozen(s.gathers[b], ParSection(s, t, s.threads[t].pc.b).gathers[b])
  {
    var c := s.threads[t].pc.b;
    var g := s.gathers[c];
    if g.phase.Check? || g.phase.Woken? {
      WaitSectionFreezes(s, t, b);
    } else {
      FrozenForms(g, s.epoch);
      var s' := ParSection(s, t, c);
      assert s'.gathers == s.gathers[c := s'.gathers[c]];
    }
  }

  lemma TaskSectionFreezes(s: State, t: nat, b: nat)
    requires Enabled(s, Critical(t)) && (s.threads[t].pc.TaskStart? || s.threads[t].pc.TaskEnd?) && b < |s.gathers|
    ensures b < |Section(s, t).gathers| && Frozen(s.gathers[b], Section(s, t).gathers[b])
  {
  }

  lemma SectionFreezes(s: State, t: nat, b: nat)
    requires Enabled(s, Critical(t)) && b < |s.gathers|
    ensures b < |Apply(s, Critical(t)).gathers| && Frozen(s.gathers[b], Apply(s, Critical(t)).gathers[b])
  {
    var pc := s.threads[t].pc;
    if pc.Par? { ParSectionFreezes(s, t, b); }
    else if pc.TaskStart? || pc.TaskEnd? { TaskSectionFreezes(s, t, b); }
  }

  lemma StepFreezes(s: State, a: Step, b: nat)
    requires Enabled(s, a) && b < |s.gathers|
    ensures b < |Apply(s, a).gathers| && Frozen(s.gathers[b], Apply(s, a).gathers[b])
  {
    if a.Critical? { SectionFreezes(s, a.t, b); } else { OtherFreezes(s, a, b); }
  }

  lemma OtherFreezes(s: State, a: Step, b: nat)
    requires Enabled(s, a) && !a.Critical? && b < |s.gathers|
    ensures b < |Apply(s, a).gathers| && Frozen(s.gathers[b], Apply(s, a).gathers[b])
  {
    if a.TakeGil? { TakeGilFreezes(s, a.t, b); }
  }

  lemma TakeGilFreezes(s: State, t: nat, b: nat)
    requires Enabled(s, TakeGil(t)) && b < |s.gathers|
    ensures b < |GilTaken(s, t).gathers| && Frozen(s.gathers[b], GilTaken(s, t).gathers[b])
  {
  }

  /** Over every run: once a batch is stopped, no thunk of it ever starts again, and an
      interrupt the host gave it is never forgotten. */
  lemma {:induction false} StoppedNeverStarts(s: State, steps: seq<Step>, b: nat)
    requires CanRun(s, steps) && b < |s.gathers|
    ensures b < |Run(s, steps).gathers| && Frozen(s.gathers[b], Run(s, steps).gathers[b])
    decreases |steps|
  {
    if steps != [] {
      StepFreezes(s, steps[0], b);
      StoppedNeverStarts(Apply(s, steps[0]), steps[1..], b);
    }
  }

  lemma {:induction false} RunJoins(s: State, first: seq<Step>, second: seq<Step>)
    requires CanRun(s, first) && CanRun(Run(s, first), second)
    ensures CanRun(s, first + second) && Run(s, first + second) == Run(Run(s, first), second)
    decreases |first|
  {
    if first == [] {
      assert first + second == second;
    } else {
      assert (first + second)[0] == first[0] && (first + second)[1..] == first[1..] + second;
      RunJoins(Apply(s, first[0]), first[1..], second);
    }
  }

  lemma RunsOn(s: State, steps: seq<Step>)
    requires Reachable(s) && CanRun(s, steps)
    ensures Reachable(Run(s, steps))
  {
    var init, first :| Initial(init) && CanRun(init, first) && Run(init, first) == s;
    RunJoins(init, first, steps);
  }

  lemma StepReaches(s: State, a: Step)
    requires Reachable(s) && Enabled(s, a)
    ensures Reachable(Apply(s, a))
  {
    assert [a][1..] == [];
    assert CanRun(s, [a]);
    RunsOn(s, [a]);
    assert Run(s, [a]) == Run(Apply(s, a), []);
  }

  /** A `par` of an interrupted thread ends in an interrupt, whatever happens between
      the mark and its answer: never in values, never in an ordinary failure. */
  lemma InterruptedParRaises(s: State, steps: seq<Step>, b: nat)
    requires Reachable(s) && CanRun(s, steps) && b < |s.gathers| && s.gathers[b].interrupted
    requires Run(s, steps).gathers != [] && b < |Run(s, steps).gathers| && Run(s, steps).gathers[b].phase.Returned?
    ensures Run(s, steps).gathers[b].phase.answer.Stops()
  {
    var s' := Run(s, steps);
    RunsOn(s, steps);
    ReachableHolds(s');
    StoppedNeverStarts(s, steps, b);
    assert GatherOk(s'.gathers[b]);
    InterruptedAnswerStops(Results(s'.gathers[b]));
  }
}
