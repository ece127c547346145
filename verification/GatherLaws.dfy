/** What the steps of the pool come to for those who ask for them: guest code that calls `par`
    or scans, the host that enters or interrupts, the tasks that wait their turn. */
module GatherLaws {
  import opened Basics
  import opened RunStacks
  import opened GatherAccounts
  import opened GatherBudgets
  import opened GatherInterrupt
  import opened GatherInvariant
  import opened GatherLifeSteps
  import opened GatherLocal
  import opened GatherModel
  import opened GatherParSteps
  import opened GatherResults

  // ----- a call

  /** Over every later run a call goes on with what its caller passed: as many tasks, and never
      more of them in flight than the quota, or one where that is none. */
  lemma CallIsKept(s: State, t: nat, count: nat, quota: int, steps: seq<Step>)
    requires Reachable(s) && Enabled(s, CallPar(t, count, quota)) && CanRun(Apply(s, CallPar(t, count, quota)), steps)
    ensures var s' := Run(Apply(s, CallPar(t, count, quota)), steps);
            && |s.gathers| < |s'.gathers|
            && var g := s'.gathers[|s.gathers|];
               g.owner == t && |g.tasks| == count && g.quota == (if quota < 1 then 1 else quota) && 0 <= g.outstanding <= g.quota
  {
    var first := Apply(s, CallPar(t, count, quota));
    var s' := Run(first, steps);
    StepReaches(s, CallPar(t, count, quota));
    StoppedNeverStarts(first, steps, |s.gathers|);
    RunsOn(first, steps);
    ReachableHolds(s');
    OutstandingIsQueuedPlusClaimed(s'.gathers[|s.gathers|]);
  }

  /** Submitting goes on until the quota is in flight or nothing is left to submit, and the
      tasks join the queue at its end, in order. */
  lemma SubmitFills(s: State, t: nat, b: nat)
    requires Reachable(s) && Enabled(s, Critical(t)) && s.threads[t].pc == Par(b)
    requires s.gathers[b].phase.Submit? && !s.gathers[b].stopped
    ensures var s' := Apply(s, Critical(t));
            var g, g' := s.gathers[b], s'.gathers[b];
            && (g'.outstanding == g'.quota || g'.submitted == |g'.tasks|)
            && g.submitted <= g'.submitted && s.queue <= s'.queue && |s'.queue| - |s.queue| == g'.submitted - g.submitted
            && forall i :: g.submitted <= i < g'.submitted ==> s'.queue[|s.queue| + i - g.submitted] == TaskRef(b, i)
  {
    ReachableHolds(s);
    assert GatherOk(s.gathers[b]);
  }

  /** The caller runs its own task when it finds it still queued after a wait that timed out, or
      at once where the pool was found saturated before and no worker idles; it waits on exactly
      while the task has not finished and the batch is not stopped. */
  lemma CallerHelps(s: State, t: nat, b: nat)
    requires Reachable(s) && Enabled(s, Critical(t)) && s.threads[t].pc == Par(b)
    requires s.gathers[b].phase.Check? || s.gathers[b].phase.Woken?
    ensures var s' := Apply(s, Critical(t));
            var g, g' := s.gathers[b], s'.gathers[b];
            var late := if g.phase.Check? then g.saturated && s.idle == 0 else g.phase.timedOut;
            if late && TaskRef(b, g.at) in s.queue then
              && TaskRef(b, g.at) !in s'.queue && g'.tasks[g.at].claimer == Some(t)
              && g'.saturated && g'.phase == Return(true)
            else
              && s'.queue == s.queue && g'.tasks == g.tasks
              && (g'.phase.Wait? <==> !g.tasks[g.at].finished && !g.stopped)
  {
    ReachableHolds(s);
    if TaskRef(b, s.gathers[b].at) in s.queue { QueuedIsWaiting(s, b, s.gathers[b].at); }
  }

  /** Whoever has claimed a task goes on to run it, worker or caller, once the GIL is there. */
  lemma ClaimedIsRun(s: State, t: nat, b: nat, i: nat)
    requires Reachable(s) && Enabled(s, TakeGil(t)) && b < |s.gathers| && i < |s.gathers[b].tasks|
    requires s.threads[t].pc == Claimed(b, i) || (s.threads[t].pc == Par(b) && s.gathers[b].phase == Return(true) && s.gathers[b].at == i)
    ensures var th := Apply(s, TakeGil(t)).threads[t];
            th.pc.TaskStart? && th.frames != [] && Top(th) == InTask(b, i, s.threads[t].scan)
    ensures s.gathers[b].tasks[i].claimer == Some(t) && s.gathers[b].tasks[i].starts == 0
  {
    ReachableHolds(s);
    assert ThreadOk(s, t);
    if s.threads[t].pc.Par? {
      assert FrameOk(s, t, |s.threads[t].frames| - 1);
      assert GatherOk(s.gathers[b]);
    }
  }

  // ----- the queue

  predicate Ahead(q: seq<TaskRef>, x: TaskRef, y: TaskRef) { exists j, k :: 0 <= j < k < |q| && q[j] == x && q[k] == y }

  predicate IsSubmitted(s: State, x: TaskRef) {
    x.b < |s.gathers| && x.i < |s.gathers[x.b].tasks| && x.i < s.gathers[x.b].submitted
  }

  /** The task has left the queue and no worker has it: its caller took it, or it was taken back. */
  predicate NoWorkerHas(s: State, y: TaskRef)
    requires IsSubmitted(s, y)
  {
    var task := s.gathers[y.b].tasks[y.i];
    && y !in s.queue && (task.finished || task.claimer.Some?)
    && (task.claimer.None? || task.claimer.value == s.gathers[y.b].owner)
  }

  predicate InTurn(s: State, x: TaskRef, y: TaskRef) {
    IsSubmitted(s, x) && IsSubmitted(s, y) && (x in s.queue ==> Ahead(s.queue, x, y) || NoWorkerHas(s, y))
  }

  lemma TailAhead(q: seq<TaskRef>, x: TaskRef, y: TaskRef)
    requires NoDup(q) && q != [] && Ahead(q, x, y)
    ensures x in q[1..] ==> Ahead(q[1..], x, y)
    ensures y != q[0]
  {
    var j, k :| 0 <= j < k < |q| && q[j] == x && q[k] == y;
    if x in q[1..] {
      var i :| 0 <= i < |q[1..]| && q[1..][i] == x;
      assert q[i + 1] == x && j == i + 1;
      assert q[1..][k - 1] == y;
    }
  }

  lemma MoreAhead(q: seq<TaskRef>, more: seq<TaskRef>, x: TaskRef, y: TaskRef)
    requires Ahead(q, x, y)
    ensures Ahead(q + more, x, y)
  {
    var j, k :| 0 <= j < k < |q| && q[j] == x && q[k] == y;
    assert (q + more)[j] == x && (q + more)[k] == y;
  }

  lemma {:induction false} WithoutAhead(q: seq<TaskRef>, z: TaskRef, x: TaskRef, y: TaskRef)
    requires Ahead(q, x, y) && x != z && y != z
    ensures Ahead(Without(q, z), x, y)
    decreases |q|
  {
    var rest := Without(q[1..], z);
    var j, k :| 0 <= j < k < |q| && q[j] == x && q[k] == y;
    assert q[1..][k - 1] == y;
    if j > 0 {
      assert q[1..][j - 1] == x;
      WithoutAhead(q[1..], z, x, y);
      MoreBehind(rest, q[0], x, y);
    } else {
      FirstAhead(rest, x, y);
    }
  }

  lemma {:induction false} OthersAhead(q: seq<TaskRef>, b: nat, x: TaskRef, y: TaskRef)
    requires Ahead(q, x, y) && x.b != b && y.b != b
    ensures Ahead(WithoutGather(q, b), x, y)
    decreases |q|
  {
    var rest := WithoutGather(q[1..], b);
    var j, k :| 0 <= j < k < |q| && q[j] == x && q[k] == y;
    assert q[1..][k - 1] == y;
    if j > 0 {
      assert q[1..][j - 1] == x;
      OthersAhead(q[1..], b, x, y);
      MoreBehind(rest, q[0], x, y);
    } else {
      FirstAhead(rest, x, y);
    }
  }

  lemma MoreBehind(q: seq<TaskRef>, z: TaskRef, x: TaskRef, y: TaskRef)
    requires Ahead(q, x, y)
    ensures Ahead([z] + q, x, y)
  {
    var j, k :| 0 <= j < k < |q| && q[j] == x && q[k] == y;
    assert ([z] + q)[j + 1] == x && ([z] + q)[k + 1] == y;
  }

  lemma FirstAhead(q: seq<TaskRef>, x: TaskRef, y: TaskRef)
    requires y in q
    ensures Ahead([x] + q, x, y)
  {
    var k :| 0 <= k < |q| && q[k] == y;
    assert ([x] + q)[0] == x && ([x] + q)[k + 1] == y;
  }

  /** Of the tasks of one gather that were submitted, those out of the queue stay as they are. */
  predicate SameTurns(s: State, s': State, y: TaskRef) {
    IsSubmitted(s, y) ==>
      && IsSubmitted(s', y) && s'.gathers[y.b].owner == s.gathers[y.b].owner
      && var k, k' := s.gathers[y.b].tasks[y.i], s'.gathers[y.b].tasks[y.i];
         k'.claimer == k.claimer && (k.finished ==> k'.finished)
  }

  lemma TurnSame(s: State, s': State, x: TaskRef, y: TaskRef)
    requires InTurn(s, x, y) && s'.queue == s.queue && SameTurns(s, s', x) && SameTurns(s, s', y)
    ensures InTurn(s', x, y)
  {
  }

  lemma TurnSubmit(s: State, s': State, x: TaskRef, y: TaskRef, c: nat, from: nat, to: nat)
    requires InTurn(s, x, y) && from <= to && s'.queue == s.queue + Refs(c, from, to)
    requires c < |s.gathers| && from == s.gathers[c].submitted && SameTurns(s, s', x) && SameTurns(s, s', y)
    ensures InTurn(s', x, y)
  {
    if x in s.queue && Ahead(s.queue, x, y) { MoreAhead(s.queue, Refs(c, from, to), x, y); }
  }

  lemma TurnClaim(s: State, s': State, x: TaskRef, y: TaskRef, ref: TaskRef)
    requires InTurn(s, x, y) && ref in s.queue && s'.queue == Without(s.queue, ref)
    requires (ref != x ==> SameTurns(s, s', x)) && (ref != y ==> SameTurns(s, s', y))
    requires IsSubmitted(s', ref) && s'.gathers[ref.b].tasks[ref.i].claimer == Some(s'.gathers[ref.b].owner)
    ensures InTurn(s', x, y)
  {
    if x in s.queue && Ahead(s.queue, x, y) && ref != x && ref != y { WithoutAhead(s.queue, ref, x, y); }
  }

  lemma TurnTakeBack(s: State, s': State, x: TaskRef, y: TaskRef, c: nat)
    requires InTurn(s, x, y) && s'.queue == WithoutGather(s.queue, c)
    requires SameTurns(s, s', x) && SameTurns(s, s', y)
    requires y in s.queue && y.b == c ==> s'.gathers[c].tasks[y.i].finished && s'.gathers[c].tasks[y.i].claimer.None?
    ensures InTurn(s', x, y)
  {
    if x in s.queue && Ahead(s.queue, x, y) && x.b != c && y.b != c { OthersAhead(s.queue, c, x, y); }
  }

  lemma TurnPop(s: State, s': State, x: TaskRef, y: TaskRef)
    requires InTurn(s, x, y) && NoDup(s.queue) && s.queue != [] && s'.queue == s.queue[1..]
    requires (s.queue[0] != x ==> SameTurns(s, s', x)) && (s.queue[0] != y ==> SameTurns(s, s', y))
    requires IsSubmitted(s', s.queue[0])
    ensures InTurn(s', x, y)
  {
    if x in s.queue && Ahead(s.queue, x, y) { TailAhead(s.queue, x, y); }
    assert s.queue[0] !in s.queue[1..] && forall z :: z in s.queue[1..] ==> z in s.queue;
    assert y in s.queue || y != s.queue[0];
  }

  /** Only gather `c` changes, and it keeps its owner and what it has submitted. */
  predicate OneGather(s: State, s': State, c: nat) {
    && c < |s.gathers| == |s'.gathers| && s'.gathers == s.gathers[c := s'.gathers[c]]
    && s'.gathers[c].owner == s.gathers[c].owner && s.gathers[c].submitted <= s'.gathers[c].submitted
  }

  lemma ParSubmits(s: State, s': State, c: nat, x: TaskRef, y: TaskRef)
    requires InTurn(s, x, y) && OneGather(s, s', c) && s'.gathers[c].tasks == s.gathers[c].tasks
    requires s'.queue == s.queue + Refs(c, s.gathers[c].submitted, s'.gathers[c].submitted)
    ensures InTurn(s', x, y)
  {
    TurnSubmit(s, s', x, y, c, s.gathers[c].submitted, s'.gathers[c].submitted);
  }

  lemma ParClaims(s: State, s': State, c: nat, t: nat, x: TaskRef, y: TaskRef)
    requires Inv(s) && InTurn(s, x, y) && OneGather(s, s', c) && s.gathers[c].owner == t
    requires var ref := TaskRef(c, s.gathers[c].at); ref in s.queue && s'.queue == Without(s.queue, ref)
    requires s.gathers[c].at < |s.gathers[c].tasks| && s'.gathers[c].tasks == Claim(s.gathers[c], s.gathers[c].at, t).tasks
    ensures InTurn(s', x, y)
  {
    QueuedIsWaiting(s, c, s.gathers[c].at);
    TurnClaim(s, s', x, y, TaskRef(c, s.gathers[c].at));
  }

  lemma ParTakesBack(s: State, s': State, c: nat, x: TaskRef, y: TaskRef)
    requires Inv(s) && InTurn(s, x, y) && OneGather(s, s', c) && s'.queue == WithoutGather(s.queue, c)
    requires s'.gathers[c].tasks == TakeBack(s.gathers[c]).tasks
    ensures InTurn(s', x, y)
  {
    if y in s.queue && y.b == c { QueuedIsWaiting(s, c, y.i); }
    TurnTakeBack(s, s', x, y, c);
  }

  lemma TurnPar(s: State, t: nat, x: TaskRef, y: TaskRef)
    requires Inv(s) && Enabled(s, Critical(t)) && s.threads[t].pc.Par? && InTurn(s, x, y)
    ensures InTurn(Apply(s, Critical(t)), x, y)
  {
    var c := s.threads[t].pc.b;
    ParForms(s, t, c);
    assert ThreadOk(s, t) && FrameOk(s, t, |s.threads[t].frames| - 1);
    TurnForm(s, Apply(s, Critical(t)), c, t, x, y);
  }

  lemma TurnForm(s: State, s': State, c: nat, t: nat, x: TaskRef, y: TaskRef)
    requires Inv(s) && InTurn(s, x, y) && OneGather(s, s', c) && s.gathers[c].owner == t
    requires ParForm(s, t, c, s.gathers[c], s'.gathers[c], s'.queue)
    ensures InTurn(s', x, y)
  {
    var g, g' := s.gathers[c], s'.gathers[c];
    if s'.queue == s.queue && g'.tasks == g.tasks {
      TurnSame(s, s', x, y);
    } else if s'.queue == s.queue + Refs(c, g.submitted, g'.submitted) && g'.tasks == g.tasks {
      ParSubmits(s, s', c, x, y);
    } else if s'.queue == WithoutGather(s.queue, c) && g'.tasks == TakeBack(g).tasks {
      ParTakesBack(s, s', c, x, y);
    } else {
      ParClaims(s, s', c, t, x, y);
    }
  }

  lemma TurnSeek(s: State, t: nat, x: TaskRef, y: TaskRef)
    requires Inv(s) && Enabled(s, Critical(t)) && (s.threads[t].pc.Seek? || s.threads[t].pc.IdleWoken?) && InTurn(s, x, y)
    ensures InTurn(Apply(s, Critical(t)), x, y)
  {
    if s.queue == [] {
      TurnSame(s, Apply(s, Critical(t)), x, y);
    } else {
      QueuedIsWaiting(s, s.queue[0].b, s.queue[0].i);
      TurnPop(s, Apply(s, Critical(t)), x, y);
    }
  }

  lemma TurnTask(s: State, t: nat, x: TaskRef, y: TaskRef)
    requires Enabled(s, Critical(t)) && (s.threads[t].pc.TaskStart? || s.threads[t].pc.TaskEnd? || s.threads[t].pc.Mark?)
    requires InTurn(s, x, y)
    ensures InTurn(Apply(s, Critical(t)), x, y)
  {
    TurnSame(s, Apply(s, Critical(t)), x, y);
  }

  lemma TurnOther(s: State, a: Step, x: TaskRef, y: TaskRef)
    requires Enabled(s, a) && !a.Critical? && InTurn(s, x, y)
    ensures InTurn(Apply(s, a), x, y)
  {
    if a.TakeGil? { TurnGil(s, a.t, x, y); } else { TurnSame(s, Apply(s, a), x, y); }
  }

  lemma TurnGil(s: State, t: nat, x: TaskRef, y: TaskRef)
    requires Enabled(s, TakeGil(t)) && InTurn(s, x, y)
    ensures InTurn(Apply(s, TakeGil(t)), x, y)
  {
    TurnSame(s, Apply(s, TakeGil(t)), x, y);
  }

  lemma TurnStep(s: State, a: Step, x: TaskRef, y: TaskRef)
    requires Inv(s) && Enabled(s, a) && InTurn(s, x, y)
    ensures InTurn(Apply(s, a), x, y)
  {
    if !a.Critical? {
      TurnOther(s, a, x, y);
    } else if s.threads[a.t].pc.Par? {
      TurnPar(s, a.t, x, y);
    } else if s.threads[a.t].pc.Seek? || s.threads[a.t].pc.IdleWoken? {
      TurnSeek(s, a.t, x, y);
    } else {
      TurnTask(s, a.t, x, y);
    }
  }

  lemma {:induction false} TurnRun(s: State, steps: seq<Step>, x: TaskRef, y: TaskRef)
    requires Inv(s) && CanRun(s, steps) && InTurn(s, x, y)
    ensures InTurn(Run(s, steps), x, y)
    decreases |steps|
  {
    if steps != [] {
      TurnStep(s, steps[0], x, y);
      StepKeeps(s, steps[0]);
      TurnRun(Apply(s, steps[0]), steps[1..], x, y);
    }
  }

  /** The queue is served in order, over any run: while of two queued tasks the earlier one waits,
      the later one waits behind it, or its own caller took it, or its stopped batch took it back. */
  lemma NoOvertaking(s: State, steps: seq<Step>, x: TaskRef, y: TaskRef)
    requires Reachable(s) && CanRun(s, steps) && Ahead(s.queue, x, y)
    ensures var s' := Run(s, steps);
            && IsSubmitted(s', x) && IsSubmitted(s', y)
            && (x in s'.queue ==> Ahead(s'.queue, x, y) || NoWorkerHas(s', y))
  {
    ReachableHolds(s);
    QueuedIsWaiting(s, x.b, x.i);
    QueuedIsWaiting(s, y.b, y.i);
    TurnRun(s, steps, x, y);
  }

  /** A worker that looks for work takes the first task of the queue, and waits exactly if there
      is none. */
  lemma WorkerTakesFirst(s: State, t: nat)
    requires Reachable(s) && Enabled(s, Critical(t)) && (s.threads[t].pc.Seek? || s.threads[t].pc.IdleWoken?)
    ensures var s' := Apply(s, Critical(t));
            if s.queue == [] then s'.queue == [] && s'.threads[t].pc.Idle? && s'.gathers == s.gathers
            else
              var x := s.queue[0];
              && [x] + s'.queue == s.queue && s'.threads[t].pc == Claimed(x.b, x.i)
              && IsSubmitted(s', x) && s'.gathers[x.b].tasks[x.i].claimer == Some(t)
  {
    ReachableHolds(s);
    if s.queue != [] { QueuedIsWaiting(s, s.queue[0].b, s.queue[0].i); }
  }

  // ----- an interrupt

  /** The mark stops the target's open batches and leaves all others as they are; of those it
      stops it changes nothing but that, and it moves no task and no other thread. */
  lemma MarkSpares(s: State, t: nat, b: nat)
    requires Reachable(s) && Enabled(s, Critical(t)) && s.threads[t].pc.Mark? && b < |s.gathers|
    ensures var s' := Apply(s, Critical(t));
            var g, g' := s.gathers[b], s'.gathers[b];
            && s'.queue == s.queue && s'.linked == s.linked && |s'.gathers| == |s.gathers|
            && (forall u :: 0 <= u < |s.threads| && u != t ==> s'.threads[u] == s.threads[u])
            && if g.owner == s.threads[t].pc.target && !g.phase.Returned? then g' == g.(stopped := true, interrupted := true)
               else g' == g
  {
    ReachableHolds(s);
    if s.gathers[b].owner == s.threads[t].pc.target && !s.gathers[b].phase.Returned? {
      AllOpenBatchesListed(s, t, b);
    }
    if b in s.linked {
      var k :| 0 <= k < |s.linked| && s.linked[k] == b;
      assert Listed(s.gathers[s.linked[k]].phase);
    }
  }

  // ----- the host's code

  /** Code the host runs on a thread is that of its session, inside whatever runs there; a block
      without a budget around it starts with a whole one. */
  lemma EnteredRunsAs(s: State, t: nat, session: string, block: bool)
    requires Reachable(s) && Enabled(s, Enter(t, session, block))
    ensures var s' := Apply(s, Enter(t, session, block));
            var th := s'.threads[t];
            && th.runs.Valid() && th.runs.Current() == Attribution(Names(s.gathers, s.threads[t].frames) + [session])
            && s'.gil == Some(t) && th.pc.Guest?
            && (!block || s.threads[t].scan.Some? ==> th.scan == s.threads[t].scan && s'.budgets == s.budgets)
            && (block && s.threads[t].scan.None? ==>
                  && th.scan == Some(|s.budgets|) && |s'.budgets| == |s.budgets| + 1
                  && s'.budgets[|s.budgets|].remaining == 10000)
  {
    ReachableAccounts(s);
    var th := s.threads[t];
    assert AccountOk(s, t) && Active(th) == th.frames;
    PushHolds(th.runs, Names(s.gathers, th.frames), session);
    CurrentIsInnermost(th.runs.Push(session), Names(s.gathers, th.frames) + [session]);
  }

  /** Guest code that gives the GIL up leaves it to anyone, and goes on as it was when it has it
      again. */
  lemma DropIsUndone(s: State, t: nat)
    requires Reachable(s) && Enabled(s, DropGil(t))
    ensures Apply(s, DropGil(t)).gil.None?
    ensures Enabled(Apply(s, DropGil(t)), TakeGil(t)) && Apply(Apply(s, DropGil(t)), TakeGil(t)) == s
  {
    ReachableHolds(s);
    assert ThreadOk(s, t) && (HoldsGil(s, t) <==> s.gil == Some(t));
    var back := Apply(Apply(s, DropGil(t)), TakeGil(t));
    assert back.threads == s.threads;
  }

  /** Code the host ran that is over leaves its thread with the stack, the budget and the session
      it found, and lets the GIL go. */
  lemma EnterIsUndone(s: State, t: nat, session: string, block: bool)
    requires Reachable(s) && Enabled(s, Enter(t, session, block))
    ensures var mid := Apply(s, Enter(t, session, block));
            && Enabled(mid, Leave(t))
            && var th, th' := s.threads[t], Apply(mid, Leave(t)).threads[t];
               && th'.frames == th.frames && th'.scan == th.scan && th'.pc == th.pc && Apply(mid, Leave(t)).gil.None?
               && th'.runs.Valid() && th'.runs.Current() == th.runs.Current()
  {
    var mid := Apply(s, Enter(t, session, block));
    EnteredThread(s, t, session, block);
    LeftThread(mid, t);
    PushIsUndone(s.threads[t].runs, session);
    var fs := s.threads[t].frames;
    assert mid.threads[t].frames[..|fs|] == fs;
  }

  lemma EnteredThread(s: State, t: nat, session: string, block: bool)
    requires Enabled(s, Enter(t, session, block))
    ensures var mid := Apply(s, Enter(t, session, block));
            var th, th' := s.threads[t], mid.threads[t];
            && Enabled(mid, Leave(t)) && |th'.frames| == |th.frames| + 1 && th.frames <= th'.frames && th.pc.Host?
            && Top(th').Entry? && Top(th').block == block && Top(th').previous == th.scan
            && (!block ==> th'.scan == th.scan) && th'.runs == th.runs.Push(session)
  {
  }

  lemma LeftThread(s: State, t: nat)
    requires Enabled(s, Leave(t))
    ensures var th, th' := s.threads[t], Apply(s, Leave(t)).threads[t];
            && th'.frames == th.frames[..|th.frames| - 1] && th'.pc.Host? && Apply(s, Leave(t)).gil.None?
            && th'.scan == (if Top(th).block then Top(th).previous else th.scan) && th'.runs == th.runs.Pop()
  {
  }

  /** A counted scan under a budget takes one entry of it, until 10000 have been handed out;
      other scans take none, and no scan touches another budget. */
  lemma ScanTakesOne(s: State, t: nat, exempt: bool, h: nat)
    requires Reachable(s) && Enabled(s, Scan(t, exempt)) && h < |s.budgets|
    ensures var s' := Apply(s, Scan(t, exempt));
            var counted := !exempt && s.threads[t].scan == Some(h);
            && |s'.budgets| == |s.budgets| && s'.threads == s.threads && s'.gathers == s.gathers
            && s'.budgets[h].handed == s.budgets[h].handed + (if counted && s.budgets[h].handed < 10000 then 1 else 0)
            && s'.budgets[h].references == s.budgets[h].references
  {
    EntriesNeverExceedBudget(s, h);
  }
}
