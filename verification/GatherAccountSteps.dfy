/** Every step keeps sessions and budgets in line with the stacks; so a host call is
    attributed to the innermost run, and a thunk's to the session that called `par`. */
module GatherAccountSteps {
  import opened Basics
  import opened RunStacks
  import opened GatherAnswers
  import opened GatherModel
  import opened GatherInvariant
  import opened GatherParSteps
  import opened GatherTaskSteps
  import opened GatherInterrupt
  import opened GatherAccounts

  lemma LabelsKept(s: State, a: Step)
    requires Enabled(s, a)
    ensures SameLabels(s.gathers, Apply(s, a).gathers)
  {
    if |s.gathers| > 0 { StepFreezes(s, a, 0); }
    forall b | 0 <= b < |s.gathers| ensures Frozen(s.gathers[b], Apply(s, a).gathers[b]) { StepFreezes(s, a, b); }
  }

  /** A gather that has returned is never touched again. */
  lemma ParReturnedKept(s: State, t: nat, b: nat)
    requires Enabled(s, Critical(t)) && s.threads[t].pc.Par? && b < |s.gathers| && s.gathers[b].phase.Returned?
    requires s.threads[t].pc.b != b
    ensures Section(s, t).gathers[b].phase.Returned?
  {
    var c := s.threads[t].pc.b;
    if s.gathers[c].phase.Check? || s.gathers[c].phase.Woken? {
      assert ParSection(s, t, c) == TakenBack(s, t, c) || ParSection(s, t, c) == Looked(s, c);
    } else {
      var s' := ParSection(s, t, c);
      assert s'.gathers == s.gathers[c := s'.gathers[c]];
    }
  }

  lemma TaskReturnedKept(s: State, t: nat, b: nat)
    requires Enabled(s, Critical(t)) && !s.threads[t].pc.Par? && b < |s.gathers| && s.gathers[b].phase.Returned?
    requires s.threads[t].pc.TaskEnd? ==> Worker(s, t) || Top(s.threads[t]).b != b
    ensures Section(s, t).gathers[b].phase.Returned?
  {
  }

  lemma ReturnedKept(s: State, a: Step, b: nat)
    requires Inv(s) && Enabled(s, a) && b < |s.gathers| && s.gathers[b].phase.Returned?
    ensures b < |Apply(s, a).gathers| && Apply(s, a).gathers[b].phase.Returned?
  {
    StepFreezes(s, a, b);
    if (a.Critical? || a.TakeGil? || a.Wake? || a.AnswerPar?) && s.threads[a.t].pc.Par? { Stands(s, a.t); }
    if a.Critical? {
      if s.threads[a.t].pc.TaskEnd? { TopTask(s, a.t); }
      if s.threads[a.t].pc.Par? { ParReturnedKept(s, a.t, b); } else { TaskReturnedKept(s, a.t, b); }
    } else {
      OtherReturnedKept(s, a, b);
    }
  }

  lemma OtherReturnedKept(s: State, a: Step, b: nat)
    requires Enabled(s, a) && !a.Critical? && b < |s.gathers| && s.gathers[b].phase.Returned?
    requires (a.TakeGil? || a.Wake? || a.AnswerPar?) && s.threads[a.t].pc.Par? ==> s.threads[a.t].pc.b != b
    ensures b < |Apply(s, a).gathers| && Apply(s, a).gathers[b].phase.Returned?
  {
  }

  /** Which thread a step belongs to, for the steps that add none. */
  lemma StepIsOneStack(s: State, a: Step)
    requires Inv(s) && Enabled(s, a) && !a.StartPool?
    ensures OneStack(s, Apply(s, a), a.t)
  {
    LabelsKept(s, a);
    forall b | 0 <= b < |s.gathers| && s.gathers[b].phase.Returned? ensures Apply(s, a).gathers[b].phase.Returned? {
      ReturnedKept(s, a, b);
    }
    OtherThreadsStay(s, a);
  }

  lemma OtherThreadsStay(s: State, a: Step)
    requires Enabled(s, a) && !a.StartPool?
    ensures a.t < |s.threads| == |Apply(s, a).threads|
    ensures forall u :: 0 <= u < |s.threads| && u != a.t ==> Apply(s, a).threads[u] == s.threads[u]
    ensures !a.CallPar? ==> |Apply(s, a).gathers| == |s.gathers|
  {
    if a.Critical? { SectionOneThread(s, a.t); }
  }

  lemma SectionOneThread(s: State, t: nat)
    requires Enabled(s, Critical(t))
    ensures |Section(s, t).threads| == |s.threads| && |Section(s, t).gathers| == |s.gathers|
    ensures forall u :: 0 <= u < |s.threads| && u != t ==> Section(s, t).threads[u] == s.threads[u]
    ensures s.threads[t].pc.Par? ==> Section(s, t).threads == s.threads
  {
    if s.threads[t].pc.Par? {
      var c := s.threads[t].pc.b;
      if s.gathers[c].phase.Check? || s.gathers[c].phase.Woken? {
        assert ParSection(s, t, c) == TakenBack(s, t, c) || ParSection(s, t, c) == Looked(s, c);
      }
    }
  }

  // ----- steps that leave every stack alone

  predicate Still(s: State, a: Step)
    requires Enabled(s, a)
  {
    match a
    case Critical(t) =>
      !s.threads[t].pc.TaskEnd? && (s.threads[t].pc.TaskStart? ==> s.gathers[Top(s.threads[t]).b].stopped)
    case TakeGil(t) => !s.threads[t].pc.Claimed? && !(AtPar(s, t) && s.gathers[s.threads[t].pc.b].phase == Return(true))
    case Enter(_, _, _) => false
    case Leave(_) => false
    case FinishThunk(_, _) => false
    case CallPar(_, _, _) => false
    case AnswerPar(_) => false
    case StartPool(_, _) => false
    case _ => true
  }

  lemma StillSection(s: State, t: nat)
    requires Inv(s) && Enabled(s, Critical(t)) && Still(s, Critical(t))
    ensures var th, th' := s.threads[t], Section(s, t).threads[t];
            th'.runs == th.runs && th'.scan == th.scan && th'.frames == th.frames && Active(th') == Active(th)
  {
    SectionOneThread(s, t);
  }

  lemma StillKeeps(s: State, a: Step)
    requires Inv(s) && Accounts(s) && Enabled(s, a) && Still(s, a)
    ensures Accounts(Apply(s, a))
  {
    StepIsOneStack(s, a);
    OtherThreadsStay(s, a);
    StillStack(s, a);
    NothingMoves(s, Apply(s, a), a.t);
  }

  lemma StillStack(s: State, a: Step)
    requires Inv(s) && Enabled(s, a) && Still(s, a) && a.t < |Apply(s, a).threads|
    ensures var th, th' := s.threads[a.t], Apply(s, a).threads[a.t];
            th'.runs == th.runs && th'.scan == th.scan && th'.frames == th.frames && Active(th') == Active(th)
  {
    if a.Critical? { StillSection(s, a.t); }
  }

  // ----- tasks on a stack

  /** No open call of a thread lies on or above a frame that a step takes or puts. */
  lemma HomesBelow(s: State, t: nat, b: nat)
    requires Inv(s) && t < |s.threads| && b < |s.gathers| && s.gathers[b].owner == t && !s.gathers[b].phase.Returned?
    ensures s.gathers[b].home < |s.threads[t].frames|
    ensures !s.threads[t].pc.Par? ==> s.gathers[b].home + 1 < |s.threads[t].frames|
  {
    assert LiveOk(s, b);
  }

  lemma PushTaskKeeps(s: State, t: nat)
    requires Inv(s) && Accounts(s) && Enabled(s, TakeGil(t)) && !Still(s, TakeGil(t))
    ensures Accounts(Apply(s, TakeGil(t)))
  {
    var s' := Apply(s, TakeGil(t));
    var th, th' := s.threads[t], s'.threads[t];
    StepIsOneStack(s, TakeGil(t));
    FramesRefIn(s, t);
    assert AccountOk(s, t);
    LabelsSame(s.gathers, s'.gathers, th.frames);
    SavedSame(s.gathers, s'.gathers, th.frames);
    SavedPush(s'.gathers, th.frames, Top(th'));
    assert Active(th) == th.frames && Active(th') == th.frames;
    forall home: nat ensures SameBelow(th.frames, th'.frames, home) { PushKeepsBelow(th.frames, Top(th'), home); }
    StackMoves(s, s', t);
  }

  lemma StartTaskAccount(s: State, t: nat)
    requires Enabled(s, Critical(t)) && s.threads[t].pc.TaskStart? && AccountOk(s, t)
    requires RefsIn(s.threads[t].frames, |s.gathers|) && !s.gathers[Top(s.threads[t]).b].stopped
    ensures AccountOk(Apply(s, Critical(t)), t)
  {
    var s' := Apply(s, Critical(t));
    var th, th' := s.threads[t], s'.threads[t];
    LabelsKept(s, Critical(t));
    var below := th.frames[..|th.frames| - 1];
    assert Active(th) == below && Active(th') == th.frames;
    LabelsSame(s.gathers, s'.gathers, th.frames);
    LabelsSame(s.gathers, s'.gathers, below);
    SavedSame(s.gathers, s'.gathers, th.frames);
    PushHolds(th.runs, Names(s.gathers, below), s.gathers[Top(th).b].session);
  }

  lemma StartTaskKeeps(s: State, t: nat)
    requires Inv(s) && Accounts(s) && Enabled(s, Critical(t)) && s.threads[t].pc.TaskStart?
    requires !s.gathers[Top(s.threads[t]).b].stopped
    ensures Accounts(Apply(s, Critical(t)))
  {
    StepIsOneStack(s, Critical(t));
    OtherThreadsStay(s, Critical(t));
    FramesRefIn(s, t);
    StartTaskAccount(s, t);
    StackMoves(s, Apply(s, Critical(t)), t);
  }

  lemma FinishThunkAccounts(s: State, t: nat, outcome: Outcome)
    requires Inv(s) && Accounts(s) && Enabled(s, FinishThunk(t, outcome))
    ensures Accounts(Apply(s, FinishThunk(t, outcome)))
  {
    var s' := Apply(s, FinishThunk(t, outcome));
    var th, th' := s.threads[t], s'.threads[t];
    StepIsOneStack(s, FinishThunk(t, outcome));
    var k := |th.frames| - 1;
    assert AccountOk(s, t) && ThreadOk(s, t) && FrameOk(s, t, k);
    FinishThunkAccount(s, t, outcome);
    StackMoves(s, s', t);
  }

  lemma FinishThunkAccount(s: State, t: nat, outcome: Outcome)
    requires Enabled(s, FinishThunk(t, outcome)) && AccountOk(s, t) && Top(s.threads[t]).b < |s.gathers|
    ensures AccountOk(Apply(s, FinishThunk(t, outcome)), t)
  {
    var th, th' := s.threads[t], Apply(s, FinishThunk(t, outcome)).threads[t];
    var k := |th.frames| - 1;
    assert Active(th) == th.frames && Active(th') == th.frames[..k];
    var names := Names(s.gathers, th.frames);
    assert names == Names(s.gathers, th.frames[..k]) + [s.gathers[Top(th).b].session];
    assert names[..|names| - 1] == Names(s.gathers, th.frames[..k]);
    PopHolds(th.runs, names);
  }

  lemma EndTaskAccount(s: State, t: nat)
    requires Enabled(s, Critical(t)) && s.threads[t].pc.TaskEnd? && AccountOk(s, t)
    requires RefsIn(s.threads[t].frames, |s.gathers|) && SameLabels(s.gathers, Apply(s, Critical(t)).gathers)
    ensures AccountOk(Apply(s, Critical(t)), t)
    ensures Apply(s, Critical(t)).threads[t].frames == s.threads[t].frames[..|s.threads[t].frames| - 1]
  {
    var th, th' := s.threads[t], Apply(s, Critical(t)).threads[t];
    var below := th.frames[..|th.frames| - 1];
    assert th'.frames == below && Active(th) == below && Active(th') == below && th'.runs == th.runs && th'.scan == th.scan;
    BelowAccount(s.gathers, Apply(s, Critical(t)).gathers, th.frames);
  }

  lemma BelowAccount(gs: seq<Gather>, gs': seq<Gather>, fs: seq<Frame>)
    requires fs != [] && SameLabels(gs, gs') && RefsIn(fs, |gs|) && SavedOk(gs, fs)
    ensures var below := fs[..|fs| - 1];
            Names(gs', below) == Names(gs, below) && ScanOf(gs', below) == ScanOf(gs, below) && SavedOk(gs', below)
  {
    var below := fs[..|fs| - 1];
    SavedPop(gs, fs);
    LabelsSame(gs, gs', below);
    SavedSame(gs, gs', below);
  }

  lemma EndTaskKeeps(s: State, t: nat)
    requires Inv(s) && Accounts(s) && Enabled(s, Critical(t)) && s.threads[t].pc.TaskEnd?
    ensures Accounts(Apply(s, Critical(t)))
  {
    StepIsOneStack(s, Critical(t));
    OtherThreadsStay(s, Critical(t));
    FramesRefIn(s, t);
    assert AccountOk(s, t);
    EndTaskAccount(s, t);
    EndTaskBelow(s, Apply(s, Critical(t)), t);
    StackMoves(s, Apply(s, Critical(t)), t);
  }

  lemma EndTaskBelow(s: State, s': State, t: nat)
    requires Inv(s) && t < |s.threads| == |s'.threads| && s.threads[t].pc.TaskEnd? && s.threads[t].frames != []
    requires s'.threads[t].frames == s.threads[t].frames[..|s.threads[t].frames| - 1] && |s'.gathers| == |s.gathers|
    requires forall b :: 0 <= b < |s.gathers| && s.gathers[b].phase.Returned? ==> s'.gathers[b].phase.Returned?
    ensures forall b :: 0 <= b < |s.gathers| && s.gathers[b].owner == t && !s'.gathers[b].phase.Returned? ==>
              SameBelow(s.threads[t].frames, s'.threads[t].frames, s.gathers[b].home)
  {
    forall b | 0 <= b < |s.gathers| && s.gathers[b].owner == t && !s'.gathers[b].phase.Returned?
      ensures SameBelow(s.threads[t].frames, s'.threads[t].frames, s.gathers[b].home)
    {
      HomesBelow(s, t, b);
    }
  }

  // ----- runs of the host on a stack

  lemma EntryLabels(gs: seq<Gather>, fs: seq<Frame>, f: Frame)
    requires f.Entry?
    ensures Names(gs, fs + [f]) == Names(gs, fs) + [f.session]
    ensures ScanOf(gs, fs + [f]) == if f.brought.Some? then f.brought else ScanOf(gs, fs)
  {
    TopOfJoin(fs, f);
  }

  lemma EntryAccount(gs: seq<Gather>, th: Thread, f: Frame)
    requires Holds(th.runs, Names(gs, th.frames)) && th.scan == ScanOf(gs, th.frames) && SavedOk(gs, th.frames)
    requires f.Entry? && f.previous == th.scan && (f.brought.Some? <==> f.block && th.scan.None?)
    ensures Holds(th.runs.Push(f.session), Names(gs, th.frames + [f])) && SavedOk(gs, th.frames + [f])
    ensures (if f.brought.Some? then f.brought else th.scan) == ScanOf(gs, th.frames + [f])
  {
    EntryLabels(gs, th.frames, f);
    PushHolds(th.runs, Names(gs, th.frames), f.session);
    SavedPush(gs, th.frames, f);
  }

  lemma EnterShape(s: State, t: nat, session: string, block: bool)
    requires Enabled(s, Enter(t, session, block))
    ensures var th, s' := s.threads[t], Apply(s, Enter(t, session, block));
            var f := Entry(session, block, th.scan, if block && th.scan.None? then Some(|s.budgets|) else None);
            && th.pc.Host? && s'.gathers == s.gathers && th.runs.Valid()
            && s'.threads[t] == Thread(th.frames + [f], Guest, if f.brought.Some? then f.brought else th.scan, th.runs.Push(session))
  {
  }

  lemma EnterAccount(s: State, t: nat, session: string, block: bool)
    requires Enabled(s, Enter(t, session, block)) && AccountOk(s, t)
    ensures AccountOk(Apply(s, Enter(t, session, block)), t)
  {
    var th := s.threads[t];
    EnterShape(s, t, session, block);
    EntryAccount(s.gathers, th, Entry(session, block, th.scan, if block && th.scan.None? then Some(|s.budgets|) else None));
  }

  lemma EnterAccounts(s: State, t: nat, session: string, block: bool)
    requires Inv(s) && Accounts(s) && Enabled(s, Enter(t, session, block))
    ensures Accounts(Apply(s, Enter(t, session, block)))
  {
    StepIsOneStack(s, Enter(t, session, block));
    OtherThreadsStay(s, Enter(t, session, block));
    EnterAccount(s, t, session, block);
    StackMoves(s, Apply(s, Enter(t, session, block)), t);
  }

  lemma LeaveAccounts(s: State, t: nat)
    requires Inv(s) && Accounts(s) && Enabled(s, Leave(t))
    ensures Accounts(Apply(s, Leave(t)))
  {
    var s' := Apply(s, Leave(t));
    var th, th' := s.threads[t], s'.threads[t];
    StepIsOneStack(s, Leave(t));
    var k := |th.frames| - 1;
    assert AccountOk(s, t);
    assert Active(th) == th.frames && Active(th') == th.frames[..k];
    var names := Names(s.gathers, th.frames);
    assert names == Names(s.gathers, th.frames[..k]) + [Top(th).session];
    assert names[..|names| - 1] == Names(s.gathers, th.frames[..k]);
    PopHolds(th.runs, names);
    SavedPop(s.gathers, th.frames);
    forall b | 0 <= b < |s.gathers| && s.gathers[b].owner == t && !s'.gathers[b].phase.Returned?
      ensures SameBelow(th.frames, th'.frames, s.gathers[b].home)
    {
      HomesBelow(s, t, b);
    }
    StackMoves(s, s', t);
  }

  // ----- calls of `par`

  lemma CallAccount(s: State, t: nat, count: nat, quota: int)
    requires Enabled(s, CallPar(t, count, quota)) && AccountOk(s, t) && RefsIn(s.threads[t].frames, |s.gathers|)
    requires SameLabels(s.gathers, Apply(s, CallPar(t, count, quota)).gathers)
    ensures AccountOk(Apply(s, CallPar(t, count, quota)), t)
    ensures LabelOk(Apply(s, CallPar(t, count, quota)), |s.gathers|)
  {
    var s' := Apply(s, CallPar(t, count, quota));
    var th, th' := s.threads[t], s'.threads[t];
    assert Active(th) == th.frames && Active(th') == th'.frames;
    TopOfJoin(th.frames, InPar(|s.gathers|));
    LabelsSame(s.gathers, s'.gathers, th.frames);
    SavedSame(s.gathers, s'.gathers, th.frames);
    SavedPush(s'.gathers, th.frames, InPar(|s.gathers|));
    CurrentIsInnermost(th.runs, Names(s.gathers, th.frames));
    assert th'.frames[..|th.frames|] == th.frames;
  }

  lemma CallAccounts(s: State, t: nat, count: nat, quota: int)
    requires Inv(s) && Accounts(s) && Enabled(s, CallPar(t, count, quota))
    ensures Accounts(Apply(s, CallPar(t, count, quota)))
  {
    var s' := Apply(s, CallPar(t, count, quota));
    StepIsOneStack(s, CallPar(t, count, quota));
    FramesRefIn(s, t);
    CallAccount(s, t, count, quota);
    var fs := s.threads[t].frames;
    forall b | 0 <= b < |s.gathers| && s.gathers[b].owner == t && !s'.gathers[b].phase.Returned?
      ensures SameBelow(fs, s'.threads[t].frames, s.gathers[b].home)
    {
      PushKeepsBelow(fs, InPar(|s.gathers|), s.gathers[b].home);
    }
    StackMoves(s, s', t);
  }

  lemma AnswerAccount(s: State, t: nat)
    requires Enabled(s, AnswerPar(t)) && Top(s.threads[t]).InPar? && AccountOk(s, t)
    requires RefsIn(s.threads[t].frames, |s.gathers|) && SameLabels(s.gathers, Apply(s, AnswerPar(t)).gathers)
    ensures AccountOk(Apply(s, AnswerPar(t)), t)
  {
    PoppedAccount(s, Apply(s, AnswerPar(t)), t);
  }

  /** The frame of a `par` adds no session and no budget. */
  lemma ParAddsNothing(gs: seq<Gather>, fs: seq<Frame>)
    requires fs != [] && fs[|fs| - 1].InPar?
    ensures Names(gs, fs) == Names(gs, fs[..|fs| - 1]) && ScanOf(gs, fs) == ScanOf(gs, fs[..|fs| - 1])
  {
  }

  lemma PoppedAccount(s: State, s': State, t: nat)
    requires t < |s.threads| && t < |s'.threads| && s.threads[t].frames != [] && Top(s.threads[t]).InPar? && AccountOk(s, t)
    requires s.threads[t].pc.Par? && s'.threads[t] == PopFrame(s.threads[t]).(pc := Guest)
    requires RefsIn(s.threads[t].frames, |s.gathers|) && SameLabels(s.gathers, s'.gathers)
    ensures AccountOk(s', t)
  {
    var th, th' := s.threads[t], s'.threads[t];
    var below := th.frames[..|th.frames| - 1];
    assert Active(th) == th.frames && Active(th') == below;
    ParAddsNothing(s.gathers, th.frames);
    SavedPop(s.gathers, th.frames);
    LabelsSame(s.gathers, s'.gathers, below);
    SavedSame(s.gathers, s'.gathers, below);
  }

  lemma AnswerAccounts(s: State, t: nat)
    requires Inv(s) && Accounts(s) && Enabled(s, AnswerPar(t))
    ensures Accounts(Apply(s, AnswerPar(t)))
  {
    var s' := Apply(s, AnswerPar(t));
    StepIsOneStack(s, AnswerPar(t));
    FramesRefIn(s, t);
    assert ThreadOk(s, t);
    AnswerAccount(s, t);
    AnswerChange(s, t);
    forall b: nat | b < |s.gathers| && s.gathers[b].owner == t && !s'.gathers[b].phase.Returned?
      ensures SameBelow(s.threads[t].frames, s'.threads[t].frames, s.gathers[b].home)
    {
      AnswerSameBelow(s, s', t, b);
    }
    StackMoves(s, s', t);
  }

  lemma AnswerChange(s: State, t: nat)
    requires Enabled(s, AnswerPar(t))
    ensures var s' := Apply(s, AnswerPar(t));
            && |s'.threads| == |s.threads| && |s'.gathers| == |s.gathers|
            && s'.threads[t].frames == s.threads[t].frames[..|s.threads[t].frames| - 1]
            && s'.gathers[s.threads[t].pc.b].phase.Returned?
            && forall b :: 0 <= b < |s.gathers| && b != s.threads[t].pc.b ==> s'.gathers[b] == s.gathers[b]
  {
  }

  lemma AnswerSameBelow(s: State, s': State, t: nat, b: nat)
    requires Inv(s) && Enabled(s, AnswerPar(t)) && b < |s.gathers| && s.gathers[b].owner == t
    requires !s.gathers[b].phase.Returned? && b != s.threads[t].pc.b && t < |s'.threads|
    requires s'.threads[t].frames == s.threads[t].frames[..|s.threads[t].frames| - 1]
    ensures SameBelow(s.threads[t].frames, s'.threads[t].frames, s.gathers[b].home)
  {
    AnswerHomes(s, t, b);
    PopKeepsBelow(s.threads[t].frames, s.gathers[b].home);
  }

  lemma PushKeepsBelow(fs: seq<Frame>, f: Frame, home: nat)
    ensures SameBelow(fs, fs + [f], home)
  {
  }

  lemma PopKeepsBelow(fs: seq<Frame>, home: nat)
    requires home + 1 < |fs|
    ensures SameBelow(fs, fs[..|fs| - 1], home)
  {
  }

  /** The answering call is the topmost of its thread's open calls. */
  lemma AnswerHomes(s: State, t: nat, b: nat)
    requires Inv(s) && Enabled(s, AnswerPar(t)) && b < |s.gathers| && s.gathers[b].owner == t
    requires !s.gathers[b].phase.Returned? && b != s.threads[t].pc.b
    ensures s.gathers[b].home + 1 < |s.threads[t].frames|
  {
    assert LiveOk(s, b);
  }

  lemma StartPoolAccounts(s: State, t: nat, made: nat)
    requires Inv(s) && Accounts(s) && Enabled(s, StartPool(t, made))
    ensures Accounts(Apply(s, StartPool(t, made)))
  {
    var s' := Apply(s, StartPool(t, made));
    forall u | 0 <= u < |s'.threads| ensures AccountOk(s', u) {
      if u < |s.threads| {
        assert AccountOk(s, u) && s'.threads[u] == s.threads[u];
      } else {
        assert s'.threads[u] == Thread([], Seek, None, NewRuns());
      }
    }
    forall b | 0 <= b < |s'.gathers| ensures LabelOk(s', b) {
      assert LabelOk(s, b);
    }
  }

  lemma StepKeepsAccounts(s: State, a: Step)
    requires Inv(s) && Accounts(s) && Enabled(s, a)
    ensures Accounts(Apply(s, a))
  {
    if Still(s, a) { StillKeeps(s, a); }
    else {
      match a
      case Critical(t) => if s.threads[t].pc.TaskEnd? { EndTaskKeeps(s, t); } else { StartTaskKeeps(s, t); }
      case TakeGil(t) => PushTaskKeeps(s, t);
      case Enter(t, session, block) => EnterAccounts(s, t, session, block);
      case Leave(t) => LeaveAccounts(s, t);
      case FinishThunk(t, outcome) => FinishThunkAccounts(s, t, outcome);
      case CallPar(t, count, quota) => CallAccounts(s, t, count, quota);
      case AnswerPar(t) => AnswerAccounts(s, t);
      case StartPool(t, made) => StartPoolAccounts(s, t, made);
    }
  }
}
