/** The sessions and scan budgets of every reachable state: who host calls are
    attributed to, and that a block's budget is counted, shared and freed exactly. */
module GatherBudgets {
  import opened Basics
  import opened RunStacks
  import opened GatherModel
  import opened GatherLocal
  import opened GatherInvariant
  import opened GatherTaskSteps
  import opened GatherLifeSteps
  import opened GatherInterrupt
  import opened GatherAccounts
  import opened GatherAccountSteps

  // ----- references

  function FramesBring(fs: seq<Frame>, h: nat): nat {
    if fs == [] then 0
    else FramesBring(fs[..|fs| - 1], h) + (if fs[|fs| - 1].Entry? && fs[|fs| - 1].brought == Some(h) then 1 else 0)
  }

  /** The blocks, on all stacks, that entered with budget `h`. */
  function BlocksHold(ths: seq<Thread>, h: nat): nat {
    if ths == [] then 0 else BlocksHold(ths[..|ths| - 1], h) + FramesBring(ths[|ths| - 1].frames, h)
  }

  /** The batches not yet freed that spend from budget `h`. */
  function BatchesHold(gs: seq<Gather>, h: nat): nat {
    if gs == [] then 0
    else BatchesHold(gs[..|gs| - 1], h)
         + (if !gs[|gs| - 1].phase.Returned? && gs[|gs| - 1].budget == Some(h) then 1 else 0)
  }

  predicate FrameKnown(f: Frame, n: nat) { f.Entry? && f.brought.Some? ==> f.brought.value < n }

  ghost predicate Known(s: State) {
    && (forall t, k :: 0 <= t < |s.threads| && 0 <= k < |s.threads[t].frames| ==>
          FrameKnown(s.threads[t].frames[k], |s.budgets|))
    && (forall b :: 0 <= b < |s.gathers| && s.gathers[b].budget.Some? ==> s.gathers[b].budget.value < |s.budgets|)
  }

  ghost predicate BudgetOk(s: State, h: nat)
    requires h < |s.budgets|
  {
    && s.budgets[h].references == BlocksHold(s.threads, h) + BatchesHold(s.gathers, h)
    && s.budgets[h].remaining + s.budgets[h].handed == SCAN_ENTRIES
  }

  ghost predicate Budgets(s: State) {
    Known(s) && forall h :: 0 <= h < |s.budgets| ==> BudgetOk(s, h)
  }

  lemma {:induction false} BlocksUpdate(ths: seq<Thread>, h: nat, t: nat, th: Thread)
    requires t < |ths|
    ensures BlocksHold(ths[t := th], h) == BlocksHold(ths, h) + FramesBring(th.frames, h) - FramesBring(ths[t].frames, h)
  {
    var m := |ths| - 1;
    if t == m {
      assert ths[t := th][..m] == ths[..m];
    } else {
      assert ths[t := th][..m] == ths[..m][t := th];
      BlocksUpdate(ths[..m], h, t, th);
    }
  }

  lemma {:induction false} BatchesSame(gs: seq<Gather>, gs': seq<Gather>, h: nat)
    requires |gs'| == |gs|
    requires forall b :: 0 <= b < |gs| ==> gs'[b].budget == gs[b].budget && gs'[b].phase.Returned? == gs[b].phase.Returned?
    ensures BatchesHold(gs', h) == BatchesHold(gs, h)
  {
    if gs != [] { BatchesSame(gs[..|gs| - 1], gs'[..|gs| - 1], h); }
  }

  lemma {:induction false} BatchReturns(gs: seq<Gather>, b: nat, g: Gather, h: nat)
    requires b < |gs| && !gs[b].phase.Returned? && g.phase.Returned?
    ensures BatchesHold(gs[b := g], h) == BatchesHold(gs, h) - (if gs[b].budget == Some(h) then 1 else 0)
  {
    var m := |gs| - 1;
    if b == m {
      assert gs[b := g][..m] == gs[..m];
    } else {
      assert gs[b := g][..m] == gs[..m][b := g];
      BatchReturns(gs[..m], b, g, h);
    }
  }

  lemma {:induction false} NoneBring(fs: seq<Frame>, h: nat)
    requires forall k :: 0 <= k < |fs| && fs[k].Entry? ==> fs[k].brought != Some(h)
    ensures FramesBring(fs, h) == 0
  {
    if fs != [] { NoneBring(fs[..|fs| - 1], h); }
  }

  lemma {:induction false} NoneHold(ths: seq<Thread>, h: nat)
    requires forall t, k :: 0 <= t < |ths| && 0 <= k < |ths[t].frames| && ths[t].frames[k].Entry? ==>
               ths[t].frames[k].brought != Some(h)
    ensures BlocksHold(ths, h) == 0
  {
    if ths != [] {
      NoneBring(ths[|ths| - 1].frames, h);
      NoneHold(ths[..|ths| - 1], h);
    }
  }

  lemma {:induction false} NoBatchHolds(gs: seq<Gather>, h: nat)
    requires forall b :: 0 <= b < |gs| ==> gs[b].budget != Some(h)
    ensures BatchesHold(gs, h) == 0
  {
    if gs != [] { NoBatchHolds(gs[..|gs| - 1], h); }
  }

  lemma {:induction false} ABatchHolds(gs: seq<Gather>, b: nat, h: nat)
    requires b < |gs| && !gs[b].phase.Returned? && gs[b].budget == Some(h)
    ensures BatchesHold(gs, h) >= 1
  {
    if b < |gs| - 1 { ABatchHolds(gs[..|gs| - 1], b, h); }
  }

  lemma {:induction false} AFrameBrings(fs: seq<Frame>, k: nat, h: nat)
    requires k < |fs| && fs[k].Entry? && fs[k].brought == Some(h)
    ensures FramesBring(fs, h) >= 1
  {
    if k < |fs| - 1 { AFrameBrings(fs[..|fs| - 1], k, h); }
  }

  lemma {:induction false} ABlockHolds(ths: seq<Thread>, t: nat, h: nat)
    requires t < |ths| && FramesBring(ths[t].frames, h) >= 1
    ensures BlocksHold(ths, h) >= 1
  {
    if t < |ths| - 1 { ABlockHolds(ths[..|ths| - 1], t, h); }
  }

  // ----- a budget in use is referenced

  /** The frame a stack's budget comes from. */
  lemma {:induction false} ScanSource(gs: seq<Gather>, fs: seq<Frame>) returns (k: nat)
    requires ScanOf(gs, fs).Some?
    ensures k < |fs|
    ensures (fs[k].Entry? && fs[k].brought == ScanOf(gs, fs))
            || (fs[k].InTask? && fs[k].b < |gs| && gs[fs[k].b].budget == ScanOf(gs, fs))
  {
    var m := |fs| - 1;
    if (fs[m].Entry? && fs[m].brought.Some?) || fs[m].InTask? {
      k := m;
    } else {
      k := ScanSource(gs, fs[..m]);
    }
  }

  lemma StackBudgetHeld(s: State, t: nat, fs: seq<Frame>)
    requires Inv(s) && Budgets(s) && t < |s.threads| && fs <= s.threads[t].frames && ScanOf(s.gathers, fs).Some?
    ensures var h := ScanOf(s.gathers, fs).value; h < |s.budgets| && s.budgets[h].references >= 1
  {
    var h := ScanOf(s.gathers, fs).value;
    var k := ScanSource(s.gathers, fs);
    assert fs[k] == s.threads[t].frames[k];
    assert ThreadOk(s, t) && FrameOk(s, t, k);
    if fs[k].Entry? {
      assert h < |s.budgets| && BudgetOk(s, h);
      AFrameBrings(s.threads[t].frames, k, h);
      ABlockHolds(s.threads, t, h);
    } else {
      var b := fs[k].b;
      assert h < |s.budgets| && BudgetOk(s, h);
      SettledAllFinished(s.gathers[b]);
      ABatchHolds(s.gathers, b, h);
    }
  }

  lemma CurrentBudgetHeld(s: State, t: nat)
    requires Inv(s) && Accounts(s) && Budgets(s) && t < |s.threads| && s.threads[t].scan.Some?
    ensures s.threads[t].scan.value < |s.budgets| && s.budgets[s.threads[t].scan.value].references >= 1
  {
    assert AccountOk(s, t);
    StackBudgetHeld(s, t, Active(s.threads[t]));
  }

  // ----- the steps

  lemma {:induction false} TaskFrameBringsNothing(fs: seq<Frame>, f: Frame, h: nat)
    ensures FramesBring(fs + [f], h) == FramesBring(fs, h) + (if f.Entry? && f.brought == Some(h) then 1 else 0)
  {
    TopOfJoin(fs, f);
  }

  /** Which returned gathers there are changes only when `par` answers. */
  lemma OpenKept(s: State, a: Step, b: nat)
    requires Inv(s) && Enabled(s, a) && !a.AnswerPar? && b < |s.gathers| && !s.gathers[b].phase.Returned?
    ensures b < |Apply(s, a).gathers| && !Apply(s, a).gathers[b].phase.Returned?
  {
    StepFreezes(s, a, b);
    if a.Critical? { SectionOpenKept(s, a.t, b); }
  }

  lemma ParOpenKept(s: State, t: nat, c: nat)
    requires Enabled(s, Critical(t)) && s.threads[t].pc == Par(c)
    ensures var s' := ParSection(s, t, c);
            |s'.gathers| == |s.gathers| && s'.gathers == s.gathers[c := s'.gathers[c]] && !s'.gathers[c].phase.Returned?
  {
    if s.gathers[c].phase.Check? || s.gathers[c].phase.Woken? {
      assert ParSection(s, t, c) == TakenBack(s, t, c) || ParSection(s, t, c) == Looked(s, c);
    }
  }

  lemma SectionOpenKept(s: State, t: nat, b: nat)
    requires Enabled(s, Critical(t)) && b < |s.gathers| && !s.gathers[b].phase.Returned?
    ensures b < |Section(s, t).gathers| && !Section(s, t).gathers[b].phase.Returned?
  {
    if s.threads[t].pc.Par? { ParOpenKept(s, t, s.threads[t].pc.b); }
  }

  predicate Neutral(a: Step) {
    !a.Enter? && !a.Leave? && !a.CallPar? && !a.AnswerPar? && !a.StartPool? && !a.Scan?
  }

  /** Frames of tasks go on a stack or off it; the frames of blocks stay. */
  predicate BlocksStay(fs: seq<Frame>, fs': seq<Frame>) {
    || fs' == fs
    || (fs' != [] && fs'[|fs'| - 1].InTask? && fs == fs'[..|fs'| - 1])
    || (fs != [] && fs[|fs| - 1].InTask? && fs' == fs[..|fs| - 1])
  }

  lemma BlocksStayBring(fs: seq<Frame>, fs': seq<Frame>, h: nat)
    requires BlocksStay(fs, fs')
    ensures FramesBring(fs', h) == FramesBring(fs, h)
    ensures forall k :: 0 <= k < |fs'| && fs'[k].Entry? ==> k < |fs| && fs'[k] == fs[k]
  {
  }

  /** What a neutral step does to the stack of its thread. */
  lemma NeutralFrames(s: State, a: Step)
    requires Inv(s) && Enabled(s, a) && Neutral(a) && a.t < |Apply(s, a).threads|
    ensures BlocksStay(s.threads[a.t].frames, Apply(s, a).threads[a.t].frames)
    ensures Apply(s, a).budgets == s.budgets
  {
    if a.TakeGil? {
      TakeGilFrames(s, a.t);
    } else if a.Critical? {
      NeutralSection(s, a.t);
    }
  }

  lemma TakeGilFrames(s: State, t: nat)
    requires Enabled(s, TakeGil(t))
    ensures BlocksStay(s.threads[t].frames, GilTaken(s, t).threads[t].frames) && GilTaken(s, t).budgets == s.budgets
  {
    var fs := s.threads[t].frames;
    if !Still(s, TakeGil(t)) {
      assert GilTaken(s, t).threads[t].frames[..|fs|] == fs;
    }
  }

  lemma NeutralSection(s: State, t: nat)
    requires Inv(s) && Enabled(s, Critical(t))
    ensures |Section(s, t).threads| == |s.threads| && Section(s, t).budgets == s.budgets
    ensures BlocksStay(s.threads[t].frames, Section(s, t).threads[t].frames)
  {
    SectionOneThread(s, t);
    SectionBudgets(s, t);
    if s.threads[t].pc.TaskEnd? { TopTask(s, t); }
  }

  lemma SectionBudgets(s: State, t: nat)
    requires Enabled(s, Critical(t))
    ensures Section(s, t).budgets == s.budgets
  {
    if s.threads[t].pc.Par? {
      var c := s.threads[t].pc.b;
      if s.gathers[c].phase.Check? || s.gathers[c].phase.Woken? {
        assert ParSection(s, t, c) == TakenBack(s, t, c) || ParSection(s, t, c) == Looked(s, c);
      }
    }
  }

  /** Budget `h` is what blocks and batches hold of it, after a change of thread `t` alone. */
  ghost predicate Balances(s: State, s': State, t: nat, h: nat)
    requires t < |s.threads| && t < |s'.threads| && h < |s'.budgets|
  {
    && s'.budgets[h].references == BlocksHold(s.threads, h) + FramesBring(s'.threads[t].frames, h)
                                   - FramesBring(s.threads[t].frames, h) + BatchesHold(s'.gathers, h)
    && s'.budgets[h].remaining + s'.budgets[h].handed == SCAN_ENTRIES
  }

  /** A state whose threads change at `t` alone and whose budgets are what they hold. */
  lemma Recount(s: State, s': State, t: nat)
    requires t < |s.threads| && |s'.threads| == |s.threads| && s'.threads == s.threads[t := s'.threads[t]]
    requires Known(s')
    requires forall h :: 0 <= h < |s'.budgets| ==> Balances(s, s', t, h)
    ensures Budgets(s')
  {
    forall h | 0 <= h < |s'.budgets| ensures BudgetOk(s', h) {
      assert Balances(s, s', t, h);
      BlocksUpdate(s.threads, h, t, s'.threads[t]);
    }
  }

  lemma NeutralKeeps(s: State, a: Step)
    requires Inv(s) && Budgets(s) && Enabled(s, a) && Neutral(a)
    ensures Budgets(Apply(s, a))
  {
    var s' := Apply(s, a);
    OtherThreadsStay(s, a);
    LabelsKept(s, a);
    forall b | 0 <= b < |s.gathers| ensures s'.gathers[b].phase.Returned? == s.gathers[b].phase.Returned? {
      if s.gathers[b].phase.Returned? { ReturnedKept(s, a, b); } else { OpenKept(s, a, b); }
    }
    NeutralFrames(s, a);
    BlocksStayBring(s.threads[a.t].frames, Apply(s, a).threads[a.t].frames, 0);
    forall h | 0 <= h < |s'.budgets| ensures Balances(s, s', a.t, h) {
      assert BudgetOk(s, h);
      BlocksStayBring(s.threads[a.t].frames, s'.threads[a.t].frames, h);
      BatchesSame(s.gathers, s'.gathers, h);
    }
    Recount(s, s', a.t);
  }

  /** A frame goes on the stack of thread `t`, with a new budget if it brings one. */
  predicate HasEntered(s: State, s': State, t: nat) {
    && t < |s.threads| == |s'.threads| && s'.threads == s.threads[t := s'.threads[t]] && s'.gathers == s.gathers
    && s'.threads[t].frames != []
    && var f := Top(s'.threads[t]);
       && s'.threads[t].frames == s.threads[t].frames + [f] && f.Entry?
       && if f.brought.Some? then f.brought.value == |s.budgets| && s'.budgets == s.budgets + [Budget(SCAN_ENTRIES, 1, 0)]
          else s'.budgets == s.budgets
  }

  lemma EnterBalances(s: State, s': State, t: nat, h: nat)
    requires Budgets(s) && HasEntered(s, s', t) && h < |s'.budgets|
    ensures Balances(s, s', t, h)
  {
    TaskFrameBringsNothing(s.threads[t].frames, Top(s'.threads[t]), h);
    if h < |s.budgets| {
      assert BudgetOk(s, h);
    } else {
      NoneHold(s.threads, h);
      NoBatchHolds(s.gathers, h);
    }
  }

  lemma EnteredBudgets(s: State, s': State, t: nat)
    requires Budgets(s) && HasEntered(s, s', t)
    ensures Budgets(s')
  {
    forall h | 0 <= h < |s'.budgets| ensures Balances(s, s', t, h) { EnterBalances(s, s', t, h); }
    Recount(s, s', t);
  }

  lemma EnterBudgets(s: State, t: nat, session: string, block: bool)
    requires Inv(s) && Budgets(s) && Enabled(s, Enter(t, session, block))
    ensures Budgets(Apply(s, Enter(t, session, block)))
  {
    EnteredBudgets(s, Apply(s, Enter(t, session, block)), t);
  }

  /** A block that brought its budget gives its own reference back, and no other. */
  predicate HasLeft(s: State, s': State, t: nat) {
    && t < |s.threads| == |s'.threads| && s.threads[t].frames != [] && s'.threads == s.threads[t := s'.threads[t]]
    && s'.gathers == s.gathers
    && var fs := s.threads[t].frames;
       && s'.threads[t].frames == fs[..|fs| - 1] && Top(s.threads[t]).Entry?
       && s'.budgets == Release(s.budgets, Top(s.threads[t]).brought)
  }

  lemma LeaveShape(s: State, t: nat)
    requires Enabled(s, Leave(t)) && AccountOk(s, t)
    ensures HasLeft(s, Apply(s, Leave(t)), t)
  {
    assert Active(s.threads[t]) == s.threads[t].frames;
  }

  lemma LeaveBalances(s: State, s': State, t: nat, h: nat)
    requires HasLeft(s, s', t) && h < |s'.budgets| && BudgetOk(s, h)
    ensures Balances(s, s', t, h)
  {
    var fs := s.threads[t].frames;
    assert fs == fs[..|fs| - 1] + [Top(s.threads[t])];
    TaskFrameBringsNothing(fs[..|fs| - 1], Top(s.threads[t]), h);
  }

  lemma LeaveBudgets(s: State, t: nat)
    requires Accounts(s) && Budgets(s) && Enabled(s, Leave(t))
    ensures Budgets(Apply(s, Leave(t)))
  {
    LeaveShape(s, t);
    LeftBudgets(s, Apply(s, Leave(t)), t);
  }

  lemma LeftBudgets(s: State, s': State, t: nat)
    requires Budgets(s) && HasLeft(s, s', t)
    ensures Budgets(s')
  {
    forall h | 0 <= h < |s'.budgets| ensures Balances(s, s', t, h) {
      assert BudgetOk(s, h);
      LeaveBalances(s, s', t, h);
    }
    Recount(s, s', t);
  }

  /** A call of `par` adds a batch, which holds the caller's budget. */
  predicate HasCalled(s: State, s': State, t: nat) {
    && t < |s.threads| == |s'.threads| && s'.threads == s.threads[t := s'.threads[t]]
    && s'.threads[t].frames == s.threads[t].frames + [InPar(|s.gathers|)]
    && |s'.gathers| == |s.gathers| + 1 && s'.gathers[..|s.gathers|] == s.gathers && !s'.gathers[|s.gathers|].phase.Returned?
    && s'.gathers[|s.gathers|].budget == s.threads[t].scan && s'.budgets == Retain(s.budgets, s.threads[t].scan)
    && (s.threads[t].scan.Some? ==> s.threads[t].scan.value < |s.budgets|)
  }

  lemma CalledBudgets(s: State, s': State, t: nat)
    requires Budgets(s) && HasCalled(s, s', t)
    ensures Budgets(s')
  {
    forall h | 0 <= h < |s'.budgets| ensures Balances(s, s', t, h) {
      assert BudgetOk(s, h);
      TaskFrameBringsNothing(s.threads[t].frames, InPar(|s.gathers|), h);
    }
    Recount(s, s', t);
  }

  lemma CallBudgets(s: State, t: nat, count: nat, quota: int)
    requires Inv(s) && Accounts(s) && Budgets(s) && Enabled(s, CallPar(t, count, quota))
    ensures Budgets(Apply(s, CallPar(t, count, quota)))
  {
    if s.threads[t].scan.Some? { CurrentBudgetHeld(s, t); }
    assert Apply(s, CallPar(t, count, quota)).gathers[..|s.gathers|] == s.gathers;
    CalledBudgets(s, Apply(s, CallPar(t, count, quota)), t);
  }

  /** The answer of `par` frees its batch, which gives its reference back. */
  predicate HasAnswered(s: State, s': State, t: nat, b: nat) {
    && t < |s.threads| == |s'.threads| && s'.threads == s.threads[t := s'.threads[t]]
    && s.threads[t].frames != [] && Top(s.threads[t]).InPar?
    && s'.threads[t].frames == s.threads[t].frames[..|s.threads[t].frames| - 1]
    && b < |s.gathers| == |s'.gathers| && !s.gathers[b].phase.Returned? && s'.gathers[b].phase.Returned?
    && s'.gathers == s.gathers[b := s'.gathers[b]] && s'.gathers[b].budget == s.gathers[b].budget
    && s'.budgets == Release(s.budgets, s.gathers[b].budget)
  }

  lemma AnsweredBudgets(s: State, s': State, t: nat, b: nat)
    requires Budgets(s) && HasAnswered(s, s', t, b)
    ensures Budgets(s')
  {
    var fs := s.threads[t].frames;
    assert fs == fs[..|fs| - 1] + [Top(s.threads[t])];
    forall h | 0 <= h < |s'.budgets| ensures Balances(s, s', t, h) {
      assert BudgetOk(s, h);
      TaskFrameBringsNothing(fs[..|fs| - 1], Top(s.threads[t]), h);
      BatchReturns(s.gathers, b, s'.gathers[b], h);
    }
    Recount(s, s', t);
  }

  lemma AnswerBudgets(s: State, t: nat)
    requires Inv(s) && Budgets(s) && Enabled(s, AnswerPar(t))
    ensures Budgets(Apply(s, AnswerPar(t)))
  {
    assert ThreadOk(s, t);
    AnsweredBudgets(s, Apply(s, AnswerPar(t)), t, s.threads[t].pc.b);
  }

  lemma {:induction false} BlocksAppend(ths: seq<Thread>, n: nat, th: Thread, h: nat)
    requires th.frames == []
    ensures BlocksHold(ths + seq(n, _ => th), h) == BlocksHold(ths, h)
  {
    var all := ths + seq(n, _ => th);
    if n == 0 {
      assert all == ths;
    } else {
      assert all[..|all| - 1] == ths + seq(n - 1, _ => th);
      BlocksAppend(ths, n - 1, th, h);
    }
  }

  lemma StartPoolBudgets(s: State, t: nat, made: nat)
    requires Budgets(s) && Enabled(s, StartPool(t, made))
    ensures Budgets(Apply(s, StartPool(t, made)))
  {
    var s' := Apply(s, StartPool(t, made));
    forall h | 0 <= h < |s'.budgets| ensures BudgetOk(s', h) {
      assert BudgetOk(s, h);
      BlocksAppend(s.threads, made, Thread([], Seek, None, NewRuns()), h);
    }
  }

  lemma ScanBudgets(s: State, t: nat, exempt: bool)
    requires Budgets(s) && Enabled(s, Scan(t, exempt))
    ensures Budgets(Apply(s, Scan(t, exempt)))
  {
    forall h | 0 <= h < |Apply(s, Scan(t, exempt)).budgets| ensures BudgetOk(Apply(s, Scan(t, exempt)), h) {
      assert BudgetOk(s, h);
    }
  }

  lemma StepKeepsBudgets(s: State, a: Step)
    requires Inv(s) && Accounts(s) && Budgets(s) && Enabled(s, a)
    ensures Budgets(Apply(s, a))
  {
    if Neutral(a) { NeutralKeeps(s, a); } else { HoldingKeeps(s, a); }
  }

  lemma HoldingKeeps(s: State, a: Step)
    requires Inv(s) && Accounts(s) && Budgets(s) && Enabled(s, a) && !Neutral(a)
    ensures Budgets(Apply(s, a))
  {
    match a
    case Enter(t, session, block) => EnterBudgets(s, t, session, block);
    case Leave(t) => LeaveBudgets(s, t);
    case CallPar(t, count, quota) => CallBudgets(s, t, count, quota);
    case AnswerPar(t) => AnswerBudgets(s, t);
    case StartPool(t, made) => StartPoolBudgets(s, t, made);
    case Scan(t, exempt) => ScanBudgets(s, t, exempt);
  }

  // ----- every run

  lemma InitialAccounts(s: State)
    requires Initial(s)
    ensures Accounts(s) && Budgets(s)
  {
    forall t | 0 <= t < |s.threads| ensures AccountOk(s, t) {}
  }

  lemma {:induction false} RunKeepsAccounts(s: State, steps: seq<Step>)
    requires Inv(s) && Accounts(s) && Budgets(s) && CanRun(s, steps)
    ensures Accounts(Run(s, steps)) && Budgets(Run(s, steps))
    decreases |steps|
  {
    if steps != [] {
      StepKeeps(s, steps[0]);
      StepKeepsAccounts(s, steps[0]);
      StepKeepsBudgets(s, steps[0]);
      RunKeepsAccounts(Apply(s, steps[0]), steps[1..]);
    }
  }

  lemma ReachableAccounts(s: State)
    requires Reachable(s)
    ensures Inv(s) && Accounts(s) && Budgets(s)
  {
    ReachableHolds(s);
    var init, steps :| Initial(init) && CanRun(init, steps) && Run(init, steps) == s;
    InitialHolds(init);
    InitialAccounts(init);
    RunKeepsAccounts(init, steps);
  }

  // ----- what follows

  /** A host call is attributed to the innermost run of the thread it is made on, and
      to none at all once runs nest past 32. */
  lemma HostCallIsInnermost(s: State, t: nat)
    requires Reachable(s) && t < |s.threads| && s.threads[t].pc.Guest?
    ensures s.threads[t].runs.Valid()
    ensures s.threads[t].runs.Current() == Attribution(Names(s.gathers, s.threads[t].frames))
  {
    ReachableAccounts(s);
    assert AccountOk(s, t) && Active(s.threads[t]) == s.threads[t].frames;
    CurrentIsInnermost(s.threads[t].runs, Names(s.gathers, s.threads[t].frames));
  }

  /** A host call a gather's thunk makes is attributed to the session its `par` was
      called from - the one a host call of the caller itself would have had there -
      whatever thread runs it; only a caller already 32 runs deep loses it, and then to
      no session rather than to an outer one. */
  lemma ThunkCallIsCallers(s: State, t: nat)
    requires Reachable(s) && t < |s.threads| && s.threads[t].pc.Guest? && InTaskFrame(s, t)
    ensures s.threads[t].runs.Valid()
    ensures var g := s.gathers[Top(s.threads[t]).b];
            && g.owner < |s.threads| && g.home <= |s.threads[g.owner].frames|
            && var caller := Names(s.gathers, s.threads[g.owner].frames[..g.home]);
            && (Worker(s, t) || |caller| < RUN_DEPTH ==> s.threads[t].runs.Current() == Attribution(caller))
            && (!Worker(s, t) && |caller| >= RUN_DEPTH ==> s.threads[t].runs.Current() == None)
  {
    HostCallIsInnermost(s, t);
    ReachableAccounts(s);
    TopTask(s, t);
    var g := s.gathers[Top(s.threads[t]).b];
    assert LabelOk(s, Top(s.threads[t]).b);
    AttributeAgain(Names(s.gathers, s.threads[g.owner].frames[..g.home]));
    if Worker(s, t) {
      WorkerNames(s.gathers, s.threads[t].frames);
    } else {
      CallerNames(s.gathers, s.threads[t].frames, g.home);
    }
  }

  /** Running on under the name one is attributed to changes no attribution, but for the depth. */
  lemma AttributeAgain(caller: seq<string>)
    ensures var name := Named(Attribution(caller));
            && Attribution([name]) == Attribution(caller)
            && Attribution(caller + [name]) == if |caller| < RUN_DEPTH then Attribution(caller) else None
  {
  }

  lemma WorkerNames(gs: seq<Gather>, fs: seq<Frame>)
    requires |fs| == 1 && fs[0].InTask? && fs[0].b < |gs|
    ensures Names(gs, fs) == [gs[fs[0].b].session]
  {
    assert fs[..0] == [] && Names(gs, fs[..0]) == [];
  }

  lemma CallerNames(gs: seq<Gather>, fs: seq<Frame>, home: nat)
    requires |fs| == home + 2 && fs[home].InPar? && fs[home + 1].InTask? && fs[home + 1].b < |gs|
    ensures Names(gs, fs) == Names(gs, fs[..home]) + [gs[fs[home + 1].b].session]
  {
    var below := fs[..home + 1];
    assert below[..home] == fs[..home] && below[home] == fs[home];
    assert Names(gs, below) == Names(gs, fs[..home]);
  }

  /** A budget has one reference for the block that brought it and one for each batch
      not yet freed that spends from it. */
  lemma BudgetReferencesExact(s: State, h: nat)
    requires Reachable(s) && h < |s.budgets|
    ensures s.budgets[h].references == BlocksHold(s.threads, h) + BatchesHold(s.gathers, h)
  {
    ReachableAccounts(s);
    assert BudgetOk(s, h);
  }

  /** Every thread spends from the budget its stack says - so that of the outer code is
      back in place when a block or a thunk is over - and that budget is not freed. */
  lemma CurrentBudgetIsStacks(s: State, t: nat)
    requires Reachable(s) && t < |s.threads|
    ensures s.threads[t].scan == ScanOf(s.gathers, Active(s.threads[t]))
    ensures s.threads[t].scan.Some? ==>
              s.threads[t].scan.value < |s.budgets| && s.budgets[s.threads[t].scan.value].references >= 1
  {
    ReachableAccounts(s);
    assert AccountOk(s, t);
    if s.threads[t].scan.Some? { CurrentBudgetHeld(s, t); }
  }

  /** Scans are never handed more than 10000 counted entries from one budget, however
      many threads share it. */
  lemma EntriesNeverExceedBudget(s: State, h: nat)
    requires Reachable(s) && h < |s.budgets|
    ensures s.budgets[h].handed <= 10000 && s.budgets[h].handed == 10000 - s.budgets[h].remaining
  {
    ReachableAccounts(s);
    assert BudgetOk(s, h);
  }

  lemma FreedStepKeeps(s: State, a: Step, h: nat)
    requires Inv(s) && Accounts(s) && Budgets(s) && Enabled(s, a) && h < |s.budgets| && s.budgets[h].references == 0
    ensures h < |Apply(s, a).budgets| && Apply(s, a).budgets[h] == s.budgets[h]
  {
    if Neutral(a) {
      OtherThreadsStay(s, a);
      NeutralFrames(s, a);
    } else {
      if s.threads[a.t].scan.Some? { CurrentBudgetHeld(s, a.t); }
      if a.AnswerPar? {
        var b := s.threads[a.t].pc.b;
        assert BudgetOk(s, h);
        if s.gathers[b].budget == Some(h) { ABatchHolds(s.gathers, b, h); }
      }
      HoldingSpares(s, a, h);
    }
  }

  lemma HoldingSpares(s: State, a: Step, h: nat)
    requires Enabled(s, a) && !Neutral(a) && h < |s.budgets| && s.threads[a.t].scan != Some(h)
    requires a.AnswerPar? ==> s.gathers[s.threads[a.t].pc.b].budget != Some(h)
    ensures h < |Apply(s, a).budgets| && Apply(s, a).budgets[h] == s.budgets[h]
  {
  }

  /** Freed once: a budget whose references are gone is never touched again. */
  lemma {:induction false} FreedBudgetStaysFreed(s: State, steps: seq<Step>, h: nat)
    requires Reachable(s) && CanRun(s, steps) && h < |s.budgets| && s.budgets[h].references == 0
    ensures h < |Run(s, steps).budgets| && Run(s, steps).budgets[h] == s.budgets[h]
    decreases |steps|
  {
    if steps != [] {
      ReachableAccounts(s);
      FreedStepKeeps(s, steps[0], h);
      StepReaches(s, steps[0]);
      FreedBudgetStaysFreed(Apply(s, steps[0]), steps[1..], h);
    }
  }
}
