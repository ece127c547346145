/** What a thread's stack says about the session its code runs for and the scan budget
    it spends from, and that each step keeps both in line with the stack. */
module GatherAccounts {
  import opened Basics
  import opened RunStacks
  import opened GatherModel
  import opened GatherInvariant

  /** The sessions of the runs a stack nests, outermost first. */
  function Names(gs: seq<Gather>, fs: seq<Frame>): seq<string> {
    if fs == [] then []
    else
      Names(gs, fs[..|fs| - 1])
      + (match fs[|fs| - 1]
         case Entry(session, _, _, _) => [session]
         case InPar(_) => []
         case InTask(b, _, _) => if b < |gs| then [gs[b].session] else [])
  }

  /** The budget a stack spends from: the innermost block's own, or its batch's. */
  function ScanOf(gs: seq<Gather>, fs: seq<Frame>): Option<nat> {
    if fs == [] then None
    else match fs[|fs| - 1]
         case Entry(_, _, _, brought) => if brought.Some? then brought else ScanOf(gs, fs[..|fs| - 1])
         case InPar(_) => ScanOf(gs, fs[..|fs| - 1])
         case InTask(b, _, _) => if b < |gs| then gs[b].budget else None
  }

  /** A task not yet started, or already over, is not running in its batch's name. */
  function Active(th: Thread): seq<Frame> {
    if (th.pc.TaskStart? || th.pc.TaskEnd?) && th.frames != [] then th.frames[..|th.frames| - 1] else th.frames
  }

  ghost predicate SavedOk(gs: seq<Gather>, fs: seq<Frame>) {
    forall k :: 0 <= k < |fs| ==>
      match fs[k]
      case Entry(_, block, previous, brought) =>
        previous == ScanOf(gs, fs[..k]) && (brought.Some? <==> block && previous.None?)
      case InPar(_) => true
      case InTask(_, _, previous) => previous == ScanOf(gs, fs[..k])
  }

  ghost predicate AccountOk(s: State, t: nat)
    requires t < |s.threads|
  {
    var th := s.threads[t];
    && Holds(th.runs, Names(s.gathers, Active(th)))
    && th.scan == ScanOf(s.gathers, Active(th))
    && SavedOk(s.gathers, th.frames)
  }

  function Named(session: Option<string>): string { if session.Some? then Clip(session.value) else "" }

  /** A gather carries the session and the budget its caller had when it called. */
  ghost predicate LabelOk(s: State, b: nat)
    requires b < |s.gathers|
  {
    var g := s.gathers[b];
    !g.phase.Returned? ==>
      && g.owner < |s.threads| && g.home < |s.threads[g.owner].frames|
      && g.session == Named(Attribution(Names(s.gathers, s.threads[g.owner].frames[..g.home])))
      && g.budget == ScanOf(s.gathers, s.threads[g.owner].frames[..g.home])
  }

  /** One proposition, so that a proof that ends in it is checked as a whole. */
  ghost predicate Accounts(s: State) { AllAccounts(s) == true }

  ghost predicate AllAccounts(s: State) {
    && (forall t :: 0 <= t < |s.threads| ==> AccountOk(s, t))
    && (forall b :: 0 <= b < |s.gathers| ==> LabelOk(s, b))
  }

  // ----- labels never change

  ghost predicate RefsIn(fs: seq<Frame>, n: nat) {
    forall k :: 0 <= k < |fs| && !fs[k].Entry? ==> fs[k].b < n
  }

  ghost predicate SameLabels(gs: seq<Gather>, gs': seq<Gather>) {
    && |gs| <= |gs'|
    && forall b :: 0 <= b < |gs| ==> gs'[b].session == gs[b].session && gs'[b].budget == gs[b].budget
                                     && gs'[b].owner == gs[b].owner && gs'[b].home == gs[b].home
  }

  lemma {:induction false} LabelsSame(gs: seq<Gather>, gs': seq<Gather>, fs: seq<Frame>)
    requires SameLabels(gs, gs') && RefsIn(fs, |gs|)
    ensures Names(gs', fs) == Names(gs, fs) && ScanOf(gs', fs) == ScanOf(gs, fs)
  {
    if fs != [] { LabelsSame(gs, gs', fs[..|fs| - 1]); }
  }

  lemma SavedSame(gs: seq<Gather>, gs': seq<Gather>, fs: seq<Frame>)
    requires SameLabels(gs, gs') && RefsIn(fs, |gs|) && SavedOk(gs, fs)
    ensures SavedOk(gs', fs)
  {
    forall k | 0 <= k < |fs| ensures ScanOf(gs', fs[..k]) == ScanOf(gs, fs[..k]) { LabelsSame(gs, gs', fs[..k]); }
  }

  lemma FramesRefIn(s: State, t: nat)
    requires Inv(s) && t < |s.threads|
    ensures RefsIn(s.threads[t].frames, |s.gathers|)
  {
    assert ThreadOk(s, t);
    forall k | 0 <= k < |s.threads[t].frames| && !s.threads[t].frames[k].Entry? ensures s.threads[t].frames[k].b < |s.gathers| {
      assert FrameOk(s, t, k);
    }
  }

  /** A thread whose stack, runs and budget stay as they were. */
  lemma AccountSame(s: State, s': State, t: nat)
    requires Inv(s) && t < |s.threads| && t < |s'.threads| && SameLabels(s.gathers, s'.gathers) && AccountOk(s, t)
    requires s'.threads[t].runs == s.threads[t].runs && s'.threads[t].scan == s.threads[t].scan
    requires s'.threads[t].frames == s.threads[t].frames && Active(s'.threads[t]) == Active(s.threads[t])
    ensures AccountOk(s', t)
  {
    FramesRefIn(s, t);
    LabelsSame(s.gathers, s'.gathers, Active(s.threads[t]));
    SavedSame(s.gathers, s'.gathers, s.threads[t].frames);
  }

  /** A gather whose caller's stack below the call stays as it was. */
  lemma LabelSame(s: State, s': State, b: nat)
    requires Inv(s) && b < |s.gathers| && SameLabels(s.gathers, s'.gathers) && LabelOk(s, b)
    requires s.gathers[b].phase.Returned? ==> s'.gathers[b].phase.Returned?
    requires s.gathers[b].owner < |s.threads| ==> s.gathers[b].owner < |s'.threads|
    requires var g := s.gathers[b];
             !s'.gathers[b].phase.Returned? && g.owner < |s.threads| && g.home < |s.threads[g.owner].frames| ==>
               && g.home < |s'.threads[g.owner].frames|
               && s'.threads[g.owner].frames[..g.home] == s.threads[g.owner].frames[..g.home]
    ensures LabelOk(s', b)
  {
    var g := s.gathers[b];
    if !s'.gathers[b].phase.Returned? {
      var fs := s.threads[g.owner].frames;
      FramesRefIn(s, g.owner);
      LabelsSame(s.gathers, s'.gathers, fs[..g.home]);
    }
  }

  // ----- the shapes a step's change of one stack can have

  ghost predicate OneStack(s: State, s': State, t: nat) {
    && t < |s.threads| == |s'.threads|
    && (forall u :: 0 <= u < |s.threads| && u != t ==> s'.threads[u] == s.threads[u])
    && SameLabels(s.gathers, s'.gathers)
    && (forall b :: 0 <= b < |s.gathers| && s.gathers[b].phase.Returned? ==> s'.gathers[b].phase.Returned?)
  }

  /** What lay under position `home` of a stack still lies there. */
  ghost predicate SameBelow(fs: seq<Frame>, fs': seq<Frame>, home: nat) {
    home < |fs| ==> home < |fs'| && fs'[..home] == fs[..home]
  }

  /** All stacks keep their frames below every open call of their threads. */
  lemma StackMoves(s: State, s': State, t: nat)
    requires Inv(s) && Accounts(s) && OneStack(s, s', t) && AccountOk(s', t)
    requires forall b :: |s.gathers| <= b < |s'.gathers| ==> LabelOk(s', b)
    requires forall b :: 0 <= b < |s.gathers| && s.gathers[b].owner == t && !s'.gathers[b].phase.Returned? ==>
               SameBelow(s.threads[t].frames, s'.threads[t].frames, s.gathers[b].home)
    ensures Accounts(s')
  {
    forall u | 0 <= u < |s'.threads| ensures AccountOk(s', u) {
      if u != t { AccountSame(s, s', u); }
    }
    forall b | 0 <= b < |s'.gathers| ensures LabelOk(s', b) {
      if b < |s.gathers| { LabelSame(s, s', b); }
    }
  }

  /** No stack changes at all. */
  lemma NothingMoves(s: State, s': State, t: nat)
    requires Inv(s) && Accounts(s) && OneStack(s, s', t) && |s'.gathers| == |s.gathers|
    requires s'.threads[t].runs == s.threads[t].runs && s'.threads[t].scan == s.threads[t].scan
    requires s'.threads[t].frames == s.threads[t].frames && Active(s'.threads[t]) == Active(s.threads[t])
    ensures Accounts(s')
  {
    AccountSame(s, s', t);
    StackMoves(s, s', t);
  }

  lemma TopOfJoin(fs: seq<Frame>, f: Frame)
    ensures (fs + [f])[..|fs|] == fs && (fs + [f])[|fs|] == f
  {
  }

  lemma SavedPush(gs: seq<Gather>, fs: seq<Frame>, f: Frame)
    requires SavedOk(gs, fs)
    requires match f
             case Entry(_, block, previous, brought) =>
               previous == ScanOf(gs, fs) && (brought.Some? <==> block && previous.None?)
             case InPar(_) => true
             case InTask(_, _, previous) => previous == ScanOf(gs, fs)
    ensures SavedOk(gs, fs + [f])
  {
    forall k | 0 <= k < |fs| ensures (fs + [f])[..k] == fs[..k] {}
    TopOfJoin(fs, f);
  }

  lemma SavedPop(gs: seq<Gather>, fs: seq<Frame>)
    requires fs != [] && SavedOk(gs, fs)
    ensures SavedOk(gs, fs[..|fs| - 1])
  {
    forall k | 0 <= k < |fs| - 1 ensures fs[..|fs| - 1][..k] == fs[..k] {}
  }
}
