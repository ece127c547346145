/** The stages of a spawn: what it holds, and what it has put into the tables, after each. */
module JailStages {
  import opened Basics
  import opened JailHandles
  import opened JailInvariant
  import opened JailModel
  import opened JailProcesses

  /** Using up ids changes nothing else. */
  lemma LaterIds(s: State, s': State)
    requires Tables(s) && Shut(s) && s'.nextId >= s.nextId
    requires s'.contexts == s.contexts && s'.streams == s.streams && s'.processes == s.processes
    ensures Tables(s') && Shut(s')
  {
    forall c: nat, d: nat ensures ContextIds(s', c, d) { assert ContextIds(s, c, d); }
    forall i: nat, j: nat ensures StreamIds(s', i, j) { assert StreamIds(s, i, j); }
    forall k: nat, l: nat ensures ProcessIds(s', k, l) { assert ProcessIds(s, k, l); }
    forall i: nat ensures StreamAt(s', i) && BelongsAt(s', i) { assert StreamAt(s, i) && BelongsAt(s, i); }
    forall k: nat ensures ProcessAt(s', k) { assert ProcessAt(s, k); }
    forall j: nat, k: nat ensures LinkAt(s', j, k) { assert LinkAt(s, j, k); }
    forall j: nat, k: nat ensures ApartAt(s', j, k) { assert ApartAt(s, j, k); }
    forall c: nat ensures LiveAt(s', c) && PhaseAt(s', c) { assert LiveAt(s, c) && PhaseAt(s, c); }
    SameShut(s, s');
  }

  // ----- the stages of a spawn

  function OfSetup(u: Setup, h: Handle): nat {
    N(u.thread, h) + N(u.process, h) + N(u.job, h) + N(u.hostIn, h) + N(u.hostOut, h) + N(u.hostErr, h)
    + N(u.childIn, h) + N(u.childOut, h) + N(u.childErr, h) + N(u.console, h)
  }

  lemma PartsCount(u: Setup, h: Handle)
    ensures Parts(u)[h] == N(u.thread, h) + N(u.process, h) + N(u.job, h) + N(u.console, h)
  {
    LogCount(Slot(u.thread), u.process, h);
    LogCount(Slot(u.thread) + Slot(u.process), u.job, h);
    LogCount(Slot(u.thread) + Slot(u.process) + Slot(u.job), u.console, h);
  }

  lemma PipesCount(a: Option<Handle>, b: Option<Handle>, c: Option<Handle>, h: Handle)
    ensures (Slot(a) + Slot(b) + Slot(c))[h] == N(a, h) + N(b, h) + N(c, h)
  {
    LogCount(Slot(a), b, h);
    LogCount(Slot(a) + Slot(b), c, h);
  }

  lemma EndsCount(u: Setup, h: Handle)
    ensures Ends(u)[h] == OfSetup(u, h)
  {
    var host, child := Slot(u.hostIn) + Slot(u.hostOut) + Slot(u.hostErr), Slot(u.childIn) + Slot(u.childOut) + Slot(u.childErr);
    PartsCount(u, h);
    PipesCount(u.hostIn, u.hostOut, u.hostErr, h);
    PipesCount(u.childIn, u.childOut, u.childErr, h);
    assert (Parts(u) + host + child)[h] == Parts(u)[h] + host[h] + child[h];
  }

  /** While a spawn is under way every handle is in the tables, with the spawn, or closed. */
  predicate AccountedAt(b: Building, h: Handle) {
    Owners(b.s, h) + OfSetup(b.u, h) + b.s.closed[h] == if h < b.s.nextHandle then 1 else 0
  }

  ghost predicate Accounted(b: Building) { forall h: Handle :: AccountedAt(b, h) }

  /** The streams made are the newest of the table, from index `from` on, and serve no process yet. */
  predicate MadeAt(b: Building, c: nat, from: nat, j: nat) {
    j < |b.u.streams| ==>
      && b.u.streams[j] == from + j < |b.s.streams|
      && var st := b.s.streams[from + j]; st.listed && !st.disposed && st.refs == 1 && st.ctx == c && st.process == 0
  }

  ghost predicate Made(b: Building, c: nat, from: nat) {
    |b.s.streams| == from + |b.u.streams| && forall j: nat :: MadeAt(b, c, from, j)
  }

  /** The id is of no process, and no stream serves it. */
  ghost predicate FreshId(b: Building) {
    b.u.id != 0 ==>
      b.u.id < b.s.nextId && (forall i: nat :: UnusedAt(b.s, i, b.u.id)) && forall k: nat :: BelowAt(b.s, k, b.u.id)
  }

  predicate UnusedAt(s: State, i: nat, process: nat) { i < |s.streams| ==> s.streams[i].process != process }

  predicate BelowAt(s: State, k: nat, id: nat) { k < |s.processes| ==> s.processes[k].id < id }

  ghost predicate OpenTables(s: State, c: nat) {
    Tables(s) && Shut(s) && c < |s.contexts| && s.contexts[c].phase.Open?
  }

  ghost predicate Setting(b: Building, c: nat, from: nat) {
    OpenTables(b.s, c) && Accounted(b) && Made(b, c, from) && FreshId(b)
  }

  function Done(stages: seq<Stage>, n: nat): set<Stage>
    requires n <= |stages|
  {
    if n == 0 then {} else Done(stages, n - 1) + {stages[n - 1]}
  }

  /** What the spawn holds after the stages `done`. */
  predicate Holding(u: Setup, done: set<Stage>) {
    && (u.childIn.Some? <==> InPipe in done) && (u.hostIn.Some? <==> InPipe in done && InStream !in done)
    && (u.childOut.Some? <==> OutPipe in done)
    && (u.hostOut.Some? <==> OutPipe in done && (if MakeConsole in done then InStream else OutStream) !in done)
    && (u.childErr.Some? <==> ErrPipe in done) && (u.hostErr.Some? <==> ErrPipe in done && ErrStream !in done)
    && (u.console.Some? <==> MakeConsole in done) && (u.job.Some? <==> MakeJob in done) && (u.id != 0 <==> TakeId in done)
    && (u.process.Some? <==> Launch in done) && (u.thread.Some? <==> Launch in done) && (u.streams != [] <==> InStream in done)
  }

  /** A stage runs once, and after those whose handles it takes over. */
  predicate Comes(done: set<Stage>, stage: Stage) {
    && stage !in done
    && match stage
       case InPipe => InStream !in done
       case OutPipe => InStream !in done && OutStream !in done
       case ErrPipe => ErrStream !in done
       case MakeConsole => InStream !in done && OutStream !in done
       case InStream => InPipe in done && OutPipe in done
       case OutStream => OutPipe in done && MakeConsole !in done && InStream in done
       case ErrStream => ErrPipe in done && InStream in done
       case _ => true
  }

  lemma ConsoleStages(ss: seq<Stage>)
    requires ss == Stages(true, true)
    ensures forall n :: 0 <= n < 7 ==> Comes(Done(ss, n), ss[n])
    ensures Done(ss, 7) == {InPipe, OutPipe, MakeConsole, MakeJob, TakeId, Launch, InStream}
  {
    assert Done(ss, 0) == {};
    assert Done(ss, 1) == {InPipe};
    assert Done(ss, 2) == {InPipe, OutPipe};
    assert Done(ss, 3) == {InPipe, OutPipe, MakeConsole};
    assert Done(ss, 4) == {InPipe, OutPipe, MakeConsole, MakeJob};
    assert Done(ss, 5) == {InPipe, OutPipe, MakeConsole, MakeJob, TakeId};
    assert Done(ss, 6) == {InPipe, OutPipe, MakeConsole, MakeJob, TakeId, Launch};
    assert Done(ss, 7) == {InPipe, OutPipe, MakeConsole, MakeJob, TakeId, Launch, InStream};
  }

  lemma MergedStages(ss: seq<Stage>)
    requires ss == Stages(false, true)
    ensures forall n :: 0 <= n < 7 ==> Comes(Done(ss, n), ss[n])
    ensures Done(ss, 7) == {InPipe, OutPipe, MakeJob, TakeId, Launch, InStream, OutStream}
  {
    assert Done(ss, 0) == {};
    assert Done(ss, 1) == {InPipe};
    assert Done(ss, 2) == {InPipe, OutPipe};
    assert Done(ss, 3) == {InPipe, OutPipe, MakeJob};
    assert Done(ss, 4) == {InPipe, OutPipe, MakeJob, TakeId};
    assert Done(ss, 5) == {InPipe, OutPipe, MakeJob, TakeId, Launch};
    assert Done(ss, 6) == {InPipe, OutPipe, MakeJob, TakeId, Launch, InStream};
    assert Done(ss, 7) == {InPipe, OutPipe, MakeJob, TakeId, Launch, InStream, OutStream};
  }

  lemma SplitStages(ss: seq<Stage>)
    requires ss == Stages(false, false)
    ensures forall n :: 0 <= n < 9 ==> Comes(Done(ss, n), ss[n])
    ensures Done(ss, 9) == {InPipe, OutPipe, ErrPipe, MakeJob, TakeId, Launch, InStream, OutStream, ErrStream}
  {
    assert Done(ss, 0) == {};
    assert Done(ss, 1) == {InPipe};
    assert Done(ss, 2) == {InPipe, OutPipe};
    assert Done(ss, 3) == {InPipe, OutPipe, ErrPipe};
    assert Done(ss, 4) == {InPipe, OutPipe, ErrPipe, MakeJob};
    assert Done(ss, 5) == {InPipe, OutPipe, ErrPipe, MakeJob, TakeId};
    assert Done(ss, 6) == {InPipe, OutPipe, ErrPipe, MakeJob, TakeId, Launch};
    assert Done(ss, 7) == {InPipe, OutPipe, ErrPipe, MakeJob, TakeId, Launch, InStream};
    assert Done(ss, 8) == {InPipe, OutPipe, ErrPipe, MakeJob, TakeId, Launch, InStream, OutStream};
    assert Done(ss, 9) == {InPipe, OutPipe, ErrPipe, MakeJob, TakeId, Launch, InStream, OutStream, ErrStream};
  }

  lemma StagesInOrder(pty: bool, merge: bool)
    ensures var ss := Stages(pty, merge); forall n :: 0 <= n < |ss| ==> Comes(Done(ss, n), ss[n])
    ensures var all := Done(Stages(pty, merge), |Stages(pty, merge)|);
            MakeJob in all && TakeId in all && Launch in all && InStream in all && (MakeConsole in all <==> pty)
  {
    var ss := Stages(pty, merge);
    if pty { ConsoleStages(ss); } else if merge { MergedStages(ss); } else { SplitStages(ss); }
  }

  // ----- each stage keeps it

  lemma StagedHolding(b: Building, c: nat, done: set<Stage>, stage: Stage)
    requires c < |b.s.contexts| && b.s.nextId > 0 && Holding(b.u, done) && Comes(done, stage)
    ensures Holding(Staged(b, c, stage).u, done + {stage})
  {
    if stage.InStream? || stage.OutStream? || stage.ErrStream? {
      StreamHolding(b, c, done, stage);
    } else if stage.InPipe? || stage.OutPipe? || stage.ErrPipe? {
      PipeHolding(b, c, done, stage);
    }
  }

  lemma StreamHolding(b: Building, c: nat, done: set<Stage>, stage: Stage)
    requires c < |b.s.contexts| && Holding(b.u, done) && Comes(done, stage)
    requires stage.InStream? || stage.OutStream? || stage.ErrStream?
    ensures Holding(Staged(b, c, stage).u, done + {stage})
  {
    var u := Staged(b, c, stage).u;
    assert u == b.u.(hostIn := u.hostIn, hostOut := u.hostOut, hostErr := u.hostErr, streams := u.streams) && u.streams != [];
  }

  lemma PipeHolding(b: Building, c: nat, done: set<Stage>, stage: Stage)
    requires c < |b.s.contexts| && Holding(b.u, done) && Comes(done, stage)
    requires stage.InPipe? || stage.OutPipe? || stage.ErrPipe?
    ensures Holding(Staged(b, c, stage).u, done + {stage})
  {
    var u := Staged(b, c, stage).u;
    assert u.streams == b.u.streams && u.job == b.u.job && u.process == b.u.process && u.thread == b.u.thread && u.console == b.u.console;
  }

  lemma NewStreamIds(s: State, c: nat, read: Option<Handle>, write: Option<Handle>)
    requires IdsOk(s) && c < |s.contexts|
    ensures IdsOk(NewStream(s, c, read, write))
  {
    var s' := NewStream(s, c, read, write);
    forall d: nat, e: nat ensures ContextIds(s', d, e) { assert ContextIds(s, d, e); }
    forall i: nat, j: nat ensures StreamIds(s', i, j) {
      assert StreamIds(s, i, j) && (i < |s.streams| ==> StreamIds(s, i, i));
    }
    forall k: nat, l: nat ensures ProcessIds(s', k, l) { assert ProcessIds(s, k, l); }
  }

  lemma NewStreamLinks(s: State, c: nat, read: Option<Handle>, write: Option<Handle>)
    requires IdsOk(s) && Links(s) && c < |s.contexts|
    ensures Links(NewStream(s, c, read, write))
  {
    var s' := NewStream(s, c, read, write);
    forall j: nat ensures BelongsAt(s', j) { assert BelongsAt(s, j); }
    forall j: nat, k: nat ensures LinkAt(s', j, k) { assert LinkAt(s, j, k) && ProcessIds(s, k, k); }
    forall j: nat, k: nat ensures ApartAt(s', j, k) { assert ApartAt(s, j, k); }
  }

  lemma NewStreamTables(s: State, c: nat, read: Option<Handle>, write: Option<Handle>)
    requires OpenTables(s, c) && (read.Some? ==> write != read)
    ensures OpenTables(NewStream(s, c, read, write), c)
  {
    var s' := NewStream(s, c, read, write);
    NewStreamIds(s, c, read, write);
    NewStreamLinks(s, c, read, write);
    forall i: nat ensures StreamAt(s', i) { assert StreamAt(s, i); }
    forall i: nat ensures ShutAt(s', i) { assert ShutAt(s, i); }
    forall k: nat ensures ProcessAt(s', k) { assert ProcessAt(s, k); }
    forall d: nat ensures LiveAt(s', d) {
      assert LiveAt(s, d);
      TotalAppend(s.streams, InUse, d, s'.streams[|s.streams|]);
    }
    forall d: nat ensures PhaseAt(s', d) { assert PhaseAt(s, d); }
  }

  lemma NewStreamOwners(s: State, c: nat, read: Option<Handle>, write: Option<Handle>, h: Handle)
    requires c < |s.contexts|
    ensures Owners(NewStream(s, c, read, write), h)
         == Owners(s, h) + N(read, h) + N(write, h) + N(Some(s.nextHandle), h) + N(Some(s.nextHandle + 1), h)
  {
    var s' := NewStream(s, c, read, write);
    TotalAppend(s.streams, OfStream, h, s'.streams[|s.streams|]);
    TotalSame(s.contexts, s'.contexts, OfContext, h);
  }

  /** The spawn gives up two pipe ends of its own, at most, to a new stream. */
  ghost predicate GivesUp(b: Building, u: Setup, read: Option<Handle>, write: Option<Handle>) {
    && u == b.u.(hostIn := u.hostIn, hostOut := u.hostOut, hostErr := u.hostErr, streams := b.u.streams + [|b.s.streams|])
    && forall h: Handle :: GivesUpAt(b.u, u, read, write, h)
  }

  predicate GivesUpAt(u: Setup, u': Setup, read: Option<Handle>, write: Option<Handle>, h: Handle) {
    OfSetup(u', h) + N(read, h) + N(write, h) == OfSetup(u, h)
  }

  lemma StreamStage(b: Building, c: nat, from: nat, u: Setup, read: Option<Handle>, write: Option<Handle>)
    requires Setting(b, c, from) && GivesUp(b, u, read, write)
    ensures Setting(Building(NewStream(b.s, c, read, write), u), c, from)
  {
    var b' := Building(NewStream(b.s, c, read, write), u);
    if read.Some? {
      assert GivesUpAt(b.u, u, read, write, read.value) && AccountedAt(b, read.value);
    }
    NewStreamTables(b.s, c, read, write);
    forall h: Handle ensures AccountedAt(b', h) {
      assert AccountedAt(b, h) && GivesUpAt(b.u, u, read, write, h);
      NewStreamOwners(b.s, c, read, write, h);
    }
    forall j: nat ensures MadeAt(b', c, from, j) { assert MadeAt(b, c, from, j); }
    if u.id != 0 {
      forall i: nat ensures UnusedAt(b'.s, i, u.id) { assert UnusedAt(b.s, i, u.id); }
      forall k: nat ensures BelowAt(b'.s, k, u.id) { assert BelowAt(b.s, k, u.id); }
    }
  }

  /** The spawn keeps the handles it opens. */
  /** One proposition, so that a proof that ends in it is checked as a whole. */
  predicate TakesAt(u: Setup, u': Setup, from: nat, n: nat, h: Handle) { Gains(u, u', from, n, h) == true }

  predicate Gains(u: Setup, u': Setup, from: nat, n: nat, h: Handle) {
    OfSetup(u', h) == OfSetup(u, h) + if from <= h < from + n then 1 else 0
  }

  lemma OpenStage(b: Building, c: nat, from: nat, u: Setup, n: nat)
    requires Setting(b, c, from) && u.id == b.u.id && u.streams == b.u.streams
    requires forall h: Handle :: TakesAt(b.u, u, b.s.nextHandle, n, h)
    ensures Setting(Building(Opened(b.s, n), u), c, from)
  {
    var b' := Building(Opened(b.s, n), u);
    LaterIds(b.s, b'.s);
    forall h: Handle ensures AccountedAt(b', h) { assert AccountedAt(b, h) && TakesAt(b.u, u, b.s.nextHandle, n, h); }
    forall j: nat ensures MadeAt(b', c, from, j) { assert MadeAt(b, c, from, j); }
    if u.id != 0 {
      forall i: nat ensures UnusedAt(b'.s, i, u.id) { assert UnusedAt(b.s, i, u.id); }
      forall k: nat ensures BelowAt(b'.s, k, u.id) { assert BelowAt(b.s, k, u.id); }
    }
  }

  lemma IdStage(b: Building, c: nat, from: nat)
    requires Setting(b, c, from)
    ensures Setting(Staged(b, c, TakeId), c, from)
  {
    var b' := Staged(b, c, TakeId);
    LaterIds(b.s, b'.s);
    forall h: Handle ensures AccountedAt(b', h) { assert AccountedAt(b, h); }
    forall j: nat ensures MadeAt(b', c, from, j) { assert MadeAt(b, c, from, j); }
    forall i: nat ensures UnusedAt(b'.s, i, b'.u.id) { assert BelongsAt(b.s, i); }
    forall k: nat ensures BelowAt(b'.s, k, b'.u.id) { assert ProcessIds(b.s, k, k); }
  }

  lemma OpenStageTakes(b: Building, c: nat, done: set<Stage>, stage: Stage, h: Handle)
    requires c < |b.s.contexts| && Holding(b.u, done) && Comes(done, stage)
    requires !stage.TakeId? && !stage.InStream? && !stage.OutStream? && !stage.ErrStream?
    ensures TakesAt(b.u, Staged(b, c, stage).u, b.s.nextHandle, if stage.MakeConsole? || stage.MakeJob? then 1 else 2, h)
  {
    var u, n, u' := b.u, b.s.nextHandle, Staged(b, c, stage).u;
    match stage
    case InPipe =>
      assert u' == u.(hostIn := Some(n), childIn := Some(n + 1));
      TakesInPipe(u, n, h);
    case OutPipe =>
      assert u' == u.(hostOut := Some(n), childOut := Some(n + 1));
      TakesOutPipe(u, n, h);
    case ErrPipe =>
      assert u' == u.(hostErr := Some(n), childErr := Some(n + 1));
      TakesErrPipe(u, n, h);
    case MakeConsole =>
      assert u' == u.(console := Some(n));
      TakesConsole(u, n, h);
    case MakeJob =>
      assert u' == u.(job := Some(n));
      TakesJob(u, n, h);
    case Launch =>
      assert u' == u.(process := Some(n), thread := Some(n + 1));
      TakesChild(u, n, h);
  }

  lemma TakesConsole(u: Setup, n: nat, h: Handle)
    requires u.console.None?
    ensures TakesAt(u, u.(console := Some(n)), n, 1, h)
  {
  }

  lemma TakesJob(u: Setup, n: nat, h: Handle)
    requires u.job.None?
    ensures TakesAt(u, u.(job := Some(n)), n, 1, h)
  {
  }

  lemma TakesInPipe(u: Setup, n: nat, h: Handle)
    requires u.hostIn.None? && u.childIn.None?
    ensures TakesAt(u, u.(hostIn := Some(n), childIn := Some(n + 1)), n, 2, h)
  {
  }

  lemma TakesOutPipe(u: Setup, n: nat, h: Handle)
    requires u.hostOut.None? && u.childOut.None?
    ensures TakesAt(u, u.(hostOut := Some(n), childOut := Some(n + 1)), n, 2, h)
  {
  }

  lemma TakesErrPipe(u: Setup, n: nat, h: Handle)
    requires u.hostErr.None? && u.childErr.None?
    ensures TakesAt(u, u.(hostErr := Some(n), childErr := Some(n + 1)), n, 2, h)
  {
  }

  lemma TakesChild(u: Setup, n: nat, h: Handle)
    requires u.process.None? && u.thread.None?
    ensures TakesAt(u, u.(process := Some(n), thread := Some(n + 1)), n, 2, h)
  {
  }

  lemma StageKeeps(b: Building, c: nat, from: nat, done: set<Stage>, stage: Stage)
    requires Setting(b, c, from) && Holding(b.u, done) && Comes(done, stage)
    ensures Setting(Staged(b, c, stage), c, from)
  {
    var u, n := Staged(b, c, stage).u, b.s.nextHandle;
    if stage.TakeId? {
      IdStage(b, c, from);
    } else if stage.InStream? || stage.OutStream? || stage.ErrStream? {
      StreamStageKeeps(b, c, from, done, stage);
    } else {
      var m := if stage.MakeConsole? || stage.MakeJob? then 1 else 2;
      forall h: Handle ensures TakesAt(b.u, u, n, m, h) { OpenStageTakes(b, c, done, stage, h); }
      OpenStage(b, c, from, u, m);
    }
  }

  lemma StreamStageKeeps(b: Building, c: nat, from: nat, done: set<Stage>, stage: Stage)
    requires Setting(b, c, from) && Holding(b.u, done) && Comes(done, stage) && (stage.InStream? || stage.OutStream? || stage.ErrStream?)
    ensures Setting(Staged(b, c, stage), c, from)
  {
    var u := Staged(b, c, stage).u;
    var read := if stage.ErrStream? then b.u.hostErr else if stage.InStream? && b.u.console.None? then None else b.u.hostOut;
    var write := if stage.InStream? then b.u.hostIn else None;
    forall h: Handle ensures GivesUpAt(b.u, u, read, write, h) {}
    StreamStage(b, c, from, u, read, write);
  }

  lemma {:induction false} BuiltKeeps(s: State, c: nat, pty: bool, merge: bool, n: nat)
    requires Inv(s) && c < |s.contexts| && s.contexts[c].phase.Open? && n <= |Stages(pty, merge)|
    ensures var b := Built(s, c, Stages(pty, merge), n);
            Setting(b, c, |s.streams|) && Holding(b.u, Done(Stages(pty, merge), n))
    decreases n
  {
    var ss := Stages(pty, merge);
    if n == 0 {
      var b := Building(s, NoSetup);
      forall h: Handle ensures AccountedAt(b, h) { assert ConservedAt(s, h); }
    } else {
      BuiltKeeps(s, c, pty, merge, n - 1);
      StagesInOrder(pty, merge);
      var b, done := Built(s, c, ss, n - 1), Done(ss, n - 1);
      StageKeeps(b, c, |s.streams|, done, ss[n - 1]);
      StagedHolding(b, c, done, ss[n - 1]);
    }
  }
}
