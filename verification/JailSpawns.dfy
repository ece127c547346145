/** A spawn keeps the invariant: the sweep of completed records, and then its stages with the
    new record, or with all given back. */
module JailSpawns {
  import opened Basics
  import opened JailContexts
  import opened JailHandles
  import opened JailInvariant
  import opened JailModel
  import opened JailProcesses
  import opened JailStages
  import opened JailStreams

  // ----- the sweep

  lemma DropConserves(s: State, k: nat)
    requires Conserved(s) && k < |s.processes| && ProcessOk(s.processes[k]) && Reclaimable(s, s.processes[k])
    ensures Conserved(DropIfDone(s, k))
  {
    var s' := DropIfDone(s, k);
    forall h: Handle ensures ConservedAt(s', h) {
      assert ConservedAt(s, h);
      TotalUpdate(s.processes, OfProcess, h, k, s'.processes[k]);
      LogCount(s.closed, s.processes[k].closer, h);
    }
  }

  lemma DropIfKeeps(s: State, k: nat)
    requires Inv(s)
    ensures Inv(DropIfDone(s, k))
  {
    if k < |s.processes| && Reclaimable(s, s.processes[k]) {
      assert ProcessAt(s, k);
      DropConserves(s, k);
      ReworkTables(s, DropIfDone(s, k), k);
    }
  }

  lemma ReclaimKeeps(s: State)
    requires Inv(s)
    ensures Inv(Reclaim(s))
  {
    var inv := (x: State, i: nat) => Inv(x);
    forall x: State, i: nat | i < |s.processes| && inv(x, i) ensures inv(DropIfDone(x, i), i + 1) { DropIfKeeps(x, i); }
    ForEachKeeps(s, |s.processes|, DropIfDone, inv);
  }

  lemma {:induction false} RangeCount(from: nat, n: nat, h: Handle)
    ensures Range(from, n)[h] == if from <= h < from + n then 1 else 0
  {
    if n > 0 { RangeCount(from, n - 1, h); }
  }

  // ----- a spawn that succeeds

  lemma RecordedIds(s: State, s': State, p: Process)
    requires IdsOk(s) && 0 < p.id < s.nextId && (forall k: nat :: BelowAt(s, k, p.id)) && s' == s.(processes := s.processes + [p], closed := s'.closed)
    ensures IdsOk(s')
  {
    forall d: nat, e: nat ensures ContextIds(s', d, e) { assert ContextIds(s, d, e); }
    forall i: nat, j: nat ensures StreamIds(s', i, j) { assert StreamIds(s, i, j); }
    forall k: nat, l: nat ensures ProcessIds(s', k, l) { assert ProcessIds(s, k, l) && BelowAt(s, k, p.id); }
  }

  lemma RecordedPhases(s: State, s': State, c: nat, p: Process)
    requires IdsOk(s) && Phases(s) && c < |s.contexts| && s.contexts[c].phase.Open? && p.context == s.contexts[c].id
    requires s' == s.(processes := s.processes + [p], closed := s'.closed)
    ensures Phases(s')
  {
    forall d: nat ensures PhaseAt(s', d) {
      assert PhaseAt(s, d) && ContextIds(s, c, d) && ContextIds(s, d, c);
      if d < |s.contexts| && s.contexts[d].phase.Freed? {
        forall l: nat | l < |s'.processes| ensures !RecordOf(s'.processes[l], s.contexts[d].id) {
          assert l < |s.processes| ==> !RecordOf(s.processes[l], s.contexts[d].id);
        }
      }
    }
  }

  /** The record enters the table. */
  lemma RecordedKeeps(s: State, s': State, c: nat, p: Process)
    requires OpenTables(s, c) && 0 < p.id < s.nextId && p.context == s.contexts[c].id && p.listed && p.output.None? && ProcessOk(p)
    requires (forall i: nat :: UnusedAt(s, i, p.id)) && (forall k: nat :: BelowAt(s, k, p.id))
    requires s' == s.(processes := s.processes + [p], closed := s'.closed)
    ensures OpenTables(s', c)
  {
    RecordedIds(s, s', p);
    RecordedPhases(s, s', c, p);
    forall i: nat ensures StreamAt(s', i) && BelongsAt(s', i) { assert StreamAt(s, i) && BelongsAt(s, i); }
    forall k: nat ensures ProcessAt(s', k) { assert ProcessAt(s, k); }
    forall j: nat, k: nat ensures LinkAt(s', j, k) { assert LinkAt(s, j, k) && UnusedAt(s, j, p.id); }
    forall j: nat, k: nat ensures ApartAt(s', j, k) { assert ApartAt(s, j, k); }
    forall d: nat ensures LiveAt(s', d) { assert LiveAt(s, d); }
    SameShut(s, s');
  }

  /** Stream `j` comes to serve process `k`, which no other one serves. */
  lemma ServesKeeps(s: State, c: nat, j: nat, k: nat)
    requires OpenTables(s, c) && j < |s.streams| && k < |s.processes|
    requires s.streams[j].ctx == c && s.streams[j].read.Some? && s.streams[j].process == 0 && !s.streams[j].disposed
    requires s.processes[k].output.None? && s.processes[k].context == s.contexts[c].id
    requires forall i: nat :: UnusedAt(s, i, s.processes[k].id)
    ensures OpenTables(s.(streams := s.streams[j := s.streams[j].(process := s.processes[k].id)]), c)
  {
    var id := s.processes[k].id;
    var s' := s.(streams := s.streams[j := s.streams[j].(process := id)]);
    SameIds(s, s');
    forall i: nat ensures StreamAt(s', i) { assert StreamAt(s, i); }
    forall l: nat ensures ProcessAt(s', l) { assert ProcessAt(s, l); }
    forall i: nat ensures BelongsAt(s', i) { assert BelongsAt(s, i) && ProcessIds(s, k, k); }
    forall i: nat, l: nat ensures LinkAt(s', i, l) {
      assert LinkAt(s, i, l) && ProcessIds(s, k, l) && ProcessIds(s, l, k);
    }
    forall i: nat, l: nat ensures ApartAt(s', i, l) { assert ApartAt(s, i, l) && UnusedAt(s, i, id) && UnusedAt(s, l, id); }
    forall d: nat ensures LiveAt(s', d) {
      assert LiveAt(s, d);
      TotalUpdate(s.streams, InUse, d, j, s'.streams[j]);
    }
    forall d: nat ensures PhaseAt(s', d) { assert PhaseAt(s, d); }
    forall i: nat ensures ShutAt(s', i) { assert ShutAt(s, i); }
  }

  lemma CommitTables(b: Building, c: nat, from: nat)
    requires Setting(b, c, from) && b.u.id != 0 && b.u.job.Some? && b.u.process.Some?
    requires b.u.console.Some? ==> b.u.streams != [] && b.u.streams[0] < |b.s.streams| && b.s.streams[b.u.streams[0]].read.Some?
    ensures OpenTables(Committed(b, c), c)
  {
    var s, u, s' := b.s, b.u, Committed(b, c);
    var p := s'.processes[|s.processes|];
    var s1 := s.(processes := s.processes + [p], closed := s'.closed);
    RecordedKeeps(s, s1, c, p);
    if u.console.Some? {
      assert MadeAt(b, c, from, 0);
      forall i: nat ensures UnusedAt(s1, i, p.id) { assert UnusedAt(s, i, p.id); }
      ServesKeeps(s1, c, u.streams[0], |s.processes|);
    }
  }

  lemma CommitConserves(b: Building, c: nat, from: nat)
    requires Setting(b, c, from)
    ensures Conserved(Committed(b, c))
  {
    var s, u, s' := b.s, b.u, Committed(b, c);
    var p := s'.processes[|s.processes|];
    var left := u.(process := None, job := None, console := None);
    forall h: Handle ensures ConservedAt(s', h) {
      assert AccountedAt(b, h);
      TotalAppend(s.processes, OfProcess, h, p);
      TotalSame(s.streams, s'.streams, OfStream, h);
      EndsCount(left, h);
      assert s'.closed[h] == s.closed[h] + Ends(left)[h];
    }
  }

  /** With a console the stream of the input reads the output too. */
  lemma ConsoleReads(s: State, c: nat, merge: bool)
    requires Inv(s) && c < |s.contexts| && s.contexts[c].phase.Open?
    ensures var b := Built(s, c, Stages(true, merge), 7);
            |b.u.streams| == 1 && b.u.streams[0] < |b.s.streams| && b.s.streams[b.u.streams[0]].read.Some?
  {
    var ss := Stages(true, merge);
    var b := Built(s, c, ss, 6);
    BuiltKeeps(s, c, true, merge, 6);
    ConsoleStages(ss);
    assert Done(ss, 6) == {InPipe, OutPipe, MakeConsole, MakeJob, TakeId, Launch};
    assert Built(s, c, ss, 7) == Staged(b, c, InStream);
  }

  /** All stages passed. */
  lemma BuiltAll(s: State, c: nat, pty: bool, merge: bool)
    requires Inv(s) && c < |s.contexts| && s.contexts[c].phase.Open?
    ensures var b := Built(s, c, Stages(pty, merge), |Stages(pty, merge)|);
            && Setting(b, c, |s.streams|) && b.u.id != 0 && b.u.job.Some? && b.u.process.Some?
            && (b.u.console.Some? ==> b.u.streams != [] && b.u.streams[0] < |b.s.streams| && b.s.streams[b.u.streams[0]].read.Some?)
  {
    BuiltKeeps(s, c, pty, merge, |Stages(pty, merge)|);
    StagesInOrder(pty, merge);
    if pty { ConsoleReads(s, c, merge); }
  }

  lemma SpawnKeeps(s: State, c: nat, pty: bool, merge: bool)
    requires Inv(s) && Enabled(s, Spawn(c, pty, merge))
    ensures Inv(Apply(s, Spawn(c, pty, merge)))
  {
    var r := Reclaim(s);
    ReclaimKeeps(s);
    assert PhaseAt(s, c);
    BuiltAll(r, c, pty, merge);
    var b := Built(r, c, Stages(pty, merge), |Stages(pty, merge)|);
    CommitTables(b, c, |r.streams|);
    CommitConserves(b, c, |r.streams|);
  }

  // ----- a spawn that fails

  function Logged(s: State, log: multiset<Handle>): State { s.(closed := s.closed + log) }

  /** Closing a stream only adds to what was closed before. */
  lemma DisposeLogs(s: State, i: nat, log: multiset<Handle>)
    requires i < |s.streams|
    ensures Dispose(Logged(s, log), i) == Logged(Dispose(s, i), log)
  {
    assert LeavesOutput(Logged(s, log), s.streams[i]) == LeavesOutput(s, s.streams[i]);
  }

  lemma DropLogs(s: State, i: nat, log: multiset<Handle>)
    requires i < |s.streams|
    ensures DropRef(Logged(s, log), i) == Logged(DropRef(s, i), log)
  {
    var s' := s.(streams := s.streams[i := s.streams[i].(refs := s.streams[i].refs - 1)]);
    if s.streams[i].refs - 1 == 0 { DisposeLogs(s', i, log); }
  }

  lemma CloseLogs(s: State, i: nat, log: multiset<Handle>)
    requires i < |s.streams|
    ensures CloseStream(Logged(s, log), i) == Logged(CloseStream(s, i), log)
  {
    DropLogs(s.(streams := s.streams[i := s.streams[i].(listed := false)]), i, log);
  }

  lemma {:induction false} CloseEachLogs(s: State, made: seq<nat>, n: nat, log: multiset<Handle>)
    requires n <= |made|
    ensures CloseEach(Logged(s, log), made, n) == Logged(CloseEach(s, made, n), log)
    decreases n
  {
    if n > 0 {
      var i := made[n - 1];
      if i < |s.streams| {
        CloseLogs(s, i, log);
        CloseEachLogs(CloseStream(s, i), made, n - 1, log);
      } else {
        CloseEachLogs(s, made, n - 1, log);
      }
    }
  }

  lemma CloseLeaves(s: State, i: nat, j: nat)
    requires i < |s.streams| && j < |s.streams| && i != j
    ensures |CloseStream(s, i).streams| == |s.streams| && CloseStream(s, i).streams[j] == s.streams[j]
  {
  }

  predicate OpenAt(s: State, i: nat) { i < |s.streams| && s.streams[i].listed }

  lemma {:induction false} CloseEachKeeps(s: State, made: seq<nat>, n: nat)
    requires Core(s) && Shut(s) && n <= |made| && forall j :: 0 <= j < n ==> OpenAt(s, made[j])
    requires forall j, k :: 0 <= j < k < n ==> made[j] != made[k]
    ensures Core(CloseEach(s, made, n)) && Shut(CloseEach(s, made, n))
    decreases n
  {
    if n > 0 {
      var i := made[n - 1];
      assert OpenAt(s, i);
      var s' := CloseStream(s, i);
      CloseKeeps(s, i);
      CloseUnlists(s, i);
      UnlistedShut(s, s');
      forall j | 0 <= j < n - 1 ensures OpenAt(s', made[j]) {
        assert OpenAt(s, made[j]) && made[j] != made[n - 1];
        CloseLeaves(s, i, made[j]);
      }
      CloseEachKeeps(s', made, n - 1);
    }
  }

  /** A failing spawn as if it closed all that it holds before it closes its streams. */
  function Emptied(b: Building, ids: nat, handles: nat): State {
    Logged(GaveUp(b.s, ids, handles), Ends(b.u))
  }

  lemma FailedIs(s: State, c: nat, ss: seq<Stage>, n: nat, ids: nat, handles: nat)
    requires c < |s.contexts| && n <= |ss|
    ensures var b := Built(s, c, ss, n);
            SpawnFailed(s, c, ss, n, ids, handles) == CloseEach(Emptied(b, ids, handles), b.u.streams, |b.u.streams|)
  {
    var b := Built(s, c, ss, n);
    CloseEachLogs(GaveUp(b.s, ids, handles), b.u.streams, |b.u.streams|, Ends(b.u));
  }

  lemma EmptiedKeeps(b: Building, c: nat, from: nat, ids: nat, handles: nat)
    requires Setting(b, c, from)
    ensures Core(Emptied(b, ids, handles)) && Shut(Emptied(b, ids, handles))
  {
    var s' := Emptied(b, ids, handles);
    LaterIds(b.s, s');
    forall h: Handle ensures ConservedAt(s', h) {
      assert AccountedAt(b, h) && Owners(s', h) == Owners(b.s, h);
      RangeCount(b.s.nextHandle, handles, h);
      EndsCount(b.u, h);
      assert s'.closed[h] == b.s.closed[h] + Range(b.s.nextHandle, handles)[h] + Ends(b.u)[h];
    }
  }

  lemma MadeAreOpen(b: Building, c: nat, from: nat)
    requires Made(b, c, from)
    ensures forall j :: 0 <= j < |b.u.streams| ==> OpenAt(b.s, b.u.streams[j])
    ensures forall j, k :: 0 <= j < k < |b.u.streams| ==> b.u.streams[j] != b.u.streams[k]
  {
    forall j: nat | j < |b.u.streams| ensures b.u.streams[j] == from + j && OpenAt(b.s, b.u.streams[j]) {
      assert MadeAt(b, c, from, j);
    }
  }

  predicate OwnsNothing(st: Stream) { st.disposed && st.read.None? && st.write.None? && st.cancel.None? && st.event.None? }

  /** What the tables own besides streams. */
  ghost predicate SameElsewhere(s: State, s': State) {
    SameJobsIn(s, s') && s'.processes == s.processes && s'.waiters == s.waiters && s'.closers == s.closers
  }

  /** Closing a stream that nothing else holds and that serves no process disposes it. */
  lemma CloseGone(s: State, i: nat)
    requires i < |s.streams| && s.streams[i].refs == 1 && s.streams[i].process == 0
    ensures var s' := CloseStream(s, i);
            SameElsewhere(s, s') && s'.streams == s.streams[i := s'.streams[i]] && OwnsNothing(s'.streams[i])
  {
  }

  predicate AloneAt(s: State, i: nat) { i < |s.streams| && s.streams[i].refs == 1 && s.streams[i].process == 0 }

  /** Of the streams only those from `from` on, `n` of them, have gone. */
  predicate EmptyAt(s: State, s': State, from: nat, n: nat, j: nat)
    requires |s'.streams| == |s.streams|
  {
    j < |s.streams| ==> if from <= j < from + n then OwnsNothing(s'.streams[j]) else s'.streams[j] == s.streams[j]
  }

  /** One proposition, so that a proof that ends in it is checked as a whole. */
  ghost predicate Emptying(s: State, s': State, from: nat, n: nat) { OnlyEmpties(s, s', from, n) == true }

  ghost predicate OnlyEmpties(s: State, s': State, from: nat, n: nat) {
    SameElsewhere(s, s') && |s'.streams| == |s.streams| && forall j: nat :: EmptyAt(s, s', from, n, j)
  }

  lemma EmptiesNone(s: State, from: nat)
    ensures Emptying(s, s, from, 0)
  {
  }

  lemma EmptiesOne(s: State, x: State, y: State, from: nat, n: nat)
    requires SameElsewhere(s, x) && |x.streams| == |s.streams| > from + n && x.streams == s.streams[from + n := x.streams[from + n]]
    requires OwnsNothing(x.streams[from + n]) && Emptying(x, y, from, n)
    ensures Emptying(s, y, from, n + 1)
  {
    var m := n + 1;
    forall j: nat ensures EmptyAt(s, y, from, m, j) { assert EmptyAt(x, y, from, n, j); }
  }

  ghost predicate AllAlone(s: State, made: seq<nat>, from: nat, n: nat) {
    n <= |made| && |s.streams| >= from + n && forall j :: 0 <= j < n ==> made[j] == from + j && AloneAt(s, made[j])
  }

  lemma {:induction false} CloseEachGone(s: State, made: seq<nat>, from: nat, n: nat)
    requires AllAlone(s, made, from, n)
    ensures Emptying(s, CloseEach(s, made, n), from, n)
    decreases n, 1
  {
    if n > 0 {
      assert made[n - 1] == from + (n - 1) && AloneAt(s, made[n - 1]);
      CloseGone(s, made[n - 1]);
      RestGone(s, CloseStream(s, made[n - 1]), made, from, n - 1);
    } else {
      EmptiesNone(s, from);
    }
  }

  lemma {:induction false} RestGone(s: State, x: State, made: seq<nat>, from: nat, n: nat)
    requires AllAlone(s, made, from, n + 1)
    requires SameElsewhere(s, x) && |x.streams| == |s.streams| && x.streams == s.streams[from + n := x.streams[from + n]]
    requires OwnsNothing(x.streams[from + n])
    ensures Emptying(s, CloseEach(x, made, n), from, n + 1)
    decreases n + 1, 0
  {
    forall j | 0 <= j < n ensures made[j] == from + j && AloneAt(x, made[j]) { assert AloneAt(s, made[j]); }
    CloseEachGone(x, made, from, n);
    EmptiesOne(s, x, CloseEach(x, made, n), from, n);
  }

  lemma {:induction false} NothingFrom(xs: seq<Stream>, from: nat, h: Handle)
    requires from <= |xs| && forall j :: from <= j < |xs| ==> OwnsNothing(xs[j])
    ensures Total(xs, OfStream, h) == Total(xs[..from], OfStream, h)
    decreases |xs|
  {
    if from < |xs| {
      NothingFrom(xs[..|xs| - 1], from, h);
      assert xs[..|xs| - 1][..from] == xs[..from];
    } else {
      assert xs[..from] == xs;
    }
  }

  /** Wherever a spawn fails, it owns nothing any more: no stream that it made is left. */
  lemma FailedOwnsNothing(s: State, c: nat, pty: bool, merge: bool, n: nat, ids: nat, handles: nat, h: Handle)
    requires Inv(s) && c < |s.contexts| && s.contexts[c].phase.Open? && n <= |Stages(pty, merge)|
    ensures Owners(SpawnFailed(s, c, Stages(pty, merge), n, ids, handles), h) == Owners(s, h)
  {
    var b := Built(s, c, Stages(pty, merge), n);
    var x := GaveUp(b.s, ids, handles);
    BuiltKeeps(s, c, pty, merge, n);
    BuiltElsewhere(s, c, Stages(pty, merge), n);
    forall j | 0 <= j < |b.u.streams| ensures b.u.streams[j] == |s.streams| + j && AloneAt(x, b.u.streams[j]) {
      assert MadeAt(b, c, |s.streams|, j);
    }
    CloseEachGone(x, b.u.streams, |s.streams|, |b.u.streams|);
    EmptiedOwners(s, x, CloseEach(x, b.u.streams, |b.u.streams|), h);
  }

  lemma EmptiedOwners(s: State, x: State, y: State, h: Handle)
    requires SameElsewhere(s, x) && s.streams <= x.streams && Emptying(x, y, |s.streams|, |x.streams| - |s.streams|)
    ensures Owners(y, h) == Owners(s, h)
  {
    forall j: nat | j < |y.streams| ensures if j < |s.streams| then y.streams[j] == s.streams[j] else OwnsNothing(y.streams[j]) {
      assert EmptyAt(x, y, |s.streams|, |x.streams| - |s.streams|, j);
    }
    NothingFrom(y.streams, |s.streams|, h);
    assert y.streams[..|s.streams|] == s.streams;
    TotalSame(s.contexts, y.contexts, OfContext, h);
  }

  /** The stages only add streams. */
  lemma {:induction false} BuiltElsewhere(s: State, c: nat, stages: seq<Stage>, n: nat)
    requires c < |s.contexts| && n <= |stages|
    ensures SameElsewhere(s, Built(s, c, stages, n).s) && s.streams <= Built(s, c, stages, n).s.streams
    decreases n
  {
    if n > 0 {
      BuiltElsewhere(s, c, stages, n - 1);
      StagedElsewhere(Built(s, c, stages, n - 1), c, stages[n - 1]);
    }
  }

  lemma StagedElsewhere(b: Building, c: nat, stage: Stage)
    requires c < |b.s.contexts|
    ensures SameElsewhere(b.s, Staged(b, c, stage).s) && b.s.streams <= Staged(b, c, stage).s.streams
  {
  }

  lemma SpawnFailsKeeps(s: State, c: nat, pty: bool, merge: bool, n: nat, ids: nat, handles: nat)
    requires Inv(s) && Enabled(s, SpawnFails(c, pty, merge, n, ids, handles))
    ensures Inv(Apply(s, SpawnFails(c, pty, merge, n, ids, handles)))
  {
    var r, ss := Reclaim(s), Stages(pty, merge);
    ReclaimKeeps(s);
    assert PhaseAt(s, c);
    BuiltKeeps(r, c, pty, merge, n);
    var b := Built(r, c, ss, n);
    EmptiedKeeps(b, c, |r.streams|, ids, handles);
    MadeAreOpen(b, c, |r.streams|);
    CloseEachKeeps(Emptied(b, ids, handles), b.u.streams, |b.u.streams|);
    FailedIs(r, c, ss, n, ids, handles);
  }

  // ----- runs

  lemma StepKeeps(s: State, a: Step)
    requires Inv(s) && Enabled(s, a)
    ensures Inv(Apply(s, a))
  {
    match a {
      case Create => CreateKeeps(s);
      case Seal(c, ok) => SealKeeps(s, c, ok);
      case Spawn(c, pty, merge) => SpawnKeeps(s, c, pty, merge);
      case SpawnFails(c, pty, merge, n, ids, handles) => SpawnFailsKeeps(s, c, pty, merge, n, ids, handles);
      case Get(i) => GetKeeps(s, i);
      case Put(i) => PutKeeps(s, i);
      case Eof(i) => EofKeeps(s, i);
      case Close(i) => CloseStepKeeps(s, i);
      case WaitBegin(k) => WaitBeginKeeps(s, k);
      case WaitGivesUp(w) => WaitGivesUpKeeps(s, w);
      case WaitEnd(w, jobOk, threadOk) => WaitEndKeeps(s, w, jobOk, threadOk);
      case CloserDone(k) => CloserDoneKeeps(s, k);
      case DestroyBegin(c, jobOk) => DestroyBeginKeeps(s, c, jobOk);
      case DestroyInterrupted(c) => RetryKeeps(s, c);
      case DestroyTake(c, k, threadOk) => DestroyTakeKeeps(s, c, k, threadOk);
      case DestroyDrain(c, ok) => if ok { DrainedKeeps(s, c); } else { DrainFailedKeeps(s, c); }
      case DestroyEnd(c, desktopOk, profileOk) => DestroyEndKeeps(s, c, desktopOk, profileOk);
    }
  }

  lemma {:induction false} RunKeeps(s: State, steps: seq<Step>)
    requires Inv(s) && CanRun(s, steps)
    ensures Inv(Run(s, steps))
    decreases |steps|
  {
    if steps != [] {
      StepKeeps(s, steps[0]);
      RunKeeps(Apply(s, steps[0]), steps[1..]);
    }
  }

  lemma ReachableHolds(s: State)
    requires Reachable(s)
    ensures Inv(s)
  {
    var steps :| CanRun(Empty, steps) && Run(Empty, steps) == s;
    InitialHolds();
    RunKeeps(Empty, steps);
  }
}
