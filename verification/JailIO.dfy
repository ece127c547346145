/** What a caller of the Windows jail may rely on for a stream: what each step does to it, what
    closing it means, and that the threads that hold it are those whose IO is under way. */
module JailIO {
  import opened Basics
  import opened JailHandles
  import opened JailInvariant
  import opened JailModel
  import opened JailRuns
  import opened JailSafety
  import opened JailSpawns
  import opened JailStages
  import opened JailStreams

  // ----- one step

  /** The step closes stream `i`, by its id or with its context. */
  predicate Closes(s: State, a: Step, i: nat)
    requires i < |s.streams|
  {
    a == Close(i) || (a.DestroyBegin? && s.streams[i].ctx == a.c < |s.contexts| && (s.contexts[a.c].job.None? || a.jobOk))
  }

  function Gets(a: Step, i: nat): int { if a == Get(i) then 1 else if a == Put(i) then -1 else 0 }

  /** What becomes of a stream: it leaves the table if it is closed, gains or loses a holder, may
      have met its end, and is disposed of with all its handles when it is neither in the table
      nor held. Nothing else of it changes. */
  predicate Becomes(x: Stream, y: Stream, closed: bool, gets: int, ended: bool) {
    && y.id == x.id && y.ctx == x.ctx && y.process == x.process
    && y.listed == (x.listed && !closed) && y.holders == x.holders + gets && y.eof == (x.eof || ended)
    && (y.disposed <==> !y.listed && y.holders == 0)
    && [y.read, y.write, y.cancel, y.event] == if y.disposed then [None, None, None, None] else [x.read, x.write, x.cancel, x.event]
  }

  lemma CloseBecomes(s: State, i: nat)
    requires i < |s.streams| && StreamOk(s.streams[i]) && s.streams[i].listed
    ensures |CloseStream(s, i).streams| == |s.streams|
    ensures Becomes(s.streams[i], CloseStream(s, i).streams[i], true, 0, false)
  {
  }

  lemma PutBecomes(s: State, i: nat)
    requires Enabled(s, Put(i)) && StreamOk(s.streams[i])
    ensures |Apply(s, Put(i)).streams| == |s.streams|
    ensures Becomes(s.streams[i], Apply(s, Put(i)).streams[i], false, -1, false)
    ensures forall j :: 0 <= j < |s.streams| && j != i ==> Apply(s, Put(i)).streams[j] == s.streams[j]
  {
  }

  /** How far closing all streams of context `c` has come. */
  predicate ClosedSoFar(s: State, x: State, c: nat, n: nat, j: nat) {
    j < |s.streams| && j < |x.streams| ==>
      if j < n && s.streams[j].listed && s.streams[j].ctx == c then Becomes(s.streams[j], x.streams[j], true, 0, false)
      else x.streams[j] == s.streams[j]
  }

  ghost predicate AllClosedSoFar(s: State, x: State, c: nat, n: nat) {
    |x.streams| == |s.streams| && forall j: nat :: ClosedSoFar(s, x, c, n, j)
  }

  lemma ClosingNext(s: State, x: State, c: nat, n: nat)
    requires AllClosedSoFar(s, x, c, n) && n < |s.streams| && StreamOk(s.streams[n])
    ensures AllClosedSoFar(s, Closing(c)(x, n), c, n + 1)
  {
    var y, m := Closing(c)(x, n), n + 1;
    assert ClosedSoFar(s, x, c, n, n);
    if x.streams[n].listed && x.streams[n].ctx == c {
      CloseBecomes(x, n);
      forall j: nat ensures ClosedSoFar(s, y, c, m, j) {
        assert ClosedSoFar(s, x, c, n, j);
        if j < |s.streams| && j != n { CloseLeaves(x, n, j); }
      }
    } else {
      forall j: nat ensures ClosedSoFar(s, y, c, m, j) { assert ClosedSoFar(s, x, c, n, j); }
    }
  }

  lemma CloseAllBecomes(s: State, c: nat)
    requires Local(s)
    ensures AllClosedSoFar(s, CloseStreamsOf(s, c), c, |s.streams|)
  {
    var step, inv := Closing(c), (x: State, n: nat) => AllClosedSoFar(s, x, c, n);
    forall x: State, n: nat | n < |s.streams| && inv(x, n) ensures inv(step(x, n), n + 1) {
      assert StreamAt(s, n);
      ClosingNext(s, x, c, n);
    }
    ForEachKeeps(s, |s.streams|, step, inv);
  }

  lemma BeginBecomes(s: State, c: nat, jobOk: bool, i: nat)
    requires Inv(s) && Enabled(s, DestroyBegin(c, jobOk)) && i < |s.streams|
    ensures var s' := Apply(s, DestroyBegin(c, jobOk));
            i < |s'.streams| && Becomes(s.streams[i], s'.streams[i], Closes(s, DestroyBegin(c, jobOk), i), 0, false)
  {
    assert StreamAt(s, i);
    if s.contexts[c].job.None? || jobOk {
      var s1 := s.(contexts := s.contexts[c := s.contexts[c].(poisoned := true)]);
      var s2 := s1.(contexts := s1.contexts[c := s1.contexts[c].(listed := false, phase := AwaitStreams)]);
      forall j: nat ensures StreamAt(s2, j) { assert StreamAt(s, j); }
      forall k: nat ensures ProcessAt(s2, k) { assert ProcessAt(s, k); }
      CloseAllBecomes(s2, c);
      assert ClosedSoFar(s2, CloseStreamsOf(s2, c), c, |s.streams|, i);
    }
  }

  /** A spawn that fails leaves the streams that were there as they were, and of its own nothing. */
  lemma FailedStreams(s: State, c: nat, pty: bool, merge: bool, n: nat, ids: nat, handles: nat, i: nat)
    requires Inv(s) && c < |s.contexts| && s.contexts[c].phase.Open? && n <= |Stages(pty, merge)|
    ensures var r := SpawnFailed(s, c, Stages(pty, merge), n, ids, handles);
            && |s.streams| <= |r.streams| && r.processes == s.processes
            && (i < |r.streams| ==> if i < |s.streams| then r.streams[i] == s.streams[i] else OwnsNothing(r.streams[i]))
  {
    var b := Built(s, c, Stages(pty, merge), n);
    var x := GaveUp(b.s, ids, handles);
    BuiltKeeps(s, c, pty, merge, n);
    BuiltElsewhere(s, c, Stages(pty, merge), n);
    forall j | 0 <= j < |b.u.streams| ensures b.u.streams[j] == |s.streams| + j && AloneAt(x, b.u.streams[j]) {
      assert MadeAt(b, c, |s.streams|, j);
    }
    CloseEachGone(x, b.u.streams, |s.streams|, |b.u.streams|);
    assert EmptyAt(x, CloseEach(x, b.u.streams, |b.u.streams|), |s.streams|, |b.u.streams|, i);
  }

  predicate Spawns(a: Step) { a.Spawn? || a.SpawnFails? }

  lemma SpawnLeaves(s: State, a: Step, i: nat)
    requires Inv(s) && Enabled(s, a) && a.Spawn? && i < |s.streams|
    ensures i < |Apply(s, a).streams| && Apply(s, a).streams[i] == s.streams[i]
  {
    assert PhaseAt(s, a.c);
    ReclaimKeeps(s);
    SpawnedStreams(Reclaim(s), a.c, a.pty, a.merge);
  }

  lemma FailureLeaves(s: State, a: Step, i: nat)
    requires Inv(s) && Enabled(s, a) && a.SpawnFails? && i < |s.streams|
    ensures i < |Apply(s, a).streams| && Apply(s, a).streams[i] == s.streams[i]
  {
    assert PhaseAt(s, a.c);
    ReclaimKeeps(s);
    FailedStreams(Reclaim(s), a.c, a.pty, a.merge, a.stage, a.ids, a.handles, i);
  }

  lemma SpawnedStreams(s: State, c: nat, pty: bool, merge: bool)
    requires Inv(s) && c < |s.contexts| && s.contexts[c].phase.Open?
    ensures s.streams <= Spawned(s, c, pty, merge).streams
  {
    SpawnedExtends(s, c, pty, merge);
  }

  lemma OtherLeaves(s: State, a: Step, i: nat)
    requires Enabled(s, a) && !Spawns(a) && !a.DestroyBegin? && !a.Close? && !a.Put? && !a.Get? && !a.Eof?
    ensures Apply(s, a).streams == s.streams
  {
    if a.WaitEnd? { WaitContexts(s, a.w, a.jobOk, a.threadOk); }
  }

  /** One proposition, so that a proof that ends in it is checked as a whole. */
  ghost predicate MovesOn(s: State, a: Step, i: nat)
    requires Enabled(s, a) && i < |s.streams|
  {
    MovesTo(s, Apply(s, a), a, i) == true
  }

  ghost predicate MovesTo(s: State, s': State, a: Step, i: nat)
    requires i < |s.streams|
  {
    i < |s'.streams| && Becomes(s.streams[i], s'.streams[i], Closes(s, a, i), Gets(a, i), a == Eof(i))
  }

  lemma SameMovesOn(s: State, a: Step, i: nat)
    requires Enabled(s, a) && i < |s.streams| && StreamOk(s.streams[i]) && !Closes(s, a, i) && Gets(a, i) == 0 && a != Eof(i)
    requires i < |Apply(s, a).streams| && Apply(s, a).streams[i] == s.streams[i]
    ensures MovesOn(s, a, i)
  {
  }

  /** The step is about other things than streams that are there. */
  predicate Elsewhere(a: Step) { !a.Close? && !a.DestroyBegin? && !a.Get? && !a.Put? && !a.Eof? }

  lemma ElsewhereMovesOn(s: State, s': State, a: Step, i: nat)
    requires i < |s.streams| && StreamOk(s.streams[i]) && Elsewhere(a)
    requires i < |s'.streams| && s'.streams[i] == s.streams[i]
    ensures MovesTo(s, s', a, i)
  {
  }

  lemma CloseMovesOn(s: State, j: nat, i: nat)
    requires Inv(s) && Enabled(s, Close(j)) && i < |s.streams|
    ensures MovesOn(s, Close(j), i)
  {
    assert StreamAt(s, i);
    if i == j {
      CloseBecomes(s, i);
    } else {
      CloseLeaves(s, j, i);
      SameMovesOn(s, Close(j), i);
    }
  }

  lemma PutMovesOn(s: State, j: nat, i: nat)
    requires Inv(s) && Enabled(s, Put(j)) && i < |s.streams|
    ensures MovesOn(s, Put(j), i)
  {
    assert StreamAt(s, i) && StreamAt(s, j);
    PutBecomes(s, j);
    if i != j { SameMovesOn(s, Put(j), i); }
  }

  lemma IoMovesOn(s: State, a: Step, i: nat)
    requires Enabled(s, a) && (a.Get? || a.Eof?) && i < |s.streams| && StreamOk(s.streams[i])
    ensures MovesOn(s, a, i)
  {
  }

  lemma SpawnMovesOn(s: State, a: Step, i: nat)
    requires Inv(s) && Enabled(s, a) && a.Spawn? && i < |s.streams| && StreamOk(s.streams[i])
    ensures MovesOn(s, a, i)
  {
    SpawnLeaves(s, a, i);
    ElsewhereMovesOn(s, Apply(s, a), a, i);
  }

  lemma FailureMovesOn(s: State, a: Step, i: nat)
    requires Inv(s) && Enabled(s, a) && a.SpawnFails? && i < |s.streams| && StreamOk(s.streams[i])
    ensures MovesOn(s, a, i)
  {
    FailureLeaves(s, a, i);
    ElsewhereMovesOn(s, Apply(s, a), a, i);
  }

  lemma OtherMovesOn(s: State, a: Step, i: nat)
    requires Enabled(s, a) && !Spawns(a) && !a.DestroyBegin? && !a.Close? && !a.Put? && !a.Get? && !a.Eof?
    requires i < |s.streams| && StreamOk(s.streams[i])
    ensures MovesOn(s, a, i)
  {
    OtherLeaves(s, a, i);
    ElsewhereMovesOn(s, Apply(s, a), a, i);
  }

  /** What every step does to every stream that is there. */
  lemma StreamBecomes(s: State, a: Step, i: nat)
    requires Inv(s) && Enabled(s, a) && i < |s.streams|
    ensures i < |Apply(s, a).streams|
    ensures Becomes(s.streams[i], Apply(s, a).streams[i], Closes(s, a, i), Gets(a, i), a == Eof(i))
  {
    assert MovesOn(s, a, i) by {
      assert StreamAt(s, i);
      if a.Spawn? {
        SpawnMovesOn(s, a, i);
      } else if a.SpawnFails? {
        FailureMovesOn(s, a, i);
      } else if a.DestroyBegin? {
        BeginBecomes(s, a.c, a.jobOk, i);
      } else if a.Close? {
        CloseMovesOn(s, a.i, i);
      } else if a.Put? {
        PutMovesOn(s, a.i, i);
      } else if a.Get? || a.Eof? {
        IoMovesOn(s, a, i);
      } else {
        OtherMovesOn(s, a, i);
      }
    }
  }

  // ----- closing a stream

  /** The process of a stream, if it has one, has taken the handle over for the console's sake. */
  predicate LeftTo(s: State, process: nat, h: Handle) {
    process != 0 && exists k :: 0 <= k < |s.processes| && HasPipe(s.processes[k], process, h)
  }

  predicate HasPipe(p: Process, id: nat, h: Handle) { p.listed && p.id == id && (p.output == Some(h) || p.event == Some(h)) }

  /** A process of the stream may still be writing to its console, and nobody has met the end. */
  predicate NeedsReader(s: State, x: Stream) {
    && x.process != 0 && !x.eof
    && exists k :: 0 <= k < |s.processes| && StillWrites(s, s.processes[k], x.process)
  }

  predicate StillWrites(s: State, p: Process, id: nat) {
    && p.listed && p.id == id
    && (p.console.Some? || (p.closer.Some? && !Exited(s, p.closer.value)))
  }

  predicate Owns(x: Stream, h: Handle) { Some(h) in [x.read, x.write, x.cancel, x.event] }

  /** A stream that is closed is out of the table. If nobody held it, it is disposed of, and each
      of its handles has been closed, once, but for the pipe that a console still needs a reader
      for: that is its process's now. If somebody did, none of them is closed yet. No other stream
      changes. */
  lemma CloseCloses(s: State, i: nat, h: Handle)
    requires Reachable(s) && Enabled(s, Close(i)) && Owns(s.streams[i], h)
    ensures var x := s.streams[i];
            var s' := Apply(s, Close(i));
            && |s'.streams| == |s.streams| && !s'.streams[i].listed && s'.streams[i].holders == x.holders
            && (x.holders == 0 ==>
                  && s'.streams[i].disposed
                  && if NeedsReader(s, x) && (x.read == Some(h) || x.event == Some(h)) then LeftTo(s', x.process, h) && s'.closed[h] == 0
                     else s'.closed[h] == 1)
            && (x.holders > 0 ==> !s'.streams[i].disposed && Owns(s'.streams[i], h) && s'.closed[h] == 0)
            && forall j :: 0 <= j < |s.streams| && j != i ==> s'.streams[j] == s.streams[j]
  {
    ReachableHolds(s);
    OwnedIsOpen(s, i, h);
    CloseKeeps(s, i);
    CloseBecomesAlone(s, i);
    if s.streams[i].holders == 0 { LastCloses(s, i, h); } else { OwnedIsOpen(CloseStream(s, i), i, h); }
  }

  lemma OwnedIsOpen(s: State, i: nat, h: Handle)
    requires Core(s) && i < |s.streams| && Owns(s.streams[i], h)
    ensures s.closed[h] == 0
  {
    assert ConservedAt(s, h);
    AtLeast(s.streams, OfStream, h, i);
  }

  lemma CloseBecomesAlone(s: State, i: nat)
    requires Inv(s) && i < |s.streams| && s.streams[i].listed
    ensures var r := CloseStream(s, i);
            && |r.streams| == |s.streams| && Becomes(s.streams[i], r.streams[i], true, 0, false)
            && forall j :: 0 <= j < |s.streams| && j != i ==> r.streams[j] == s.streams[j]
  {
    assert StreamAt(s, i);
    CloseBecomes(s, i);
    forall j | 0 <= j < |s.streams| && j != i ensures CloseStream(s, i).streams[j] == s.streams[j] { CloseLeaves(s, i, j); }
  }

  lemma LastCloses(s: State, i: nat, h: Handle)
    requires Inv(s) && Enabled(s, Close(i)) && s.streams[i].holders == 0 && Owns(s.streams[i], h) && s.closed[h] == 0
    ensures ClosedOrLeft(s, CloseStream(s, i), i, h)
  {
    assert StreamAt(s, i);
    var r := LastDropped(s, i);
    HeldKeeps(s, r, i);
    SameNeeds(s, r, s.streams[i], r.streams[i]);
    DisposeHandles(r, i);
    assert ConservedAt(Dispose(r, i), h);
    DisposedOrLeft(r, i, h);
  }

  lemma SameNeeds(s: State, r: State, x: Stream, y: Stream)
    requires r.processes == s.processes && r.closers == s.closers && y.process == x.process && y.eof == x.eof
    ensures NeedsReader(r, y) == NeedsReader(s, x)
  {
    if NeedsReader(s, x) {
      var k :| 0 <= k < |s.processes| && StillWrites(s, s.processes[k], x.process);
      assert StillWrites(r, r.processes[k], y.process);
    }
    if NeedsReader(r, y) {
      var k :| 0 <= k < |r.processes| && StillWrites(r, r.processes[k], y.process);
      assert StillWrites(s, s.processes[k], x.process);
    }
  }

  /** The last reference is gone. */
  lemma LastDropped(s: State, i: nat) returns (r: State)
    requires i < |s.streams| && StreamOk(s.streams[i]) && s.streams[i].listed && s.streams[i].holders == 0
    ensures Held(s, r, i) && ReadyStream(r.streams[i]) && CloseStream(s, i) == Dispose(r, i)
    ensures r.closed == s.closed && r.streams[i] == s.streams[i].(listed := false, refs := 0)
  {
    r := s.(streams := s.streams[i := s.streams[i].(listed := false, refs := 0)]);
    DropStream(s.streams[i], r.streams[i]);
    var q := s.(streams := s.streams[i := s.streams[i].(listed := false)]);
    assert q.(streams := q.streams[i := q.streams[i].(refs := 0)]) == r;
  }

  predicate ClosedOrLeft(s: State, s': State, i: nat, h: Handle)
    requires i < |s.streams|
  {
    if NeedsReader(s, s.streams[i]) && (s.streams[i].read == Some(h) || s.streams[i].event == Some(h))
    then LeftTo(s', s.streams[i].process, h) && s'.closed[h] == 0
    else s'.closed[h] == 1
  }

  /** Looking up the process by its id finds the one that needs the reader. */
  lemma LeavesWhenNeeded(s: State, x: Stream)
    requires IdsOk(s)
    ensures LeavesOutput(s, x) <==> NeedsReader(s, x)
  {
    LookupFinds(s.processes, x.process, 0);
    var k := Lookup(s.processes, x.process);
    if LeavesOutput(s, x) { assert StillWrites(s, s.processes[k], x.process); }
    if NeedsReader(s, x) {
      var j :| 0 <= j < |s.processes| && StillWrites(s, s.processes[j], x.process);
      assert k <= j && ProcessIds(s, k, j) && ProcessIds(s, j, k);
    }
  }

  lemma DisposedOrLeft(s: State, i: nat, h: Handle)
    requires Ready(s, i) && Owns(s.streams[i], h) && s.closed[h] == 0 && ConservedAt(s, h) && ConservedAt(Dispose(s, i), h)
    ensures ClosedOrLeft(s, Dispose(s, i), i, h)
  {
    var x := s.streams[i];
    LeavesWhenNeeded(s, x);
    if LeavesOutput(s, x) { LeavesTo(s, i); }
    DisposeCloses(s, i, h);
    if LeavesOutput(s, x) && (x.read == Some(h) || x.event == Some(h)) {
      AtLeast(Dispose(s, i).processes, OfProcess, h, Lookup(s.processes, x.process));
      assert HasPipe(Dispose(s, i).processes[Lookup(s.processes, x.process)], x.process, h);
    }
  }

  // ----- over runs

  /** A stream that has left the table never comes back to it: nobody gets hold of it again. */
  lemma {:induction false} ClosedForGood(s: State, steps: seq<Step>, i: nat)
    requires Inv(s) && CanRun(s, steps) && i < |s.streams| && !s.streams[i].listed
    ensures var s' := Run(s, steps);
            && i < |s'.streams| && !s'.streams[i].listed && !Enabled(s', Get(i)) && s'.streams[i].holders <= s.streams[i].holders
    decreases |steps|
  {
    if steps != [] {
      StreamBecomes(s, steps[0], i);
      StepKeeps(s, steps[0]);
      ClosedForGood(Apply(s, steps[0]), steps[1..], i);
    }
  }

  /** How many more IOs on stream `i` begin than end. */
  function UnderWay(steps: seq<Step>, i: nat): int
    decreases |steps|
  {
    if steps == [] then 0 else Gets(steps[0], i) + UnderWay(steps[1..], i)
  }

  function HoldersOf(s: State, i: nat): nat { if i < |s.streams| then s.streams[i].holders else 0 }

  lemma SizesStay(s: State, a: Step)
    requires Enabled(s, a) && !Spawns(a)
    ensures |Apply(s, a).streams| == |s.streams|
  {
    if a.Create? { assert Apply(s, a).streams == s.streams; } else { SameSizes(s, a); }
  }

  /** Nobody holds a stream that a spawn has just made. */
  lemma NewIsUnheld(s: State, a: Step, i: nat)
    requires Inv(s) && Enabled(s, a) && Spawns(a) && i >= |s.streams|
    ensures i < |Apply(s, a).streams| ==> Apply(s, a).streams[i].holders == 0
  {
    var r := Reclaim(s);
    assert PhaseAt(s, a.c);
    ReclaimKeeps(s);
    if a.Spawn? {
      SpawnedUnheld(r, a.c, a.pty, a.merge, i);
    } else {
      FailedStreams(r, a.c, a.pty, a.merge, a.stage, a.ids, a.handles, i);
      StepKeeps(s, a);
      assert StreamAt(Apply(s, a), i);
    }
  }

  lemma SpawnedUnheld(s: State, c: nat, pty: bool, merge: bool, i: nat)
    requires Inv(s) && c < |s.contexts| && s.contexts[c].phase.Open? && i >= |s.streams|
    ensures var r := Spawned(s, c, pty, merge); i < |r.streams| ==> r.streams[i].holders == 0
  {
    var b := Built(s, c, Stages(pty, merge), |Stages(pty, merge)|);
    BuiltKeeps(s, c, pty, merge, |Stages(pty, merge)|);
    assert MadeAt(b, c, |s.streams|, i - |s.streams|) && StreamAt(b.s, i);
    CommitHolds(b, c, i);
  }

  lemma CommitHolds(b: Building, c: nat, i: nat)
    requires c < |b.s.contexts|
    ensures |Committed(b, c).streams| == |b.s.streams|
    ensures i < |b.s.streams| ==> Committed(b, c).streams[i].holders == b.s.streams[i].holders
  {
  }

  lemma HoldersStep(s: State, a: Step, i: nat)
    requires Inv(s) && Enabled(s, a)
    ensures HoldersOf(Apply(s, a), i) == HoldersOf(s, i) + Gets(a, i)
  {
    if i < |s.streams| {
      StreamBecomes(s, a, i);
    } else if Spawns(a) {
      NewIsUnheld(s, a, i);
    } else {
      SizesStay(s, a);
    }
  }

  lemma {:induction false} HoldersRun(s: State, steps: seq<Step>, i: nat)
    requires Inv(s) && CanRun(s, steps)
    ensures HoldersOf(Run(s, steps), i) == HoldersOf(s, i) + UnderWay(steps, i)
    decreases |steps|
  {
    if steps != [] {
      HoldersStep(s, steps[0], i);
      StepKeeps(s, steps[0]);
      HoldersRun(Apply(s, steps[0]), steps[1..], i);
    }
  }

  /** Over every run from the start the holders of a stream are the IOs on it that have begun and
      not yet ended, and nothing else ever takes or drops a hold. */
  lemma HoldersAreUnderWay(steps: seq<Step>, i: nat)
    requires CanRun(Empty, steps) && i < |Run(Empty, steps).streams|
    ensures Run(Empty, steps).streams[i].holders == UnderWay(steps, i)
  {
    InitialHolds();
    HoldersRun(Empty, steps, i);
  }
}
