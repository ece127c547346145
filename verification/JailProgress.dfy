/** The destruction of a context is never stuck: until it has ended, some thread that it
    waits for, or the destroying thread itself, has a step to take. */
module JailProgress {
  import opened Basics
  import opened JailHandles
  import opened JailInvariant
  import opened JailModel
  import opened JailRuns
  import opened JailSpawns

  /** Every closer handle of a record is that of a closer thread. */
  ghost predicate Threads(s: State) {
    forall k: nat :: ThreadAt(s, k)
  }

  ghost predicate ThreadAt(s: State, k: nat) {
    k < |s.processes| && s.processes[k].closer.Some? ==> IsThread(s.closers, s.processes[k].closer.value)
  }

  ghost predicate IsThread(cs: seq<Closer>, h: Handle) {
    exists j :: 0 <= j < |cs| && cs[j].thread == h
  }

  /** Closer threads stay, and records only lose their closer or get a new thread. */
  ghost predicate Grown(s: State, s': State) {
    && |s.closers| <= |s'.closers|
    && (forall j :: 0 <= j < |s.closers| ==> s'.closers[j].thread == s.closers[j].thread)
    && (forall k: nat :: GrownAt(s, s', k))
  }

  ghost predicate GrownAt(s: State, s': State, k: nat) {
    k < |s'.processes| && s'.processes[k].closer.Some? ==>
      || IsThread(s'.closers, s'.processes[k].closer.value)
      || (k < |s.processes| && s'.processes[k].closer == s.processes[k].closer)
  }

  lemma GrownKeeps(s: State, s': State)
    requires Threads(s) && Grown(s, s')
    ensures Threads(s')
  {
    forall k: nat ensures ThreadAt(s', k) {
      assert GrownAt(s, s', k) && ThreadAt(s, k);
      if k < |s.processes| && s.processes[k].closer.Some? {
        ThreadStays(s.closers, s'.closers, s.processes[k].closer.value);
      }
    }
  }

  lemma ThreadStays(cs: seq<Closer>, cs': seq<Closer>, h: Handle)
    requires |cs| <= |cs'| && forall j :: 0 <= j < |cs| ==> cs'[j].thread == cs[j].thread
    ensures IsThread(cs, h) ==> IsThread(cs', h)
  {
    if IsThread(cs, h) {
      var j :| 0 <= j < |cs| && cs[j].thread == h;
      assert cs'[j].thread == h;
    }
  }

  ghost predicate SameClosers(s: State, s': State) {
    && s'.closers == s.closers && |s'.processes| == |s.processes|
    && forall k: nat :: SameCloserAt(s, s', k)
  }

  predicate SameCloserAt(s: State, s': State, k: nat) {
    k < |s.processes| && k < |s'.processes| ==> s'.processes[k].closer == s.processes[k].closer
  }

  lemma SameClosersTwice(s: State, s': State, s'': State)
    requires SameClosers(s, s') && SameClosers(s', s'')
    ensures SameClosers(s, s'')
  {
    forall k: nat ensures SameCloserAt(s, s'', k) { assert SameCloserAt(s, s', k) && SameCloserAt(s', s'', k); }
  }

  lemma DropClosers(s: State, i: nat)
    requires i < |s.streams|
    ensures SameClosers(s, DropRef(s, i))
  {
  }

  lemma ClosingClosers(s: State, x: State, c: nat, i: nat)
    requires SameClosers(s, x)
    ensures SameClosers(s, Closing(c)(x, i))
  {
    if i < |x.streams| && x.streams[i].listed && x.streams[i].ctx == c {
      DropClosers(x.(streams := x.streams[i := x.streams[i].(listed := false)]), i);
      SameClosersTwice(s, x, CloseStream(x, i));
    }
  }

  lemma CloseAllClosers(s: State, c: nat)
    ensures SameClosers(s, CloseStreamsOf(s, c))
  {
    var step, inv := Closing(c), (x: State, i: nat) => SameClosers(s, x);
    forall x: State, i: nat | i < |s.streams| && inv(x, i) ensures inv(step(x, i), i + 1) { ClosingClosers(s, x, c, i); }
    assert SameClosers(s, s);
    ForEachKeeps(s, |s.streams|, step, inv);
  }

  lemma StartCloserThreads(s: State, k: nat)
    requires Threads(s) && k < |s.processes|
    ensures Threads(StartCloser(s, k))
  {
    var s' := StartCloser(s, k);
    assert s'.closers[|s.closers|].thread == s.nextHandle;
    GrownKeeps(s, s');
  }

  /** Records change without gaining a closer. */
  lemma FewerClosers(s: State, s': State)
    requires Threads(s) && s'.closers == s.closers && |s.processes| <= |s'.processes|
    requires forall k :: 0 <= k < |s.processes| ==> s'.processes[k].closer in {s.processes[k].closer, None}
    requires forall k :: |s.processes| <= k < |s'.processes| ==> s'.processes[k].closer.None?
    ensures Threads(s')
  {
    GrownKeeps(s, s');
  }

  lemma SpawnThreads(s: State, a: Step)
    requires Threads(s) && Enabled(s, a) && Sweeps(a) && Inv(s)
    ensures Threads(Apply(s, a))
  {
    SweepThreads(s);
    if a.Spawn? {
      SpawnedThreads(Reclaim(s), a.c, a.pty, a.merge);
    } else {
      FailedThreads(Reclaim(s), a.c, Stages(a.pty, a.merge), a.stage, a.ids, a.handles);
    }
  }

  lemma SpawnedThreads(s: State, c: nat, pty: bool, merge: bool)
    requires Threads(s) && c < |s.contexts|
    ensures Threads(Spawned(s, c, pty, merge))
  {
    SpawnedClosers(s, c, pty, merge);
    FewerClosers(s, Spawned(s, c, pty, merge));
  }

  lemma FailedThreads(s: State, c: nat, stages: seq<Stage>, n: nat, ids: nat, handles: nat)
    requires Threads(s) && c < |s.contexts| && n <= |stages|
    ensures Threads(SpawnFailed(s, c, stages, n, ids, handles))
  {
    FailedClosers(s, c, stages, n, ids, handles);
    SameClosersKeep(s, SpawnFailed(s, c, stages, n, ids, handles));
  }

  lemma SweepThreads(s: State)
    requires Threads(s) && Inv(s)
    ensures Threads(Reclaim(s))
  {
    var r := Reclaim(s);
    ReclaimKeeps(s);
    forall k: nat | k < |s.processes| ensures r.processes[k].closer in {s.processes[k].closer, None} {
      SweepIsExact(s, k);
      assert ProcessAt(r, k);
    }
    FewerClosers(s, r);
  }

  lemma SameClosersKeep(s: State, s': State)
    requires Threads(s) && SameClosers(s, s')
    ensures Threads(s')
  {
    forall k: nat | k < |s.processes| ensures s'.processes[k].closer == s.processes[k].closer { assert SameCloserAt(s, s', k); }
    FewerClosers(s, s');
  }

  lemma {:induction false} BuiltClosers(s: State, c: nat, stages: seq<Stage>, n: nat)
    requires c < |s.contexts| && n <= |stages|
    ensures Built(s, c, stages, n).s.closers == s.closers && Built(s, c, stages, n).s.processes == s.processes
    decreases n
  {
    if n > 0 { BuiltClosers(s, c, stages, n - 1); }
  }

  lemma SpawnedClosers(s: State, c: nat, pty: bool, merge: bool)
    requires c < |s.contexts|
    ensures var r := Spawned(s, c, pty, merge);
            && s.processes <= r.processes && |r.processes| == |s.processes| + 1 && r.closers == s.closers
            && r.processes[|s.processes|].closer.None?
  {
    BuiltClosers(s, c, Stages(pty, merge), |Stages(pty, merge)|);
  }

  lemma {:induction false} CloseEachClosers(s: State, made: seq<nat>, n: nat)
    requires n <= |made|
    ensures SameClosers(s, CloseEach(s, made, n))
    decreases n
  {
    if n > 0 {
      var i := made[n - 1];
      if i < |s.streams| {
        DropClosers(s.(streams := s.streams[i := s.streams[i].(listed := false)]), i);
        CloseEachClosers(CloseStream(s, i), made, n - 1);
        SameClosersTwice(s, CloseStream(s, i), CloseEach(CloseStream(s, i), made, n - 1));
      } else {
        CloseEachClosers(s, made, n - 1);
      }
    }
  }

  lemma FailedClosers(s: State, c: nat, stages: seq<Stage>, n: nat, ids: nat, handles: nat)
    requires c < |s.contexts| && n <= |stages|
    ensures SameClosers(s, SpawnFailed(s, c, stages, n, ids, handles))
  {
    var b := Built(s, c, stages, n);
    BuiltClosers(s, c, stages, n);
    var g := GaveUp(b.s, ids, handles);
    EqualClosers(s, g);
    CloseEachClosers(g, b.u.streams, |b.u.streams|);
    var x := CloseEach(g, b.u.streams, |b.u.streams|);
    SameClosersTwice(s, g, x);
    EqualClosers(x, x.(closed := x.closed + Ends(b.u)));
    SameClosersTwice(s, x, x.(closed := x.closed + Ends(b.u)));
  }

  lemma EqualClosers(s: State, s': State)
    requires s'.closers == s.closers && s'.processes == s.processes
    ensures SameClosers(s, s')
  {
  }

  lemma WaitEndThreads(s: State, w: nat, jobOk: bool, threadOk: bool)
    requires Threads(s) && w < |s.waiters|
    ensures Threads(WaitEnded(s, w, jobOk, threadOk))
  {
    var s1 := s.(waiters := s.waiters[w := s.waiters[w].(duplicate := None)], closed := s.closed + Slot(s.waiters[w].duplicate));
    FewerClosers(s, s1);
    var k := Lookup(s.processes, s.waiters[w].id);
    if k < |s.processes| {
      FewerClosers(s1, Reap(s1, k));
      StartCloserThreads(Reap(s1, k), k);
      var s2 := Finished(s1, k, jobOk, ContextOpen(s, s.processes[k].context) && threadOk);
      FewerClosers(s2, WaitEnded(s, w, jobOk, threadOk));
    }
  }

  lemma DestroyTakeThreads(s: State, c: nat, k: nat, threadOk: bool)
    requires Threads(s) && c < |s.contexts| && k < |s.processes|
    ensures Threads(DestroyTakes(s, c, k, threadOk))
  {
    var r := Reap(s, k);
    FewerClosers(s, r);
    StartCloserThreads(r, k);
    if r.processes[k].console.Some? && threadOk {
      FewerClosers(StartCloser(r, k), DestroyTakes(s, c, k, threadOk));
    } else {
      FewerClosers(r, DestroyTakes(s, c, k, threadOk));
    }
  }

  lemma StepThreads(s: State, a: Step)
    requires Inv(s) && Threads(s) && Enabled(s, a)
    ensures Threads(Apply(s, a))
  {
    if Sweeps(a) {
      SpawnThreads(s, a);
    } else if a.WaitEnd? {
      WaitEndThreads(s, a.w, a.jobOk, a.threadOk);
    } else if a.DestroyTake? {
      DestroyTakeThreads(s, a.c, a.k, a.threadOk);
    } else if a.CloserDone? {
      GrownKeeps(s, Apply(s, a));
    } else if Streamy(a) {
      StreamyClosers(s, a);
      SameClosersKeep(s, Apply(s, a));
    } else {
      OtherClosers(s, a);
      FewerClosers(s, Apply(s, a));
    }
  }

  predicate Streamy(a: Step) { a.Put? || a.Close? || a.DestroyBegin? }

  lemma StreamyClosers(s: State, a: Step)
    requires Enabled(s, a) && Streamy(a)
    ensures SameClosers(s, Apply(s, a))
  {
    if a.Put? {
      var x := s.(streams := s.streams[a.i := s.streams[a.i].(holders := s.streams[a.i].holders - 1)]);
      EqualClosers(s, x);
      DropClosers(x, a.i);
      SameClosersTwice(s, x, DropRef(x, a.i));
    } else if a.Close? {
      var x := s.(streams := s.streams[a.i := s.streams[a.i].(listed := false)]);
      EqualClosers(s, x);
      DropClosers(x, a.i);
      SameClosersTwice(s, x, DropRef(x, a.i));
    } else {
      DestroyBeginClosers(s, a.c, a.jobOk);
    }
  }

  lemma OtherClosers(s: State, a: Step)
    requires Enabled(s, a) && !Sweeps(a) && !a.WaitEnd? && !a.DestroyTake? && !a.CloserDone? && !Streamy(a)
    ensures Apply(s, a).closers == s.closers && |Apply(s, a).processes| == |s.processes|
    ensures forall k: nat :: k < |s.processes| ==> Apply(s, a).processes[k].closer in {s.processes[k].closer, None}
  {
  }

  lemma DestroyBeginClosers(s: State, c: nat, jobOk: bool)
    requires c < |s.contexts|
    ensures SameClosers(s, DestroyBegun(s, c, jobOk))
  {
    var s1 := s.(contexts := s.contexts[c := s.contexts[c].(poisoned := true)]);
    var s2 := s1.(contexts := s1.contexts[c := s1.contexts[c].(listed := false, phase := AwaitStreams)]);
    assert SameClosers(s, s1) && SameClosers(s, s2);
    CloseAllClosers(s2, c);
    SameClosersTwice(s, s2, CloseStreamsOf(s2, c));
  }

  lemma {:induction false} RunThreads(s: State, steps: seq<Step>)
    requires Inv(s) && Threads(s) && CanRun(s, steps)
    ensures Threads(Run(s, steps))
    decreases |steps|
  {
    if steps != [] {
      StepKeeps(s, steps[0]);
      StepThreads(s, steps[0]);
      RunThreads(Apply(s, steps[0]), steps[1..]);
    }
  }

  lemma {:induction false} SomeInUse(xs: seq<Stream>, c: nat) returns (i: nat)
    requires Total(xs, InUse, c) > 0
    ensures i < |xs| && InUse(xs[i], c) == 1
  {
    if InUse(xs[|xs| - 1], c) == 1 {
      i := |xs| - 1;
    } else {
      i := SomeInUse(xs[..|xs| - 1], c);
    }
  }

  predicate Destroying(x: Context) { !x.phase.Open? && !x.phase.Freed? }

  /** The steps a destruction of `c` goes on with: an IO letting go of one of its streams,
      a closer thread ending, or its own next step, all going well. */
  predicate GoesOn(s: State, c: nat, a: Step)
    requires c < |s.contexts|
  {
    || (a.Put? && a.i < |s.streams| && s.streams[a.i].ctx == c)
    || (a.CloserDone? && a.k < |s.closers| && s.contexts[c].phase.Draining?
        && s.contexts[c].phase.closer == Some(s.closers[a.k].thread))
    || (a.DestroyTake? && a.c == c && a.threadOk)
    || (a.DestroyDrain? && a.c == c && a.ok)
    || (a.DestroyEnd? && a.c == c && a.desktopOk && a.profileOk)
  }

  /** What an exit of the closer, a drain and the IOs still have to do before a destruction can end. */
  function Remaining(s: State, c: nat): nat
    requires c < |s.contexts|
  {
    Total(s.streams, HoldersOf, c) + 4 * Total(s.processes, IsRecord, s.contexts[c].id) + OfPhase(s, s.contexts[c].phase)
  }

  function HoldersOf(st: Stream, c: nat): nat { if st.ctx == c then st.holders else 0 }

  function IsRecord(p: Process, id: nat): nat { if RecordOf(p, id) then 1 else 0 }

  function OfPhase(s: State, d: Phase): nat {
    if !d.Draining? then 3 else if d.closer.Some? && !Exited(s, d.closer.value) then 2 else 1
  }

  /** A step that goes on with the destruction of `c` and brings it nearer to its end. */
  ghost predicate Nearer(s: State, c: nat, a: Step)
    requires c < |s.contexts|
  {
    && Enabled(s, a) && GoesOn(s, c, a)
    && var s' := Apply(s, a);
       c < |s'.contexts| && (s'.contexts[c].phase.Freed? || (Destroying(s'.contexts[c]) && Remaining(s', c) < Remaining(s, c)))
  }

  /** Until it has ended, some thread that the destruction waits for, or the destroying thread
      itself, has a step that brings it nearer to its end. */
  lemma DestroyIsNeverStuck(s: State, c: nat) returns (a: Step)
    requires Reachable(s) && c < |s.contexts| && Destroying(s.contexts[c])
    ensures Nearer(s, c, a)
  {
    ReachableThreads(s);
    a := DestroyAdvances(s, c);
  }

  lemma ReachableThreads(s: State)
    requires Reachable(s)
    ensures Inv(s) && Threads(s)
  {
    var steps :| CanRun(Empty, steps) && Run(Empty, steps) == s;
    InitialHolds();
    RunThreads(Empty, steps);
    ReachableHolds(s);
  }

  lemma DestroyAdvances(s: State, c: nat) returns (a: Step)
    requires Inv(s) && Threads(s) && c < |s.contexts| && Destroying(s.contexts[c])
    ensures Nearer(s, c, a)
  {
    assert PhaseAt(s, c);
    if s.contexts[c].phase.Draining? {
      a := DrainGoesOn(s, c);
    } else if s.contexts[c].live != 0 {
      a := HolderGoesOn(s, c);
    } else if k: nat :| k < |s.processes| && RecordOf(s.processes[k], s.contexts[c].id) {
      a := DestroyTake(c, k, true);
      TakeAdvances(s, c, k);
    } else {
      assert NoRecord(s, s.contexts[c].id);
      forall k: nat | k < |s.processes| ensures !(s.processes[k].listed && s.processes[k].context == s.contexts[c].id) {
        assert !RecordOf(s.processes[k], s.contexts[c].id);
      }
      a := DestroyEnd(c, true, true);
    }
  }

  lemma TakeAdvances(s: State, c: nat, k: nat)
    requires Enabled(s, DestroyTake(c, k, true))
    ensures Nearer(s, c, DestroyTake(c, k, true))
  {
    var s' := Apply(s, DestroyTake(c, k, true));
    TakeRecords(s, c, k, true);
    forall j | 0 <= j < |s.processes| ensures IsRecord(s'.processes[j], s.contexts[c].id) == IsRecord(s.processes[j], s.contexts[c].id) {}
    TotalSame(s.processes, s'.processes, IsRecord, s.contexts[c].id);
  }

  lemma HolderGoesOn(s: State, c: nat) returns (a: Step)
    requires Inv(s) && c < |s.contexts| && Destroying(s.contexts[c]) && !s.contexts[c].phase.Draining? && s.contexts[c].live != 0
    ensures Nearer(s, c, a)
  {
    assert LiveAt(s, c);
    var i := SomeInUse(s.streams, c);
    assert StreamAt(s, i) && ShutAt(s, i);
    a := Put(i);
    PutAdvances(s, c, i);
  }

  lemma PutAdvances(s: State, c: nat, i: nat)
    requires Enabled(s, Put(i)) && s.streams[i].ctx == c < |s.contexts| && Destroying(s.contexts[c]) && !s.contexts[c].phase.Draining?
    ensures Nearer(s, c, Put(i))
  {
    var s' := s.(streams := s.streams[i := s.streams[i].(holders := s.streams[i].holders - 1)]);
    DropChanges(s, s', i);
    DropHolders(s', i);
    LessHeld(s, DropRef(s', i), c, i);
  }

  lemma LessHeld(s: State, r: State, c: nat, i: nat)
    requires i < |s.streams| && s.streams[i].ctx == c < |s.contexts| && !s.contexts[c].phase.Draining? && OneStream(s, r, i)
    requires r.streams[i].holders + 1 == s.streams[i].holders && r.streams[i].ctx == c && r.contexts[c].phase == s.contexts[c].phase
    ensures Remaining(r, c) < Remaining(s, c)
  {
    TotalUpdate(s.streams, HoldersOf, c, i, r.streams[i]);
    forall j | 0 <= j < |s.processes| ensures IsRecord(r.processes[j], s.contexts[c].id) == IsRecord(s.processes[j], s.contexts[c].id) {}
    TotalSame(s.processes, r.processes, IsRecord, s.contexts[c].id);
  }

  lemma DropHolders(s: State, i: nat)
    requires i < |s.streams|
    ensures var r := DropRef(s, i);
            && |r.streams| == |s.streams| && r.streams[i].holders == s.streams[i].holders && r.streams[i].ctx == s.streams[i].ctx
            && |r.contexts| == |s.contexts| && forall d :: 0 <= d < |s.contexts| ==> r.contexts[d] == s.contexts[d].(live := r.contexts[d].live)
  {
  }

  lemma {:induction false} ExitedAt(cs: seq<Closer>, j: nat)
    requires j < |cs| && cs[j].console.None?
    ensures HasExited(cs, cs[j].thread)
  {
    if j < |cs| - 1 { ExitedAt(cs[..|cs| - 1], j); }
  }

  lemma DrainGoesOn(s: State, c: nat) returns (a: Step)
    requires Inv(s) && Threads(s) && c < |s.contexts| && s.contexts[c].phase.Draining?
    ensures Nearer(s, c, a)
  {
    var d := s.contexts[c].phase;
    assert PhaseAt(s, c);
    assert ProcessAt(s, d.p) && ThreadAt(s, d.p);
    if d.closer.Some? && !Exited(s, d.closer.value) {
      var j :| 0 <= j < |s.closers| && s.closers[j].thread == d.closer.value;
      if s.closers[j].console.None? { ExitedAt(s.closers, j); }
      a := CloserDone(j);
      ExitedAt(Apply(s, a).closers, j);
    } else {
      a := DestroyDrain(c, true);
      DrainAdvances(s, c);
    }
  }

  lemma DrainAdvances(s: State, c: nat)
    requires Inv(s) && Enabled(s, DestroyDrain(c, true))
    ensures Nearer(s, c, DestroyDrain(c, true))
  {
    var s' := Apply(s, DestroyDrain(c, true));
    var k, id := s.contexts[c].phase.p, s.contexts[c].id;
    assert PhaseAt(s, c) && ContextIds(s, c, c);
    TotalUpdate(s.processes, IsRecord, id, k, s'.processes[k]);
  }

  /** Every step of a run goes on with the destruction of `c`. */
  ghost predicate GoesOnThrough(s: State, c: nat, steps: seq<Step>)
    requires CanRun(s, steps)
    decreases |steps|
  {
    steps == [] || (c < |s.contexts| && GoesOn(s, c, steps[0]) && GoesOnThrough(Apply(s, steps[0]), c, steps[1..]))
  }

  /** From every reachable state with a destruction under way there is a run that ends it: only
      the IOs of its streams, its closer threads and the destroying thread take steps. */
  lemma DestroyCanEnd(s: State, c: nat) returns (steps: seq<Step>)
    requires Reachable(s) && c < |s.contexts| && Destroying(s.contexts[c])
    ensures CanRun(s, steps) && GoesOnThrough(s, c, steps)
    ensures c < |Run(s, steps).contexts| && Run(s, steps).contexts[c].phase.Freed?
  {
    ReachableThreads(s);
    steps := DestroyRun(s, c);
  }

  lemma {:induction false} DestroyRun(s: State, c: nat) returns (steps: seq<Step>)
    requires Inv(s) && Threads(s) && c < |s.contexts| && Destroying(s.contexts[c])
    ensures CanRun(s, steps) && GoesOnThrough(s, c, steps)
    ensures c < |Run(s, steps).contexts| && Run(s, steps).contexts[c].phase.Freed?
    decreases Remaining(s, c)
  {
    var a := DestroyAdvances(s, c);
    var s' := Apply(s, a);
    if s'.contexts[c].phase.Freed? {
      steps := [a];
    } else {
      StepKeeps(s, a);
      StepThreads(s, a);
      var rest := DestroyRun(s', c);
      steps := [a] + rest;
      assert steps[1..] == rest;
    }
  }

  /** Every step of a run brings the destruction of `c` nearer to its end, until it has ended. */
  ghost predicate NearerThrough(s: State, c: nat, steps: seq<Step>)
    requires CanRun(s, steps)
    decreases |steps|
  {
    steps != [] ==>
      c < |s.contexts| && Destroying(s.contexts[c]) && Nearer(s, c, steps[0]) && NearerThrough(Apply(s, steps[0]), c, steps[1..])
  }

  /** However such steps are chosen, there are no more of them than what remains at first, and
      where none is left the destruction has ended. */
  lemma {:induction false} NearerRunsEnd(s: State, c: nat, steps: seq<Step>)
    requires Reachable(s) && c < |s.contexts| && Destroying(s.contexts[c]) && CanRun(s, steps) && NearerThrough(s, c, steps)
    ensures |steps| <= Remaining(s, c) && c < |Run(s, steps).contexts|
    ensures var s' := Run(s, steps);
            s'.contexts[c].phase.Freed? || (Destroying(s'.contexts[c]) && exists a :: Nearer(s', c, a))
    decreases |steps|
  {
    if steps == [] {
      var a := DestroyIsNeverStuck(s, c);
    } else {
      var s' := Apply(s, steps[0]);
      if s'.contexts[c].phase.Freed? {
        assert steps[1..] == [];
      } else {
        StepReaches(s, steps[0]);
        NearerRunsEnd(s', c, steps[1..]);
      }
    }
  }

  lemma StepReaches(s: State, a: Step)
    requires Reachable(s) && Enabled(s, a)
    ensures Reachable(Apply(s, a))
  {
    var steps :| CanRun(Empty, steps) && Run(Empty, steps) == s;
    RunOneMore(Empty, steps, a);
  }

  lemma {:induction false} RunOneMore(s: State, steps: seq<Step>, a: Step)
    requires CanRun(s, steps) && Enabled(Run(s, steps), a)
    ensures CanRun(s, steps + [a]) && Run(s, steps + [a]) == Apply(Run(s, steps), a)
    decreases |steps|
  {
    if steps == [] {
      assert [] + [a] == [a] && [a][1..] == [];
    } else {
      assert (steps + [a])[0] == steps[0] && (steps + [a])[1..] == steps[1..] + [a];
      RunOneMore(Apply(s, steps[0]), steps[1..], a);
    }
  }
}
