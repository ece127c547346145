/** What lasts from one state of the Windows tables to the next, what a step may drop, and
    what is left of a context after its destruction. */
module JailRuns {
  import opened Basics
  import opened JailContexts
  import opened JailHandles
  import opened JailInvariant
  import opened JailModel
  import opened JailSpawns
  import opened JailStages
  import opened JailStreams

  // ----- what no step undoes

  /** Entries and their ids stay, disposal and destruction are final, and no record
      leaves the table but by the sweep of a spawn. */
  ghost predicate Lasting(s: State, s': State, sweep: bool) {
    && |s.streams| <= |s'.streams| && |s.contexts| <= |s'.contexts| && |s.processes| <= |s'.processes|
    && s.nextId <= s'.nextId
    && (forall i: nat :: LastingStream(s, s', i))
    && (forall c: nat :: LastingContext(s, s', c))
    && (forall k: nat :: LastingProcess(s, s', sweep, k))
  }

  predicate LastingStream(s: State, s': State, i: nat) {
    i < |s.streams| && i < |s'.streams| ==>
      s'.streams[i].id == s.streams[i].id && (s.streams[i].disposed ==> s'.streams[i] == s.streams[i])
  }

  predicate LastingContext(s: State, s': State, c: nat) {
    c < |s.contexts| && c < |s'.contexts| ==>
      s'.contexts[c].id == s.contexts[c].id && (s.contexts[c].phase.Freed? ==> s'.contexts[c] == s.contexts[c])
  }

  predicate LastingProcess(s: State, s': State, sweep: bool, k: nat) {
    k < |s.processes| && k < |s'.processes| ==>
      s'.processes[k].id == s.processes[k].id && (sweep || s'.processes[k].listed == s.processes[k].listed)
  }

  lemma LastingTwice(s: State, s': State, s'': State, sweep: bool)
    requires Lasting(s, s', sweep) && Lasting(s', s'', sweep)
    ensures Lasting(s, s'', sweep)
  {
    forall i: nat ensures LastingStream(s, s'', i) { assert LastingStream(s, s', i) && LastingStream(s', s'', i); }
    forall c: nat ensures LastingContext(s, s'', c) { assert LastingContext(s, s', c) && LastingContext(s', s'', c); }
    forall k: nat ensures LastingProcess(s, s'', sweep, k) {
      assert LastingProcess(s, s', sweep, k) && LastingProcess(s', s'', sweep, k);
    }
  }

  /** A stream in use keeps its context from being freed. */
  lemma InUseNotFreed(s: State, i: nat)
    requires Tables(s) && i < |s.streams| && !s.streams[i].disposed
    ensures s.streams[i].ctx < |s.contexts| && !s.contexts[s.streams[i].ctx].phase.Freed?
    ensures s.contexts[s.streams[i].ctx].live > 0
  {
    var c := s.streams[i].ctx;
    assert BelongsAt(s, i) && PhaseAt(s, c) && LiveAt(s, c);
    if s.contexts[c].live == 0 { NoneInUse(s.streams, c, i); }
  }

  lemma DropLasts(s: State, s': State, i: nat)
    requires Tables(s) && Held(s, s', i) && !s.streams[i].disposed
    ensures Lasting(s, DropRef(s', i), false)
  {
    InUseNotFreed(s, i);
    DropChanges(s, s', i);
    var r := DropRef(s', i);
    forall j: nat ensures LastingStream(s, r, j) {}
    forall c: nat ensures LastingContext(s, r, c) {}
    forall k: nat ensures LastingProcess(s, r, false, k) {}
  }

  /** What giving up a reference may change: its stream, that stream's context, one pipe. */
  lemma DropChanges(s: State, s': State, i: nat)
    requires Held(s, s', i)
    ensures OneStream(s, DropRef(s', i), i)
  {
    var s'' := s'.(streams := s'.streams[i := s'.streams[i].(refs := s'.streams[i].refs - 1)]);
    assert OneStream(s, s'', i);
    if s''.streams[i].refs == 0 { DisposeChanges(s'', i); }
  }

  lemma DisposeChanges(s: State, i: nat)
    requires i < |s.streams|
    ensures OneStream(s, Dispose(s, i), i)
  {
  }

  predicate OneStream(s: State, r: State, i: nat)
    requires i < |s.streams|
  {
    && |r.streams| == |s.streams| && |r.contexts| == |s.contexts| && |r.processes| == |s.processes| && r.nextId == s.nextId
    && r.streams == s.streams[i := r.streams[i]] && r.streams[i].id == s.streams[i].id
    && (forall c :: 0 <= c < |s.contexts| ==>
          r.contexts[c].id == s.contexts[c].id && (c != s.streams[i].ctx ==> r.contexts[c] == s.contexts[c]))
    && (forall k :: 0 <= k < |s.processes| ==>
          && r.processes[k].id == s.processes[k].id && r.processes[k].listed == s.processes[k].listed
          && r.processes[k].context == s.processes[k].context)
  }

  lemma ClosingLasts(s: State, x: State, c: nat, i: nat)
    requires Core(x) && Lasting(s, x, false)
    ensures Lasting(s, Closing(c)(x, i), false)
  {
    if i < |x.streams| && x.streams[i].listed && x.streams[i].ctx == c {
      CloseLasts(x, i);
      LastingTwice(s, x, CloseStream(x, i), false);
    }
  }

  lemma CloseAllLasts(s: State, c: nat)
    requires Core(s)
    ensures Lasting(s, CloseStreamsOf(s, c), false)
  {
    var step, inv := Closing(c), (x: State, i: nat) => Core(x) && Lasting(s, x, false);
    forall x: State, i: nat | i < |s.streams| && inv(x, i) ensures inv(step(x, i), i + 1) {
      ClosingKeeps(x, c, i);
      ClosingLasts(s, x, c, i);
    }
    LastingSelf(s);
    ForEachKeeps(s, |s.streams|, step, inv);
  }

  lemma LastingSelf(s: State)
    ensures Lasting(s, s, false)
  {
  }

  lemma CloseLasts(s: State, i: nat)
    requires Core(s) && i < |s.streams| && s.streams[i].listed
    ensures Lasting(s, CloseStream(s, i), false)
  {
    assert StreamAt(s, i);
    DropLasts(s, s.(streams := s.streams[i := s.streams[i].(listed := false)]), i);
  }

  lemma DestroyBeginLasts(s: State, c: nat, jobOk: bool)
    requires Inv(s) && Enabled(s, DestroyBegin(c, jobOk))
    ensures Lasting(s, Apply(s, DestroyBegin(c, jobOk)), false)
  {
    var s1 := s.(contexts := s.contexts[c := s.contexts[c].(poisoned := true)]);
    assert PhaseAt(s, c);
    Marked(s, s1, c);
    ChangeConserves(s, s1, c);
    ChangeTables(s, s1, c);
    if s.contexts[c].job.None? || jobOk {
      var s2 := s1.(contexts := s1.contexts[c := s1.contexts[c].(listed := false, phase := AwaitStreams)]);
      Marked(s1, s2, c);
      ChangeConserves(s1, s2, c);
      ChangeTables(s1, s2, c);
      CloseAllLasts(s2, c);
      LastingTwice(s, s1, s2, false);
      LastingTwice(s, s2, CloseStreamsOf(s2, c), false);
    }
  }

  lemma Marked(s: State, s': State, c: nat)
    requires Changed(s, s', c) && !s.contexts[c].phase.Freed?
    ensures Lasting(s, s', false)
  {
    forall j: nat ensures LastingStream(s, s', j) {}
    forall d: nat ensures LastingContext(s, s', d) {}
    forall k: nat ensures LastingProcess(s, s', false, k) {}
  }

  // ----- the sweep

  predicate SweptAt(s: State, x: State, n: nat, k: nat) {
    k < |s.processes| && k < |x.processes| ==>
      if k < n && Reclaimable(s, s.processes[k]) then !x.processes[k].listed && x.processes[k].id == s.processes[k].id
      else x.processes[k] == s.processes[k]
  }

  ghost predicate Swept(s: State, x: State, n: nat) {
    |x.processes| == |s.processes| && x.closers == s.closers && forall k: nat :: SweptAt(s, x, n, k)
  }

  lemma SweepNext(s: State, x: State, n: nat)
    requires Swept(s, x, n)
    ensures Swept(s, DropIfDone(x, n), n + 1)
  {
    var y, m := DropIfDone(x, n), n + 1;
    assert SweptAt(s, x, n, n);
    forall k: nat ensures SweptAt(s, y, m, k) { assert SweptAt(s, x, n, k); }
  }

  /** The sweep drops exactly the records that are done with. */
  lemma SweepIsExact(s: State, k: nat)
    requires k < |s.processes|
    ensures Reclaim(s).processes[k].id == s.processes[k].id
    ensures if Reclaimable(s, s.processes[k]) then !Reclaim(s).processes[k].listed
            else Reclaim(s).processes[k] == s.processes[k]
  {
    var inv := (x: State, i: nat) => Swept(s, x, i);
    forall x: State, i: nat | i < |s.processes| && inv(x, i) ensures inv(DropIfDone(x, i), i + 1) { SweepNext(s, x, i); }
    assert Swept(s, s, 0);
    ForEachKeeps(s, |s.processes|, DropIfDone, inv);
    assert SweptAt(s, Reclaim(s), |s.processes|, k);
  }

  lemma SweepLasts(s: State)
    ensures Lasting(s, Reclaim(s), true)
  {
    var r := Reclaim(s);
    forall j: nat ensures LastingStream(s, r, j) {}
    forall d: nat ensures LastingContext(s, r, d) {}
    forall k: nat ensures LastingProcess(s, r, true, k) {
      if k < |s.processes| { SweepIsExact(s, k); }
    }
  }

  /** A spawn after its sweep only adds entries. */
  ghost predicate Extends(s: State, s': State) {
    && s.processes <= s'.processes && s.streams <= s'.streams && |s'.contexts| == |s.contexts| && s.nextId <= s'.nextId
    && forall c :: 0 <= c < |s.contexts| ==> s'.contexts[c] == s.contexts[c].(live := s'.contexts[c].live)
                                             && (s.contexts[c].phase.Freed? ==> s'.contexts[c] == s.contexts[c])
  }

  lemma ExtendsTwice(s: State, s': State, s'': State)
    requires Extends(s, s') && Extends(s', s'')
    ensures Extends(s, s'')
  {
  }

  lemma StagedExtends(b: Building, c: nat, stage: Stage)
    requires c < |b.s.contexts| && !b.s.contexts[c].phase.Freed?
    ensures Extends(b.s, Staged(b, c, stage).s)
  {
  }

  lemma {:induction false} BuiltExtends(s: State, c: nat, stages: seq<Stage>, n: nat)
    requires c < |s.contexts| && !s.contexts[c].phase.Freed? && n <= |stages|
    ensures Extends(s, Built(s, c, stages, n).s)
    decreases n
  {
    if n > 0 {
      BuiltExtends(s, c, stages, n - 1);
      var b := Built(s, c, stages, n - 1);
      StagedExtends(b, c, stages[n - 1]);
      ExtendsTwice(s, b.s, Staged(b, c, stages[n - 1]).s);
    }
  }

  lemma SpawnedExtends(s: State, c: nat, pty: bool, merge: bool)
    requires Inv(s) && c < |s.contexts| && s.contexts[c].phase.Open?
    ensures Extends(s, Spawned(s, c, pty, merge))
  {
    var n := |Stages(pty, merge)|;
    var b := Built(s, c, Stages(pty, merge), n);
    BuiltAll(s, c, pty, merge);
    BuiltExtends(s, c, Stages(pty, merge), n);
    assert b.u.streams != [] ==> MadeAt(b, c, |s.streams|, 0);
  }

  lemma ExtendsLasts(s: State, s': State)
    requires Extends(s, s')
    ensures Lasting(s, s', false)
  {
    forall j: nat ensures LastingStream(s, s', j) {}
    forall d: nat ensures LastingContext(s, s', d) {}
    forall k: nat ensures LastingProcess(s, s', false, k) {}
  }

  lemma SpawnLasts(s: State, c: nat, pty: bool, merge: bool)
    requires Inv(s) && Enabled(s, Spawn(c, pty, merge))
    ensures Lasting(Reclaim(s), Apply(s, Spawn(c, pty, merge)), false)
  {
    assert PhaseAt(s, c);
    ReclaimKeeps(s);
    SpawnedExtends(Reclaim(s), c, pty, merge);
    ExtendsLasts(Reclaim(s), Spawned(Reclaim(s), c, pty, merge));
  }

  lemma {:induction false} CloseEachLasts(s: State, made: seq<nat>, n: nat)
    requires Core(s) && Shut(s) && n <= |made| && forall j :: 0 <= j < n ==> OpenAt(s, made[j])
    requires forall j, k :: 0 <= j < k < n ==> made[j] != made[k]
    ensures Lasting(s, CloseEach(s, made, n), false)
    decreases n
  {
    if n > 0 {
      var i := made[n - 1];
      assert OpenAt(s, i);
      var s' := CloseStream(s, i);
      CloseLasts(s, i);
      CloseKeeps(s, i);
      CloseUnlists(s, i);
      UnlistedShut(s, s');
      forall j | 0 <= j < n - 1 ensures OpenAt(s', made[j]) {
        assert OpenAt(s, made[j]) && made[j] != made[n - 1];
        CloseLeaves(s, i, made[j]);
      }
      CloseEachLasts(s', made, n - 1);
      LastingTwice(s, s', CloseEach(s', made, n - 1), false);
    } else {
      LastingSelf(s);
    }
  }

  lemma SpawnFailsLasts(s: State, c: nat, pty: bool, merge: bool, n: nat, ids: nat, handles: nat)
    requires Inv(s) && Enabled(s, SpawnFails(c, pty, merge, n, ids, handles))
    ensures Lasting(Reclaim(s), Apply(s, SpawnFails(c, pty, merge, n, ids, handles)), false)
  {
    assert PhaseAt(s, c);
    ReclaimKeeps(s);
    FailedLasts(Reclaim(s), c, pty, merge, n, ids, handles);
  }

  lemma FailedLasts(s: State, c: nat, pty: bool, merge: bool, n: nat, ids: nat, handles: nat)
    requires Inv(s) && c < |s.contexts| && s.contexts[c].phase.Open? && n <= |Stages(pty, merge)|
    ensures Lasting(s, SpawnFailed(s, c, Stages(pty, merge), n, ids, handles), false)
  {
    var b := Built(s, c, Stages(pty, merge), n);
    var x := Emptied(b, ids, handles);
    BuiltKeeps(s, c, pty, merge, n);
    BuiltExtends(s, c, Stages(pty, merge), n);
    EmptiedKeeps(b, c, |s.streams|, ids, handles);
    MadeAreOpen(b, c, |s.streams|);
    ExtendsLasts(s, x);
    CloseEachLasts(x, b.u.streams, |b.u.streams|);
    LastingTwice(s, x, CloseEach(x, b.u.streams, |b.u.streams|), false);
    FailedIs(s, c, Stages(pty, merge), n, ids, handles);
  }

  predicate Sweeps(a: Step) { a.Spawn? || a.SpawnFails? }

  lemma AfterSweepLasts(s: State, a: Step)
    requires Inv(s) && Enabled(s, a) && Sweeps(a)
    ensures Lasting(Reclaim(s), Apply(s, a), false)
  {
    if a.Spawn? {
      SpawnLasts(s, a.c, a.pty, a.merge);
    } else {
      SpawnFailsLasts(s, a.c, a.pty, a.merge, a.stage, a.ids, a.handles);
    }
  }

  lemma SweepAndMore(s: State, s': State, s'': State)
    requires Lasting(s, s', true) && Lasting(s', s'', false)
    ensures Lasting(s, s'', true)
  {
    forall k: nat ensures LastingProcess(s', s'', true, k) { assert LastingProcess(s', s'', false, k); }
    LastingTwice(s, s', s'', true);
  }

  lemma StepLasts(s: State, a: Step)
    requires Inv(s) && Enabled(s, a)
    ensures Lasting(s, Apply(s, a), Sweeps(a))
  {
    var s' := Apply(s, a);
    if Sweeps(a) {
      SweepLasts(s);
      AfterSweepLasts(s, a);
      SweepAndMore(s, Reclaim(s), s');
    } else if a.Put? {
      assert StreamAt(s, a.i);
      DropLasts(s, s.(streams := s.streams[a.i := s.streams[a.i].(holders := s.streams[a.i].holders - 1)]), a.i);
    } else if a.Close? {
      CloseLasts(s, a.i);
    } else if a.DestroyBegin? {
      DestroyBeginLasts(s, a.c, a.jobOk);
    } else {
      PlainLasts(s, a);
    }
  }

  predicate Plain(a: Step) { !Sweeps(a) && !a.Put? && !a.Close? && !a.DestroyBegin? }

  lemma PlainSizes(s: State, a: Step)
    requires Enabled(s, a) && Plain(a)
    ensures var s' := Apply(s, a);
            && |s'.streams| == |s.streams| && |s'.contexts| == |s.contexts| + (if a.Create? then 1 else 0)
            && |s'.processes| == |s.processes| && s.nextId <= s'.nextId
  {
    if a.WaitEnd? {
      WaitContexts(s, a.w, a.jobOk, a.threadOk);
    } else if a.DestroyTake? {
      TakeRecords(s, a.c, a.k, a.threadOk);
    }
  }

  lemma PlainStream(s: State, a: Step, i: nat)
    requires Enabled(s, a) && Plain(a) && i < |s.streams| && StreamOk(s.streams[i])
    ensures LastingStream(s, Apply(s, a), i)
  {
  }

  lemma PlainContext(s: State, a: Step, c: nat)
    requires Enabled(s, a) && Plain(a) && c < |s.contexts|
    requires s.contexts[c].listed ==> s.contexts[c].phase.Open?
    ensures LastingContext(s, Apply(s, a), c)
  {
    if a.WaitEnd? {
      WaitContexts(s, a.w, a.jobOk, a.threadOk);
    } else if a.DestroyTake? {
      TakeRecords(s, a.c, a.k, a.threadOk);
    } else {
      ShortContext(s, a, c);
    }
  }

  lemma ShortContext(s: State, a: Step, c: nat)
    requires Enabled(s, a) && Plain(a) && !a.WaitEnd? && !a.DestroyTake? && c < |s.contexts|
    requires s.contexts[c].listed ==> s.contexts[c].phase.Open?
    ensures LastingContext(s, Apply(s, a), c)
  {
  }

  predicate SameRecords(s: State, s': State) {
    && |s'.processes| == |s.processes|
    && forall k :: 0 <= k < |s.processes| ==> s'.processes[k].id == s.processes[k].id
                                              && s'.processes[k].listed == s.processes[k].listed
  }

  lemma WaitContexts(s: State, w: nat, jobOk: bool, threadOk: bool)
    requires w < |s.waiters|
    ensures var r := WaitEnded(s, w, jobOk, threadOk);
            r.contexts == s.contexts && r.streams == s.streams && r.nextId == s.nextId && SameRecords(s, r)
  {
  }

  lemma TakeRecords(s: State, c: nat, k: nat, threadOk: bool)
    requires c < |s.contexts| && k < |s.processes|
    ensures var r := DestroyTakes(s, c, k, threadOk);
            && r.streams == s.streams && r.nextId == s.nextId && SameRecords(s, r)
            && |r.contexts| == |s.contexts| && r.contexts[c].id == s.contexts[c].id
            && r.contexts == s.contexts[c := r.contexts[c]]
  {
  }

  lemma PlainProcess(s: State, a: Step, k: nat)
    requires Enabled(s, a) && Plain(a) && k < |s.processes|
    ensures LastingProcess(s, Apply(s, a), false, k)
  {
    if a.WaitEnd? {
      WaitContexts(s, a.w, a.jobOk, a.threadOk);
    } else if a.DestroyTake? {
      TakeRecords(s, a.c, a.k, a.threadOk);
    }
  }

  lemma PlainLasts(s: State, a: Step)
    requires Inv(s) && Enabled(s, a) && Plain(a)
    ensures Lasting(s, Apply(s, a), false)
  {
    var s' := Apply(s, a);
    PlainSizes(s, a);
    forall j: nat ensures LastingStream(s, s', j) {
      if j < |s.streams| { assert StreamAt(s, j); PlainStream(s, a, j); }
    }
    forall d: nat ensures LastingContext(s, s', d) {
      if d < |s.contexts| { assert PhaseAt(s, d); PlainContext(s, a, d); }
    }
    forall k: nat ensures LastingProcess(s, s', false, k) {
      if k < |s.processes| { PlainProcess(s, a, k); }
    }
  }

  // ----- records

  /** A process record leaves the table only when it is reaped, waited for, not being
      cleaned and holds nothing but a closer that has ended; and then it does. */
  lemma RecordsGoWhenDone(s: State, a: Step, k: nat)
    requires Reachable(s) && Enabled(s, a) && k < |s.processes| && s.processes[k].listed
    ensures var p := s.processes[k];
            var gone := Sweeps(a) && p.reaped && p.waited && !p.cleaning && p.process.None? && p.job.None? && p.console.None?
                        && p.output.None? && p.event.None? && (p.closer.Some? ==> Exited(s, p.closer.value));
            k < |Apply(s, a).processes| && Apply(s, a).processes[k].listed != gone
    ensures Apply(s, a).processes[k].listed || forall c :: 0 <= c < |s.contexts| && s.contexts[c].phase.Draining? ==> s.contexts[c].phase.p != k
  {
    ReachableHolds(s);
    StepLasts(s, a);
    assert ProcessAt(s, k) && LastingProcess(s, Apply(s, a), Sweeps(a), k);
    if Sweeps(a) {
      SweepIsExact(s, k);
      AfterSweepLasts(s, a);
      assert LastingProcess(Reclaim(s), Apply(s, a), false, k);
      forall c: nat | c < |s.contexts| && s.contexts[c].phase.Draining? && s.contexts[c].phase.p == k
        ensures s.processes[k].cleaning
      {
        assert PhaseAt(s, c);
      }
    }
  }

  // ----- ids

  function IsContext(x: Context, id: nat): nat { if x.id == id then 1 else 0 }

  function IsStream(x: Stream, id: nat): nat { if x.id == id then 1 else 0 }

  function IsProcess(x: Process, id: nat): nat { if x.id == id then 1 else 0 }

  /** How many contexts, streams and processes, gone ones too, were given this id. */
  function Bearers(s: State, id: nat): nat {
    Total(s.contexts, IsContext, id) + Total(s.streams, IsStream, id) + Total(s.processes, IsProcess, id)
  }

  ghost predicate OnceEach(s: State) {
    s.nextId > 0 && forall id: nat :: OnceAt(s, id)
  }

  predicate OnceAt(s: State, id: nat) { Bearers(s, id) <= if 0 < id < s.nextId then 1 else 0 }

  ghost predicate SameBearers(s: State, s': State) {
    && |s'.contexts| == |s.contexts| && |s'.streams| == |s.streams| && |s'.processes| == |s.processes|
    && s.nextId <= s'.nextId
    && (forall i :: 0 <= i < |s.contexts| ==> s'.contexts[i].id == s.contexts[i].id)
    && (forall i :: 0 <= i < |s.streams| ==> s'.streams[i].id == s.streams[i].id)
    && (forall i :: 0 <= i < |s.processes| ==> s'.processes[i].id == s.processes[i].id)
  }

  lemma SameBearersOnce(s: State, s': State)
    requires OnceEach(s) && SameBearers(s, s')
    ensures OnceEach(s')
  {
    forall id: nat ensures OnceAt(s', id) {
      assert OnceAt(s, id);
      TotalSame(s.contexts, s'.contexts, IsContext, id);
      TotalSame(s.streams, s'.streams, IsStream, id);
      TotalSame(s.processes, s'.processes, IsProcess, id);
    }
  }

  /** While a spawn is under way its id, too, is given out. */
  predicate OnceWithAt(s: State, pending: nat, id: nat) {
    Bearers(s, id) + (if id == pending != 0 then 1 else 0) <= if 0 < id < s.nextId then 1 else 0
  }

  ghost predicate OnceWith(s: State, pending: nat) { s.nextId > 0 && forall id: nat :: OnceWithAt(s, pending, id) }

  lemma NewStreamOnce(s: State, c: nat, read: Option<Handle>, write: Option<Handle>, pending: nat)
    requires OnceWith(s, pending) && c < |s.contexts|
    ensures OnceWith(NewStream(s, c, read, write), pending)
  {
    var s' := NewStream(s, c, read, write);
    forall id: nat ensures OnceWithAt(s', pending, id) {
      assert OnceWithAt(s, pending, id);
      TotalSame(s.contexts, s'.contexts, IsContext, id);
      TotalAppend(s.streams, IsStream, id, s'.streams[|s.streams|]);
    }
  }

  lemma SameEntriesOnce(s: State, s': State, pending: nat, pending': nat)
    requires OnceWith(s, pending) && s'.contexts == s.contexts && s'.streams == s.streams && s'.processes == s.processes
    requires s.nextId <= s'.nextId && (pending' == pending || (pending == 0 && pending' == s.nextId < s'.nextId))
    ensures OnceWith(s', pending')
  {
    forall id: nat ensures OnceWithAt(s', pending', id) { assert OnceWithAt(s, pending, id); }
  }

  lemma StagedOnce(b: Building, c: nat, stage: Stage)
    requires OnceWith(b.s, b.u.id) && c < |b.s.contexts| && (stage.TakeId? ==> b.u.id == 0)
    ensures var b' := Staged(b, c, stage); OnceWith(b'.s, b'.u.id)
  {
    var b' := Staged(b, c, stage);
    if stage.InStream? {
      NewStreamOnce(b.s, c, if b.u.console.Some? then b.u.hostOut else None, b.u.hostIn, b.u.id);
    } else if stage.OutStream? {
      NewStreamOnce(b.s, c, b.u.hostOut, None, b.u.id);
    } else if stage.ErrStream? {
      NewStreamOnce(b.s, c, b.u.hostErr, None, b.u.id);
    } else {
      SameEntriesOnce(b.s, b'.s, b.u.id, b'.u.id);
    }
  }

  lemma {:induction false} BuiltOnce(s: State, c: nat, pty: bool, merge: bool, n: nat)
    requires Inv(s) && OnceEach(s) && c < |s.contexts| && s.contexts[c].phase.Open? && n <= |Stages(pty, merge)|
    ensures var b := Built(s, c, Stages(pty, merge), n); OnceWith(b.s, b.u.id)
    decreases n
  {
    var ss := Stages(pty, merge);
    if n == 0 {
      forall id: nat ensures OnceWithAt(s, 0, id) { assert OnceAt(s, id); }
    } else {
      BuiltOnce(s, c, pty, merge, n - 1);
      BuiltKeeps(s, c, pty, merge, n - 1);
      StagesInOrder(pty, merge);
      StagedOnce(Built(s, c, ss, n - 1), c, ss[n - 1]);
    }
  }

  lemma CommittedOnce(b: Building, c: nat)
    requires OnceWith(b.s, b.u.id) && c < |b.s.contexts| && b.u.id != 0
    ensures OnceEach(Committed(b, c))
  {
    var s' := Committed(b, c);
    forall id: nat ensures OnceAt(s', id) {
      assert OnceWithAt(b.s, b.u.id, id);
      TotalSame(b.s.streams, s'.streams, IsStream, id);
      TotalAppend(b.s.processes, IsProcess, id, s'.processes[|b.s.processes|]);
    }
  }

  lemma SpawnedOnce(s: State, c: nat, pty: bool, merge: bool)
    requires Inv(s) && OnceEach(s) && c < |s.contexts| && s.contexts[c].phase.Open?
    ensures OnceEach(Spawned(s, c, pty, merge))
  {
    BuiltAll(s, c, pty, merge);
    BuiltOnce(s, c, pty, merge, |Stages(pty, merge)|);
    CommittedOnce(Built(s, c, Stages(pty, merge), |Stages(pty, merge)|), c);
  }

  lemma FailedOnce(s: State, c: nat, pty: bool, merge: bool, n: nat, ids: nat, handles: nat)
    requires Inv(s) && OnceEach(s) && c < |s.contexts| && s.contexts[c].phase.Open? && n <= |Stages(pty, merge)|
    ensures OnceEach(SpawnFailed(s, c, Stages(pty, merge), n, ids, handles))
  {
    var ss := Stages(pty, merge);
    var b := Built(s, c, ss, n);
    var x := Emptied(b, ids, handles);
    BuiltOnce(s, c, pty, merge, n);
    BuiltKeeps(s, c, pty, merge, n);
    SameEntriesOnce(b.s, x, b.u.id, b.u.id);
    forall id: nat ensures OnceAt(x, id) { assert OnceWithAt(x, b.u.id, id); }
    EmptiedKeeps(b, c, |s.streams|, ids, handles);
    MadeAreOpen(b, c, |s.streams|);
    CloseEachLasts(x, b.u.streams, |b.u.streams|);
    CloseEachSizes(x, b.u.streams, |b.u.streams|);
    LastingBearers(x, CloseEach(x, b.u.streams, |b.u.streams|), false);
    SameBearersOnce(x, CloseEach(x, b.u.streams, |b.u.streams|));
    FailedIs(s, c, ss, n, ids, handles);
  }

  lemma {:induction false} CloseEachSizes(s: State, made: seq<nat>, n: nat)
    requires n <= |made|
    ensures SameSizesAs(s, CloseEach(s, made, n))
    decreases n
  {
    if n > 0 {
      var i := made[n - 1];
      if i < |s.streams| { DropSizes(s.(streams := s.streams[i := s.streams[i].(listed := false)]), i); }
      CloseEachSizes(if i < |s.streams| then CloseStream(s, i) else s, made, n - 1);
    }
  }

  lemma SweepBearers(s: State)
    ensures SameBearers(s, Reclaim(s))
  {
    forall k: nat | k < |s.processes| ensures Reclaim(s).processes[k].id == s.processes[k].id {
      SweepIsExact(s, k);
    }
  }

  lemma CreateOnce(s: State)
    requires OnceEach(s)
    ensures OnceEach(Apply(s, Create))
  {
    var s' := Apply(s, Create);
    forall id: nat ensures OnceAt(s', id) {
      assert OnceAt(s, id);
      TotalAppend(s.contexts, IsContext, id, s'.contexts[|s.contexts|]);
    }
  }

  lemma PutSizes(s: State, i: nat)
    requires Enabled(s, Put(i))
    ensures SameSizesAs(s, Apply(s, Put(i)))
  {
    DropSizes(s.(streams := s.streams[i := s.streams[i].(holders := s.streams[i].holders - 1)]), i);
  }

  lemma CloseSizes(s: State, i: nat)
    requires i < |s.streams|
    ensures SameSizesAs(s, CloseStream(s, i))
  {
    DropSizes(s.(streams := s.streams[i := s.streams[i].(listed := false)]), i);
  }

  lemma SameSizes(s: State, a: Step)
    requires Enabled(s, a) && !a.Spawn? && !a.Create? && !a.SpawnFails?
    ensures var s' := Apply(s, a);
            |s'.contexts| == |s.contexts| && |s'.streams| == |s.streams| && |s'.processes| == |s.processes|
  {
    if Plain(a) {
      PlainSizes(s, a);
    } else if a.Put? {
      PutSizes(s, a.i);
    } else if a.Close? {
      CloseSizes(s, a.i);
    } else {
      DestroyBeginSizes(s, a.c, a.jobOk);
    }
  }

  lemma DropSizes(s: State, i: nat)
    requires i < |s.streams|
    ensures var r := DropRef(s, i);
            |r.contexts| == |s.contexts| && |r.streams| == |s.streams| && |r.processes| == |s.processes|
  {
  }

  predicate SameSizesAs(s: State, r: State) {
    |r.contexts| == |s.contexts| && |r.streams| == |s.streams| && |r.processes| == |s.processes|
  }

  lemma CloseAllSizes(s: State, c: nat)
    ensures SameSizesAs(s, CloseStreamsOf(s, c))
  {
    var step, inv := Closing(c), (x: State, i: nat) => SameSizesAs(s, x);
    forall x: State, i: nat | i < |s.streams| && inv(x, i) ensures inv(step(x, i), i + 1) {
      DropSizes(x.(streams := x.streams[i := x.streams[i].(listed := false)]), i);
    }
    ForEachKeeps(s, |s.streams|, step, inv);
  }

  lemma DestroyBeginSizes(s: State, c: nat, jobOk: bool)
    requires c < |s.contexts|
    ensures SameSizesAs(s, DestroyBegun(s, c, jobOk))
  {
    var s1 := s.(contexts := s.contexts[c := s.contexts[c].(poisoned := true)]);
    CloseAllSizes(s1.(contexts := s1.contexts[c := s1.contexts[c].(listed := false, phase := AwaitStreams)]), c);
  }

  lemma LastingBearers(s: State, s': State, sweep: bool)
    requires Lasting(s, s', sweep)
    requires |s'.contexts| == |s.contexts| && |s'.streams| == |s.streams| && |s'.processes| == |s.processes|
    ensures SameBearers(s, s')
  {
    forall i: nat | i < |s.contexts| ensures s'.contexts[i].id == s.contexts[i].id { assert LastingContext(s, s', i); }
    forall i: nat | i < |s.streams| ensures s'.streams[i].id == s.streams[i].id { assert LastingStream(s, s', i); }
    forall i: nat | i < |s.processes| ensures s'.processes[i].id == s.processes[i].id { assert LastingProcess(s, s', sweep, i); }
  }

  lemma StepOnce(s: State, a: Step)
    requires Inv(s) && OnceEach(s) && Enabled(s, a)
    ensures OnceEach(Apply(s, a))
  {
    if a.Create? {
      CreateOnce(s);
    } else if Sweeps(a) {
      var r := Reclaim(s);
      SweepBearers(s);
      SameBearersOnce(s, r);
      ReclaimKeeps(s);
      assert PhaseAt(s, a.c);
      if a.Spawn? {
        SpawnedOnce(r, a.c, a.pty, a.merge);
      } else {
        FailedOnce(r, a.c, a.pty, a.merge, a.stage, a.ids, a.handles);
      }
    } else {
      StepLasts(s, a);
      SameSizes(s, a);
      LastingBearers(s, Apply(s, a), false);
      SameBearersOnce(s, Apply(s, a));
    }
  }

  lemma {:induction false} RunOnce(s: State, steps: seq<Step>)
    requires Inv(s) && OnceEach(s) && CanRun(s, steps)
    ensures OnceEach(Run(s, steps))
    decreases |steps|
  {
    if steps != [] {
      StepKeeps(s, steps[0]);
      StepOnce(s, steps[0]);
      RunOnce(Apply(s, steps[0]), steps[1..]);
    }
  }

  /** No id is ever given out twice, to entries of any kind, even after they are gone. */
  lemma IdsNeverRepeat(s: State, id: nat)
    requires Reachable(s)
    ensures Bearers(s, id) <= 1 && (id >= s.nextId ==> Bearers(s, id) == 0)
  {
    var steps :| CanRun(Empty, steps) && Run(Empty, steps) == s;
    InitialHolds();
    assert OnceEach(Empty);
    RunOnce(Empty, steps);
    assert OnceAt(s, id);
  }

  // ----- destroyed contexts

  /** When `visjail_windows_destroy` succeeds nothing of the context is left: no stream, no
      thread with a hold on one, no record, no job. */
  lemma DestroyedLeavesNothing(s: State, c: nat)
    requires Reachable(s) && c < |s.contexts| && s.contexts[c].phase.Freed?
    ensures s.contexts[c].live == 0 && s.contexts[c].job.None?
    ensures forall i :: 0 <= i < |s.streams| && s.streams[i].ctx == c ==> s.streams[i].disposed && s.streams[i].holders == 0
    ensures forall k :: 0 <= k < |s.processes| && s.processes[k].listed ==> s.processes[k].context != s.contexts[c].id
  {
    ReachableHolds(s);
    assert PhaseAt(s, c);
    forall i: nat | i < |s.streams| && s.streams[i].ctx == c ensures s.streams[i].disposed && s.streams[i].holders == 0 {
      assert StreamAt(s, i);
      if !s.streams[i].disposed { InUseNotFreed(s, i); }
    }
    forall k: nat | k < |s.processes| && s.processes[k].listed ensures s.processes[k].context != s.contexts[c].id {
      assert !RecordOf(s.processes[k], s.contexts[c].id);
    }
  }

  /** ... and it stays so, whatever runs after; nor does a disposed stream come back. */
  lemma {:induction false} GoneForGood(s: State, steps: seq<Step>, c: nat, i: nat)
    requires Inv(s) && CanRun(s, steps) && c < |s.contexts| && i < |s.streams|
    ensures var s' := Run(s, steps);
            && c < |s'.contexts| && (s.contexts[c].phase.Freed? ==> s'.contexts[c] == s.contexts[c])
            && i < |s'.streams| && (s.streams[i].disposed ==> s'.streams[i] == s.streams[i])
    decreases |steps|
  {
    if steps != [] {
      var s1 := Apply(s, steps[0]);
      StepLasts(s, steps[0]);
      StepKeeps(s, steps[0]);
      assert LastingContext(s, s1, c) && LastingStream(s, s1, i);
      GoneForGood(s1, steps[1..], c, i);
    }
  }
}
