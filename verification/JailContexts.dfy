/** The steps of contexts - creation, sealing, the stages of destruction - keep the
    invariant. */
module JailContexts {
  import opened Basics
  import opened JailHandles
  import opened JailInvariant
  import opened JailModel
  import opened JailProcesses
  import opened JailStreams

  /** Context `c` changes its flags, phase or job. */
  ghost predicate Changed(s: State, s': State, c: nat) {
    && c < |s.contexts| == |s'.contexts| && s'.contexts == s.contexts[c := s'.contexts[c]]
    && s'.contexts[c].id == s.contexts[c].id && s'.contexts[c].live == s.contexts[c].live
    && s'.streams == s.streams && s'.processes == s.processes && s'.nextId == s.nextId
  }

  lemma ChangeTables(s: State, s': State, c: nat)
    requires Tables(s) && Changed(s, s', c) && PhaseOk(s', s'.contexts[c])
    ensures Tables(s')
  {
    forall i: nat ensures StreamAt(s', i) { assert StreamAt(s, i); }
    forall k: nat ensures ProcessAt(s', k) { assert ProcessAt(s, k); }
    SameIds(s, s');
    ChangeLinks(s, s', c);
    forall d: nat ensures LiveAt(s', d) { assert LiveAt(s, d); }
    forall d: nat ensures PhaseAt(s', d) { assert PhaseAt(s, d); }
  }

  lemma ChangeLinks(s: State, s': State, c: nat)
    requires Links(s) && Changed(s, s', c)
    ensures Links(s')
  {
    forall j: nat ensures BelongsAt(s', j) { assert BelongsAt(s, j); }
    forall j: nat, k: nat ensures LinkAt(s', j, k) { assert LinkAt(s, j, k); }
    forall j: nat, k: nat ensures ApartAt(s', j, k) { assert ApartAt(s, j, k); }
  }

  lemma ChangeShut(s: State, s': State, c: nat)
    requires Shut(s) && Changed(s, s', c)
    requires s'.contexts[c].phase.Open? || !s.contexts[c].phase.Open?
    ensures Shut(s')
  {
    forall i: nat ensures ShutAt(s', i) { assert ShutAt(s, i); }
  }

  /** The context may give up its job, if the job is closed. */
  lemma ChangeConserves(s: State, s': State, c: nat)
    requires Conserved(s) && Changed(s, s', c) && s'.waiters == s.waiters && s'.closers == s.closers
    requires s'.nextHandle == s.nextHandle
    requires || (s'.contexts[c].job == s.contexts[c].job && s'.closed == s.closed)
             || (s'.contexts[c].job.None? && s'.closed == s.closed + Slot(s.contexts[c].job))
    ensures Conserved(s')
  {
    forall h: Handle ensures ConservedAt(s', h) {
      assert ConservedAt(s, h);
      TotalUpdate(s.contexts, OfContext, h, c, s'.contexts[c]);
      LogCount(s.closed, s.contexts[c].job, h);
    }
  }

  lemma RetryKeeps(s: State, c: nat)
    requires Inv(s) && c < |s.contexts|
    ensures Inv(Retry(s, c))
  {
    assert PhaseAt(s, c);
    ChangeConserves(s, Retry(s, c), c);
    ChangeTables(s, Retry(s, c), c);
    ChangeShut(s, Retry(s, c), c);
  }

  lemma SealKeeps(s: State, c: nat, ok: bool)
    requires Inv(s) && Enabled(s, Seal(c, ok))
    ensures Inv(Apply(s, Seal(c, ok)))
  {
    var s' := Apply(s, Seal(c, ok));
    assert PhaseAt(s, c);
    ChangeConserves(s, s', c);
    ChangeTables(s, s', c);
    ChangeShut(s, s', c);
  }

  // ----- a new context

  lemma {:induction false} NoneOf(xs: seq<Stream>, c: nat)
    requires forall i :: 0 <= i < |xs| ==> xs[i].ctx < c
    ensures Total(xs, InUse, c) == 0
  {
    if xs != [] { NoneOf(xs[..|xs| - 1], c); }
  }

  lemma CreateTables(s: State, s': State)
    requires Tables(s) && s' == Apply(s, Create)
    ensures Tables(s')
  {
    forall i: nat ensures StreamAt(s', i) { assert StreamAt(s, i); }
    forall k: nat ensures ProcessAt(s', k) { assert ProcessAt(s, k); }
    forall c: nat, d: nat ensures ContextIds(s', c, d) {
      assert ContextIds(s, c, d) && (c < |s.contexts| ==> ContextIds(s, c, c));
    }
    forall i: nat, j: nat ensures StreamIds(s', i, j) { assert StreamIds(s, i, j); }
    forall k: nat, l: nat ensures ProcessIds(s', k, l) { assert ProcessIds(s, k, l); }
    CreateLinks(s, s');
    forall i | 0 <= i < |s.streams| ensures s.streams[i].ctx < |s.contexts| { assert BelongsAt(s, i); }
    NoneOf(s.streams, |s.contexts|);
    forall c: nat ensures LiveAt(s', c) && PhaseAt(s', c) { assert LiveAt(s, c) && PhaseAt(s, c); }
  }

  lemma CreateLinks(s: State, s': State)
    requires Links(s) && s' == Apply(s, Create)
    ensures Links(s')
  {
    forall j: nat ensures BelongsAt(s', j) { assert BelongsAt(s, j); }
    forall j: nat, k: nat ensures LinkAt(s', j, k) { assert LinkAt(s, j, k) && BelongsAt(s, j); }
    forall j: nat, k: nat ensures ApartAt(s', j, k) { assert ApartAt(s, j, k); }
  }

  lemma CreateKeeps(s: State)
    requires Inv(s)
    ensures Inv(Apply(s, Create))
  {
    var s' := Apply(s, Create);
    CreateTables(s, s');
    forall h: Handle ensures ConservedAt(s', h) {
      assert ConservedAt(s, h);
      TotalAppend(s.contexts, OfContext, h, s'.contexts[|s.contexts|]);
    }
    forall i: nat ensures ShutAt(s', i) { assert ShutAt(s, i) && BelongsAt(s, i); }
  }

  // ----- destruction

  lemma DestroyBeginKeeps(s: State, c: nat, jobOk: bool)
    requires Inv(s) && Enabled(s, DestroyBegin(c, jobOk))
    ensures Inv(Apply(s, DestroyBegin(c, jobOk)))
  {
    var s1 := s.(contexts := s.contexts[c := s.contexts[c].(poisoned := true)]);
    assert PhaseAt(s, c);
    ChangeConserves(s, s1, c);
    ChangeTables(s, s1, c);
    ChangeShut(s, s1, c);
    if s.contexts[c].job.None? || jobOk {
      var s2 := s1.(contexts := s1.contexts[c := s1.contexts[c].(listed := false, phase := AwaitStreams)]);
      ChangeConserves(s1, s2, c);
      ChangeTables(s1, s2, c);
      CloseAllKeeps(s2, c);
      CloseAllUnlists(s2, c);
      ShutAfterClosing(s1, s2, CloseStreamsOf(s2, c), c);
    }
  }

  lemma ShutAfterClosing(s: State, s': State, r: State, c: nat)
    requires Shut(s) && Changed(s, s', c) && Closed(s', r, c, |s'.streams|)
    ensures Shut(r)
  {
    forall i: nat ensures ShutAt(r, i) {
      assert ShutAt(s, i) && UnlistedAt(s', r, i) && (i < |r.streams| ==> GoneAt(r, c, i));
      assert i < |s.streams| ==> SameButLive(s', r, s.streams[i].ctx);
    }
  }

  /** The record is marked and the drain starts on copies of its handles. */
  lemma TakenKeeps(s: State, c: nat, k: nat)
    requires Inv(s) && c < |s.contexts| && k < |s.processes|
    requires s.contexts[c].phase.AwaitStreams? || s.contexts[c].phase.Cleanup?
    requires s.contexts[c].live == 0 && RecordOf(s.processes[k], s.contexts[c].id)
    requires s.processes[k].reaped && s.processes[k].console.None?
    ensures var p := s.processes[k];
            Inv(s.(processes := s.processes[k := p.(cleaning := true)],
                   contexts := s.contexts[c := s.contexts[c].(phase := Draining(k, p.output, p.event, p.closer))]))
  {
    var p := s.processes[k];
    var s1 := s.(processes := s.processes[k := p.(cleaning := true)]);
    assert ProcessAt(s, k) && PhaseAt(s, c);
    SameSlotsConserve(s, s1, k);
    ReworkTables(s, s1, k);
    var s2 := s1.(contexts := s1.contexts[c := s1.contexts[c].(phase := Draining(k, p.output, p.event, p.closer))]);
    ChangeConserves(s1, s2, c);
    ChangeTables(s1, s2, c);
    ChangeShut(s1, s2, c);
  }

  lemma DestroyTakeKeeps(s: State, c: nat, k: nat, threadOk: bool)
    requires Inv(s) && Enabled(s, DestroyTake(c, k, threadOk))
    ensures Inv(Apply(s, DestroyTake(c, k, threadOk)))
  {
    var r := Reap(s, k);
    ReapKeeps(s, k);
    if r.processes[k].console.Some? {
      if threadOk {
        StartCloserKeeps(r, k);
        TakenKeeps(StartCloser(r, k), c, k);
      } else {
        RetryKeeps(r, c);
      }
    } else {
      TakenKeeps(r, c, k);
    }
  }

  /** Only its own context drains a record. */
  lemma OneDrain(s: State, c: nat, d: nat)
    requires IdsOk(s) && Phases(s) && c < |s.contexts| && d < |s.contexts|
    requires s.contexts[c].phase.Draining? && s.contexts[d].phase.Draining?
    requires s.contexts[c].phase.p == s.contexts[d].phase.p
    ensures c == d
  {
    assert PhaseAt(s, c) && PhaseAt(s, d) && ContextIds(s, c, d) && ContextIds(s, d, c);
  }

  /** A failed drain gives the record back as it was. */
  lemma DrainFailedKeeps(s: State, c: nat)
    requires Inv(s) && Enabled(s, DestroyDrain(c, false))
    ensures Inv(Apply(s, DestroyDrain(c, false)))
  {
    var k := s.contexts[c].phase.p;
    var s1 := Retry(s, c);
    var s2 := s1.(processes := s1.processes[k := s1.processes[k].(cleaning := false)]);
    RetryKeeps(s, c);
    assert ProcessAt(s1, k);
    forall d: nat ensures PhaseAt(s2, d) {
      assert PhaseAt(s1, d);
      if d < |s.contexts| && s1.contexts[d].phase.Draining? && s1.contexts[d].phase.p == k { OneDrain(s, c, d); }
      if d < |s.contexts| && NoRecord(s1, s1.contexts[d].id) { ReworkNoRecord(s1, s2, k, s1.contexts[d].id); }
    }
    SameSlotsConserve(s1, s2, k);
    ReworkRest(s1, s2, k);
    assert s2 == Apply(s, DestroyDrain(c, false));
  }

  /** The drained record, with its last three handles closed, belongs to no context. */
  function Detached(s: State, k: nat): State
    requires k < |s.processes|
  {
    var p := s.processes[k];
    s.(processes := s.processes[k := p.(cleaning := false, output := None, event := None, closer := None, context := 0)],
       closed := s.closed + Slot(p.output) + Slot(p.event) + Slot(p.closer))
  }

  lemma DetachedConserves(s: State, k: nat)
    requires Conserved(s) && k < |s.processes|
    ensures Conserved(Detached(s, k))
  {
    var s' := Detached(s, k);
    var p := s.processes[k];
    forall h: Handle ensures ConservedAt(s', h) {
      assert ConservedAt(s, h);
      TotalUpdate(s.processes, OfProcess, h, k, s'.processes[k]);
      LogCount(s.closed, p.output, h);
      LogCount(s.closed + Slot(p.output), p.event, h);
      LogCount(s.closed + Slot(p.output) + Slot(p.event), p.closer, h);
    }
  }

  /** No stream in use refers to a record of a context that has none in use. */
  lemma NoneRefers(s: State, c: nat, k: nat, i: nat)
    requires IdsOk(s) && Links(s) && Live(s) && c < |s.contexts| && s.contexts[c].live == 0
    requires k < |s.processes| && RecordOf(s.processes[k], s.contexts[c].id) && i < |s.streams|
    ensures !s.streams[i].disposed ==> s.streams[i].process != s.processes[k].id
  {
    var d := s.streams[i].ctx;
    assert LinkAt(s, i, k) && BelongsAt(s, i) && LiveAt(s, c);
    assert ContextIds(s, c, d) && ContextIds(s, d, c);
    NoneInUse(s.streams, c, i);
  }

  lemma DetachedLinks(s: State, c: nat, k: nat)
    requires IdsOk(s) && Links(s) && Live(s) && c < |s.contexts| && s.contexts[c].live == 0
    requires k < |s.processes| && RecordOf(s.processes[k], s.contexts[c].id)
    ensures Links(Detached(s, k))
  {
    var s' := Detached(s, k);
    forall j: nat ensures BelongsAt(s', j) { assert BelongsAt(s, j); }
    forall j: nat, l: nat ensures LinkAt(s', j, l) {
      assert LinkAt(s, j, l);
      if j < |s.streams| { NoneRefers(s, c, k, j); }
    }
    forall j: nat, l: nat ensures ApartAt(s', j, l) { assert ApartAt(s, j, l); }
  }

  lemma DetachedPhases(s: State, c: nat, k: nat)
    requires Phases(s) && IdsOk(s) && c < |s.contexts| && s.contexts[c].phase.Cleanup? && k < |s.processes|
    requires RecordOf(s.processes[k], s.contexts[c].id)
    ensures Phases(Detached(s, k))
  {
    var s' := Detached(s, k);
    forall d: nat ensures PhaseAt(s', d) {
      assert PhaseAt(s, d) && ContextIds(s, c, d) && ContextIds(s, d, c);
      if d < |s.contexts| && NoRecord(s, s.contexts[d].id) {
        forall l: nat | l < |s'.processes| ensures !RecordOf(s'.processes[l], s.contexts[d].id) {
          assert !RecordOf(s.processes[l], s.contexts[d].id);
        }
      }
    }
  }

  lemma DetachedKeeps(s: State, c: nat, k: nat)
    requires Inv(s) && c < |s.contexts| && s.contexts[c].phase.Cleanup? && k < |s.processes|
    requires RecordOf(s.processes[k], s.contexts[c].id) && s.processes[k].console.None?
    ensures Inv(Detached(s, k))
  {
    var s' := Detached(s, k);
    assert PhaseAt(s, c);
    DetachedConserves(s, k);
    DetachedLinks(s, c, k);
    DetachedPhases(s, c, k);
    SameIds(s, s');
    SameShut(s, s');
    forall i: nat ensures StreamAt(s', i) { assert StreamAt(s, i); }
    forall l: nat ensures ProcessAt(s', l) { assert ProcessAt(s, l); }
    forall d: nat ensures LiveAt(s', d) { assert LiveAt(s, d); }
  }

  lemma DrainedKeeps(s: State, c: nat)
    requires Inv(s) && Enabled(s, DestroyDrain(c, true))
    ensures Inv(Apply(s, DestroyDrain(c, true)))
  {
    var k := s.contexts[c].phase.p;
    assert PhaseAt(s, c);
    var s1 := s.(contexts := s.contexts[c := s.contexts[c].(phase := Cleanup)]);
    ChangeConserves(s, s1, c);
    ChangeTables(s, s1, c);
    ChangeShut(s, s1, c);
    DetachedKeeps(s1, c, k);
    assert Detached(s1, k) == Apply(s, DestroyDrain(c, true));
  }

  lemma DestroyEndKeeps(s: State, c: nat, desktopOk: bool, profileOk: bool)
    requires Inv(s) && Enabled(s, DestroyEnd(c, desktopOk, profileOk))
    ensures Inv(Apply(s, DestroyEnd(c, desktopOk, profileOk)))
  {
    assert PhaseAt(s, c);
    if !desktopOk {
      RetryKeeps(s, c);
    } else {
      var s1 := s.(contexts := s.contexts[c := s.contexts[c].(job := None)], closed := s.closed + Slot(s.contexts[c].job));
      ChangeConserves(s, s1, c);
      ChangeTables(s, s1, c);
      ChangeShut(s, s1, c);
      if profileOk {
        var s2 := s1.(contexts := s1.contexts[c := s1.contexts[c].(phase := Phase.Freed)]);
        assert NoRecord(s2, s2.contexts[c].id);
        ChangeConserves(s1, s2, c);
        ChangeTables(s1, s2, c);
        ChangeShut(s1, s2, c);
      } else {
        RetryKeeps(s1, c);
      }
    }
  }
}
