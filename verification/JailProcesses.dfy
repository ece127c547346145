/** The steps of processes, waits and closer threads keep the invariant. */
module JailProcesses {
  import opened Basics
  import opened JailHandles
  import opened JailInvariant
  import opened JailModel

  /** Only waiters, closers and the handle counts changed. */
  predicate SameTables(s: State, s': State) {
    s'.contexts == s.contexts && s'.streams == s.streams && s'.processes == s.processes && s'.nextId == s.nextId
  }

  lemma TablesSame(s: State, s': State)
    requires Tables(s) && SameTables(s, s')
    ensures Tables(s') && (Shut(s) ==> Shut(s'))
  {
    forall i: nat ensures StreamAt(s', i) { assert StreamAt(s, i); }
    forall k: nat ensures ProcessAt(s', k) { assert ProcessAt(s, k); }
    SameIds(s, s');
    SameLinks(s, s');
    forall c: nat ensures LiveAt(s', c) && PhaseAt(s', c) { assert LiveAt(s, c) && PhaseAt(s, c); }
    if Shut(s) { SameShut(s, s'); }
  }

  lemma SameLinks(s: State, s': State)
    requires Links(s) && SameTables(s, s')
    ensures Links(s')
  {
    forall j: nat ensures BelongsAt(s', j) { assert BelongsAt(s, j); }
    forall j: nat, k: nat ensures LinkAt(s', j, k) { assert LinkAt(s, j, k); }
    forall j: nat, k: nat ensures ApartAt(s', j, k) { assert ApartAt(s, j, k); }
  }

  lemma SameShut(s: State, s': State)
    requires Shut(s) && s'.contexts == s.contexts && s'.streams == s.streams
    ensures Shut(s')
  {
    forall i: nat ensures ShutAt(s', i) { assert ShutAt(s, i); }
  }

  // ----- one record changes

  /** Record `k` changes, but stays where it was and gains no output pipe. */
  ghost predicate Reworked(s: State, s': State, k: nat) {
    && k < |s.processes| == |s'.processes| && s'.processes == s.processes[k := s'.processes[k]]
    && s'.contexts == s.contexts && s'.streams == s.streams && s'.nextId == s.nextId
    && Reworks(s.processes[k], s'.processes[k]) && ProcessOk(s'.processes[k])
  }

  predicate Reworks(p: Process, q: Process) {
    && q.id == p.id && (q.listed ==> p.listed && q.context == p.context)
    && (p.output.None? ==> q.output.None?)
  }

  /** A record that is being drained keeps what the drain relies on. */
  predicate KeepsDrain(p: Process, q: Process) {
    p.cleaning && p.reaped && p.console.None? ==>
      && q.listed == p.listed && q.cleaning && q.reaped && q.console.None? && q.context == p.context
      && q.output == p.output && q.event == p.event && q.closer == p.closer
  }

  lemma ReworkTables(s: State, s': State, k: nat)
    requires Tables(s) && Reworked(s, s', k) && KeepsDrain(s.processes[k], s'.processes[k])
    ensures Tables(s') && (Shut(s) ==> Shut(s'))
  {
    ReworkPhases(s, s', k);
    ReworkRest(s, s', k);
  }

  lemma ReworkPhases(s: State, s': State, k: nat)
    requires Phases(s) && Reworked(s, s', k) && KeepsDrain(s.processes[k], s'.processes[k])
    ensures Phases(s')
  {
    forall c: nat ensures PhaseAt(s', c) {
      assert PhaseAt(s, c);
      if c < |s.contexts| && NoRecord(s, s.contexts[c].id) { ReworkNoRecord(s, s', k, s.contexts[c].id); }
    }
  }

  lemma ReworkNoRecord(s: State, s': State, k: nat, id: nat)
    requires NoRecord(s, id) && Reworked(s, s', k)
    ensures NoRecord(s', id)
  {
    forall l: nat | l < |s'.processes| ensures !RecordOf(s'.processes[l], id) {
      assert !RecordOf(s.processes[l], id);
    }
  }

  lemma ReworkRest(s: State, s': State, k: nat)
    requires Tables(s) && Reworked(s, s', k) && Phases(s')
    ensures Tables(s') && (Shut(s) ==> Shut(s'))
  {
    forall i: nat ensures StreamAt(s', i) { assert StreamAt(s, i); }
    forall l: nat ensures ProcessAt(s', l) { assert ProcessAt(s, l); }
    SameIds(s, s');
    ReworkLinks(s, s', k);
    forall c: nat ensures LiveAt(s', c) { assert LiveAt(s, c); }
    if Shut(s) { SameShut(s, s'); }
  }

  lemma ReworkLinks(s: State, s': State, k: nat)
    requires Links(s) && Reworked(s, s', k)
    ensures Links(s')
  {
    forall j: nat ensures BelongsAt(s', j) { assert BelongsAt(s, j); }
    forall j: nat, l: nat ensures LinkAt(s', j, l) { assert LinkAt(s, j, l); }
    forall j: nat, l: nat ensures ApartAt(s', j, l) { assert ApartAt(s, j, l); }
  }

  // ----- handles

  lemma ReapConserves(s: State, k: nat)
    requires Conserved(s) && k < |s.processes|
    ensures Conserved(Reap(s, k))
  {
    var s' := Reap(s, k);
    var p := s.processes[k];
    forall h: Handle ensures ConservedAt(s', h) {
      assert ConservedAt(s, h);
      TotalUpdate(s.processes, OfProcess, h, k, s'.processes[k]);
      LogCount(s.closed, p.process, h);
      LogCount(s.closed + Slot(p.process), p.job, h);
    }
  }

  lemma StartCloserConserves(s: State, k: nat)
    requires Conserved(s) && k < |s.processes| && s.processes[k].closer.None?
    ensures Conserved(StartCloser(s, k))
  {
    var s' := StartCloser(s, k);
    forall h: Handle ensures ConservedAt(s', h) {
      assert ConservedAt(s, h);
      TotalUpdate(s.processes, OfProcess, h, k, s'.processes[k]);
      TotalAppend(s.closers, OfCloser, h, s'.closers[|s.closers|]);
    }
  }

  lemma SameSlotsConserve(s: State, s': State, k: nat)
    requires Conserved(s) && k < |s.processes| == |s'.processes| && s'.processes == s.processes[k := s'.processes[k]]
    requires s' == s.(processes := s'.processes)
    requires var p, q := s.processes[k], s'.processes[k];
             p == q.(id := p.id, context := p.context, listed := p.listed, reaped := p.reaped, waited := p.waited, cleaning := p.cleaning)
    ensures Conserved(s')
  {
    forall h: Handle ensures ConservedAt(s', h) {
      assert ConservedAt(s, h);
      TotalUpdate(s.processes, OfProcess, h, k, s'.processes[k]);
    }
  }

  // ----- waits

  lemma ReapKeeps(s: State, k: nat)
    requires Core(s) && k < |s.processes|
    ensures Core(Reap(s, k)) && (Shut(s) ==> Shut(Reap(s, k)))
  {
    assert ProcessAt(s, k);
    ReapConserves(s, k);
    ReworkTables(s, Reap(s, k), k);
  }

  lemma StartCloserKeeps(s: State, k: nat)
    requires Core(s) && k < |s.processes| && s.processes[k].console.Some? && s.processes[k].listed
    ensures Core(StartCloser(s, k)) && (Shut(s) ==> Shut(StartCloser(s, k)))
  {
    assert ProcessAt(s, k);
    StartCloserConserves(s, k);
    ReworkTables(s, StartCloser(s, k), k);
  }

  lemma WaitedKeeps(s: State, k: nat)
    requires Core(s) && k < |s.processes|
    ensures var s' := s.(processes := s.processes[k := s.processes[k].(waited := true)]);
            Core(s') && (Shut(s) ==> Shut(s'))
  {
    var s' := s.(processes := s.processes[k := s.processes[k].(waited := true)]);
    assert ProcessAt(s, k);
    SameSlotsConserve(s, s', k);
    ReworkTables(s, s', k);
  }

  /** A waiting thread closes its duplicate of the process handle. */
  lemma WaiterEnds(s: State, w: nat)
    requires Core(s) && w < |s.waiters|
    ensures var s' := s.(waiters := s.waiters[w := s.waiters[w].(duplicate := None)], closed := s.closed + Slot(s.waiters[w].duplicate));
            Core(s') && (Shut(s) ==> Shut(s'))
  {
    var s' := s.(waiters := s.waiters[w := s.waiters[w].(duplicate := None)], closed := s.closed + Slot(s.waiters[w].duplicate));
    TablesSame(s, s');
    forall h: Handle ensures ConservedAt(s', h) {
      assert ConservedAt(s, h);
      TotalUpdate(s.waiters, OfWaiter, h, w, s'.waiters[w]);
      LogCount(s.closed, s.waiters[w].duplicate, h);
    }
  }

  lemma WaitBeginKeeps(s: State, k: nat)
    requires Inv(s) && Enabled(s, WaitBegin(k))
    ensures Inv(Apply(s, WaitBegin(k)))
  {
    if s.processes[k].reaped {
      WaitedKeeps(s, k);
    } else if s.processes[k].process.Some? {
      WaiterBegins(s, s.processes[k].id);
    }
  }

  lemma WaiterBegins(s: State, id: nat)
    requires Inv(s)
    ensures Inv(s.(waiters := s.waiters + [Waiter(id, Some(s.nextHandle))], nextHandle := s.nextHandle + 1))
  {
    var w := Waiter(id, Some(s.nextHandle));
    var s' := s.(waiters := s.waiters + [w], nextHandle := s.nextHandle + 1);
    TablesSame(s, s');
    forall h: Handle ensures ConservedAt(s', h) {
      assert ConservedAt(s, h);
      WaiterOwns(s, s', w, h);
    }
  }

  lemma WaiterOwns(s: State, s': State, w: Waiter, h: Handle)
    requires s' == s.(waiters := s.waiters + [w], nextHandle := s'.nextHandle)
    ensures Owners(s', h) == Owners(s, h) + OfWaiter(w, h)
  {
    TotalAppend(s.waiters, OfWaiter, h, w);
  }

  lemma WaitGivesUpKeeps(s: State, w: nat)
    requires Inv(s) && Enabled(s, WaitGivesUp(w))
    ensures Inv(Apply(s, WaitGivesUp(w)))
  {
    WaiterEnds(s, w);
  }

  lemma CloserDoneKeeps(s: State, k: nat)
    requires Inv(s) && Enabled(s, CloserDone(k))
    ensures Inv(Apply(s, CloserDone(k)))
  {
    var s' := Apply(s, CloserDone(k));
    TablesSame(s, s');
    forall h: Handle ensures ConservedAt(s', h) {
      assert ConservedAt(s, h);
      TotalUpdate(s.closers, OfCloser, h, k, s'.closers[k]);
      LogCount(s.closed, s.closers[k].console, h);
    }
  }

  lemma FinishedKeeps(s: State, k: nat, jobOk: bool, close: bool)
    requires Core(s) && Shut(s) && k < |s.processes| && s.processes[k].listed
    ensures Core(Finished(s, k, jobOk, close)) && Shut(Finished(s, k, jobOk, close))
  {
    ReapKeeps(s, k);
    var r := Reap(s, k);
    if r.processes[k].console.Some? { StartCloserKeeps(r, k); }
  }

  lemma WaitEndKeeps(s: State, w: nat, jobOk: bool, threadOk: bool)
    requires Inv(s) && Enabled(s, WaitEnd(w, jobOk, threadOk))
    ensures Inv(Apply(s, WaitEnd(w, jobOk, threadOk)))
  {
    var s1 := s.(waiters := s.waiters[w := s.waiters[w].(duplicate := None)], closed := s.closed + Slot(s.waiters[w].duplicate));
    WaiterEnds(s, w);
    var k := Lookup(s.processes, s.waiters[w].id);
    LookupFinds(s.processes, s.waiters[w].id, 0);
    if k < |s.processes| {
      var close := ContextOpen(s, s.processes[k].context) && threadOk;
      FinishedKeeps(s1, k, jobOk, close);
      WaitedKeeps(Finished(s1, k, jobOk, close), k);
    }
  }
}
