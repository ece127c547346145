/** The steps of streams keep the invariant: IO references, closing, disposal. */
module JailStreams {
  import opened JailHandles
  import opened JailInvariant
  import opened JailModel

  /** Stream `i` has lost its last reference and is about to be disposed. */
  ghost predicate Ready(s: State, i: nat) {
    && i < |s.streams|
    && ReadyStream(s.streams[i])
    && (forall j: nat :: j != i ==> StreamAt(s, j))
    && (forall k: nat :: ProcessAt(s, k))
    && IdsOk(s) && Links(s) && Live(s) && Phases(s) && Conserved(s)
  }

  predicate ReadyStream(st: Stream) {
    && !st.disposed && !st.listed && st.refs == 0 && st.holders == 0 && st.cancel.Some? && st.event.Some?
    && (st.read.Some? ==> st.write != st.read) && (st.process != 0 ==> st.read.Some?)
  }

  /** Where the pipe goes, if it stays. */
  lemma LeavesTo(s: State, i: nat)
    requires Ready(s, i) && LeavesOutput(s, s.streams[i])
    ensures var k := Lookup(s.processes, s.streams[i].process);
            && k < |s.processes| && LinkOk(s, s.streams[i], s.processes[k]) && s.processes[k].listed
            && s.processes[k].id == s.streams[i].process && s.processes[k].output.None? && s.processes[k].event.None?
            && (s.processes[k].console.Some? || s.processes[k].closer.Some?)
            && s.streams[i].ctx < |s.contexts| && s.processes[k].context == s.contexts[s.streams[i].ctx].id
  {
    var k := Lookup(s.processes, s.streams[i].process);
    LookupFinds(s.processes, s.streams[i].process, 0);
    assert LinkAt(s, i, k) && ProcessAt(s, k) && BelongsAt(s, i);
  }

  lemma DisposeLocal(s: State, i: nat)
    requires Ready(s, i)
    ensures Local(Dispose(s, i))
  {
    var s' := Dispose(s, i);
    if LeavesOutput(s, s.streams[i]) { LeavesTo(s, i); }
    forall j: nat ensures StreamAt(s', j) { assert j != i ==> StreamAt(s, j); }
    forall k: nat ensures ProcessAt(s', k) { assert ProcessAt(s, k); }
  }

  lemma DisposeIds(s: State, i: nat)
    requires IdsOk(s) && i < |s.streams|
    ensures IdsOk(Dispose(s, i))
  {
    SameIds(s, Dispose(s, i));
  }

  lemma DisposeHandles(s: State, i: nat)
    requires Ready(s, i)
    ensures Conserved(Dispose(s, i))
  {
    if LeavesOutput(s, s.streams[i]) { LeavesTo(s, i); }
    DisposeConserves(s, i);
  }

  lemma DisposeLinks(s: State, i: nat)
    requires Ready(s, i)
    ensures Links(Dispose(s, i))
  {
    var s' := Dispose(s, i);
    if LeavesOutput(s, s.streams[i]) { LeavesTo(s, i); }
    forall j: nat ensures BelongsAt(s', j) { assert BelongsAt(s, j); }
    forall j: nat, k: nat ensures LinkAt(s', j, k) {
      assert LinkAt(s, j, k) && ApartAt(s, i, j) && ApartAt(s, j, i);
    }
    forall j: nat, k: nat ensures ApartAt(s', j, k) { assert ApartAt(s, j, k); }
  }

  lemma DisposeLive(s: State, i: nat)
    requires Ready(s, i)
    ensures Live(Dispose(s, i))
  {
    var s' := Dispose(s, i);
    forall c: nat ensures LiveAt(s', c) {
      assert LiveAt(s, c);
      TotalUpdate(s.streams, InUse, c, i, s'.streams[i]);
    }
  }

  /** A stream in use keeps its context from draining, so no drained record is touched. */
  lemma DisposePhases(s: State, i: nat)
    requires Ready(s, i)
    ensures Phases(Dispose(s, i))
  {
    var s' := Dispose(s, i);
    assert BelongsAt(s, i);
    if LeavesOutput(s, s.streams[i]) { LeavesTo(s, i); }
    forall c: nat ensures PhaseAt(s', c) {
      assert PhaseAt(s, c) && LiveAt(s, c);
      assert ContextIds(s, c, s.streams[i].ctx) && ContextIds(s, s.streams[i].ctx, c);
      if c < |s.contexts| && s.contexts[c].live == 0 { NoneInUse(s.streams, c, i); }
    }
  }

  lemma DisposeKeeps(s: State, i: nat)
    requires Ready(s, i)
    ensures Core(Dispose(s, i))
  {
    DisposeLocal(s, i);
    DisposeIds(s, i);
    DisposeHandles(s, i);
    DisposeLinks(s, i);
    DisposeLive(s, i);
    DisposePhases(s, i);
  }

  /** Changing what a stream is held by, but not what it is or owns. */
  predicate Alike(a: Stream, b: Stream) {
    b == a.(listed := b.listed, refs := b.refs, holders := b.holders, eof := b.eof)
  }

  ghost predicate Held(s: State, s': State, i: nat) {
    && i < |s.streams| && |s'.streams| == |s.streams| && Alike(s.streams[i], s'.streams[i])
    && s' == s.(streams := s.streams[i := s'.streams[i]])
  }

  lemma HeldLinks(s: State, s': State, i: nat)
    requires Links(s) && Held(s, s', i)
    ensures Links(s')
  {
    forall j: nat ensures BelongsAt(s', j) { assert BelongsAt(s, j); }
    forall j: nat, k: nat ensures LinkAt(s', j, k) { assert LinkAt(s, j, k); }
    forall j: nat, k: nat ensures ApartAt(s', j, k) { assert ApartAt(s, j, k); }
  }

  lemma HeldLive(s: State, s': State, i: nat)
    requires Live(s) && Held(s, s', i)
    ensures Live(s')
  {
    forall c: nat ensures LiveAt(s', c) {
      assert LiveAt(s, c);
      TotalUpdate(s.streams, InUse, c, i, s'.streams[i]);
    }
  }

  lemma HeldPhases(s: State, s': State, i: nat)
    requires Phases(s) && Held(s, s', i)
    ensures Phases(s')
  {
    forall c: nat ensures PhaseAt(s', c) { assert PhaseAt(s, c); }
  }

  lemma HeldConserves(s: State, s': State, i: nat)
    requires Conserved(s) && Held(s, s', i)
    ensures Conserved(s')
  {
    forall h: Handle ensures ConservedAt(s', h) {
      assert ConservedAt(s, h);
      TotalUpdate(s.streams, OfStream, h, i, s'.streams[i]);
    }
  }

  lemma HeldLocal(s: State, s': State, i: nat)
    requires Local(s) && Held(s, s', i)
    ensures forall j: nat :: j != i ==> StreamAt(s', j)
    ensures forall k: nat :: ProcessAt(s', k)
  {
    forall j: nat | j != i ensures StreamAt(s', j) { assert StreamAt(s, j); }
    forall k: nat ensures ProcessAt(s', k) { assert ProcessAt(s, k); }
  }

  lemma HeldKeeps(s: State, s': State, i: nat)
    requires Core(s) && Held(s, s', i)
    ensures StreamOk(s'.streams[i]) ==> Core(s')
    ensures ReadyStream(s'.streams[i]) ==> Ready(s', i)
  {
    HeldLocal(s, s', i);
    SameIds(s, s');
    HeldLinks(s, s', i);
    HeldLive(s, s', i);
    HeldPhases(s, s', i);
    HeldConserves(s, s', i);
  }

  /** Giving up one reference, of the table or of an IO. */
  lemma DropKeeps(s: State, s': State, i: nat)
    requires Core(s) && Held(s, s', i) && !s.streams[i].disposed && s'.streams[i].refs == s.streams[i].refs
    requires s'.streams[i].refs == s'.streams[i].holders + (if s'.streams[i].listed then 1 else 0) + 1
    ensures Core(DropRef(s', i))
  {
    var s'' := s'.(streams := s'.streams[i := s'.streams[i].(refs := s'.streams[i].refs - 1)]);
    assert Held(s, s'', i);
    assert StreamAt(s, i);
    DropStream(s.streams[i], s''.streams[i]);
    HeldKeeps(s, s'', i);
    if s''.streams[i].refs == 0 { DisposeKeeps(s'', i); }
  }

  lemma DropStream(a: Stream, b: Stream)
    requires StreamOk(a) && !a.disposed && Alike(a, b) && b.refs == b.holders + if b.listed then 1 else 0
    ensures if b.refs == 0 then ReadyStream(b) else StreamOk(b)
  {
  }

  /** Streams may leave the table, contexts stay as they are but for their counts. */
  ghost predicate Unlisted(s: State, s': State) {
    && |s'.streams| == |s.streams| && |s'.contexts| == |s.contexts|
    && (forall i: nat :: UnlistedAt(s, s', i)) && (forall c: nat :: SameButLive(s, s', c))
  }

  predicate UnlistedAt(s: State, s': State, i: nat) {
    i < |s.streams| && i < |s'.streams| ==>
      (s'.streams[i].listed ==> s.streams[i].listed) && s'.streams[i].ctx == s.streams[i].ctx
  }

  predicate SameButLive(s: State, s': State, c: nat) {
    c < |s.contexts| && c < |s'.contexts| ==> s'.contexts[c] == s.contexts[c].(live := s'.contexts[c].live)
  }

  lemma DisposeUnlists(s: State, i: nat)
    requires i < |s.streams|
    ensures Unlisted(s, Dispose(s, i)) && Dispose(s, i).streams[i].listed == s.streams[i].listed
  {
  }

  lemma HeldUnlists(s: State, s': State, i: nat)
    requires Held(s, s', i) && (s'.streams[i].listed ==> s.streams[i].listed)
    ensures Unlisted(s, s')
  {
  }

  lemma UnlistedTwice(s: State, s': State, s'': State)
    requires Unlisted(s, s') && Unlisted(s', s'')
    ensures Unlisted(s, s'')
  {
    forall i: nat ensures UnlistedAt(s, s'', i) { assert UnlistedAt(s, s', i) && UnlistedAt(s', s'', i); }
    forall c: nat ensures SameButLive(s, s'', c) { assert SameButLive(s, s', c) && SameButLive(s', s'', c); }
  }

  lemma DropUnlists(s: State, s': State, i: nat)
    requires Held(s, s', i) && (s'.streams[i].listed ==> s.streams[i].listed)
    ensures Unlisted(s, DropRef(s', i)) && DropRef(s', i).streams[i].listed == s'.streams[i].listed
  {
    var s'' := s'.(streams := s'.streams[i := s'.streams[i].(refs := s'.streams[i].refs - 1)]);
    HeldUnlists(s, s'', i);
    if s'.streams[i].refs - 1 == 0 {
      DisposeUnlists(s'', i);
      UnlistedTwice(s, s'', Dispose(s'', i));
    }
  }

  lemma UnlistedShut(s: State, s': State)
    requires Shut(s) && Unlisted(s, s')
    ensures Shut(s')
  {
    forall i: nat ensures ShutAt(s', i) {
      assert ShutAt(s, i) && UnlistedAt(s, s', i);
      assert i < |s.streams| ==> SameButLive(s, s', s.streams[i].ctx);
    }
  }

  lemma CloseKeeps(s: State, i: nat)
    requires Core(s) && i < |s.streams| && s.streams[i].listed
    ensures Core(CloseStream(s, i))
  {
    assert StreamAt(s, i);
    DropKeeps(s, s.(streams := s.streams[i := s.streams[i].(listed := false)]), i);
  }

  lemma CloseUnlists(s: State, i: nat)
    requires i < |s.streams|
    ensures Unlisted(s, CloseStream(s, i)) && !CloseStream(s, i).streams[i].listed
  {
    DropUnlists(s, s.(streams := s.streams[i := s.streams[i].(listed := false)]), i);
  }

  predicate GoneAt(s: State, c: nat, i: nat) { i < |s.streams| && s.streams[i].ctx == c ==> !s.streams[i].listed }

  ghost predicate Closed(s: State, x: State, c: nat, n: nat) {
    Unlisted(s, x) && forall i: nat :: i < n ==> GoneAt(x, c, i)
  }

  lemma ClosingUnlists(s: State, x: State, c: nat, n: nat)
    requires Closed(s, x, c, n)
    ensures Closed(s, Closing(c)(x, n), c, n + 1)
  {
    var y := Closing(c)(x, n);
    if n < |x.streams| && x.streams[n].listed && x.streams[n].ctx == c {
      CloseUnlists(x, n);
      UnlistedTwice(s, x, y);
      assert UnlistedAt(x, y, n);
      forall i: nat | i < n ensures GoneAt(y, c, i) { assert UnlistedAt(x, y, i) && GoneAt(x, c, i); }
    }
  }

  lemma CloseAllUnlists(s: State, c: nat)
    ensures Closed(s, CloseStreamsOf(s, c), c, |s.streams|)
  {
    var step, inv := Closing(c), (x: State, i: nat) => Closed(s, x, c, i);
    forall x: State, i: nat | i < |s.streams| && inv(x, i) ensures inv(step(x, i), i + 1) { ClosingUnlists(s, x, c, i); }
    UnlistedSelf(s);
    ForEachKeeps(s, |s.streams|, step, inv);
  }

  lemma UnlistedSelf(s: State)
    ensures Unlisted(s, s)
  {
  }

  lemma ClosingKeeps(s: State, c: nat, i: nat)
    requires Core(s)
    ensures Core(Closing(c)(s, i))
  {
    if i < |s.streams| && s.streams[i].listed { CloseKeeps(s, i); }
  }

  lemma CloseAllKeeps(s: State, c: nat)
    requires Core(s)
    ensures Core(CloseStreamsOf(s, c))
  {
    var step, inv := Closing(c), (x: State, i: nat) => Core(x);
    forall x: State, i: nat | i < |s.streams| && inv(x, i) ensures inv(step(x, i), i + 1) { ClosingKeeps(x, c, i); }
    ForEachKeeps(s, |s.streams|, step, inv);
  }

  lemma GetKeeps(s: State, i: nat)
    requires Inv(s) && Enabled(s, Get(i))
    ensures Inv(Apply(s, Get(i)))
  {
    var s' := Apply(s, Get(i));
    assert StreamAt(s, i) && Held(s, s', i);
    HeldKeeps(s, s', i);
    HeldUnlists(s, s', i);
    UnlistedShut(s, s');
  }

  lemma EofKeeps(s: State, i: nat)
    requires Inv(s) && Enabled(s, Eof(i))
    ensures Inv(Apply(s, Eof(i)))
  {
    var s' := Apply(s, Eof(i));
    assert StreamAt(s, i) && Held(s, s', i);
    HeldKeeps(s, s', i);
    HeldUnlists(s, s', i);
    UnlistedShut(s, s');
  }

  lemma PutKeeps(s: State, i: nat)
    requires Inv(s) && Enabled(s, Put(i))
    ensures Inv(Apply(s, Put(i)))
  {
    var s' := s.(streams := s.streams[i := s.streams[i].(holders := s.streams[i].holders - 1)]);
    assert StreamAt(s, i);
    DropKeeps(s, s', i);
    DropUnlists(s, s', i);
    UnlistedShut(s, DropRef(s', i));
  }

  lemma CloseStepKeeps(s: State, i: nat)
    requires Inv(s) && Enabled(s, Close(i))
    ensures Inv(Apply(s, Close(i)))
  {
    CloseKeeps(s, i);
    CloseUnlists(s, i);
    UnlistedShut(s, CloseStream(s, i));
  }
}
