/** What holds in every reachable state of the Windows tables, and over every step. */
module JailSafety {
  import opened Basics
  import opened JailHandles
  import opened JailInvariant
  import opened JailModel
  import opened JailSpawns

  // ----- handles

  /** Every handle the system gave out has exactly one owner, or was closed, once. */
  lemma HandleHasOneFate(s: State, h: Handle)
    requires Reachable(s)
    ensures Owners(s, h) + s.closed[h] == if h < s.nextHandle then 1 else 0
  {
    ReachableHolds(s);
    assert ConservedAt(s, h);
  }

  lemma {:induction false} AtLeast<T>(xs: seq<T>, of: (T, nat) -> nat, h: nat, i: nat)
    requires i < |xs|
    ensures Total(xs, of, h) >= of(xs[i], h)
  {
    if i < |xs| - 1 { AtLeast(xs[..|xs| - 1], of, h, i); }
  }

  /** While an IO holds a stream, none of the stream's handles has been closed. */
  lemma HeldHandlesAreOpen(s: State, i: nat, h: Handle)
    requires Reachable(s) && i < |s.streams| && s.streams[i].holders > 0
    requires Some(h) in [s.streams[i].read, s.streams[i].write, s.streams[i].cancel, s.streams[i].event]
    ensures s.closed[h] == 0 && !s.streams[i].disposed
  {
    ReachableHolds(s);
    assert StreamAt(s, i);
    assert ConservedAt(s, h);
    AtLeast(s.streams, OfStream, h, i);
  }

  /** The copies a drain works on, without the lock, are still its record's, and open. */
  lemma DrainOwnsItsHandles(s: State, c: nat, h: Handle)
    requires Reachable(s) && c < |s.contexts| && s.contexts[c].phase.Draining?
    ensures var d := s.contexts[c].phase;
            && d.p < |s.processes|
            && var p := s.processes[d.p];
               && p.listed && p.cleaning && p.context == s.contexts[c].id
               && [p.output, p.event, p.closer] == [d.output, d.event, d.closer]
               && (Some(h) in [d.output, d.event, d.closer] ==> s.closed[h] == 0)
               && (d.output.Some? ==> d.event.Some? && d.closer.Some?)
  {
    ReachableHolds(s);
    assert PhaseAt(s, c);
    var d := s.contexts[c].phase;
    assert ProcessAt(s, d.p);
    assert ConservedAt(s, h);
    AtLeast(s.processes, OfProcess, h, d.p);
  }

  /** A spawn that fails, at any stage, has closed every handle it was given, once. */
  lemma FailedSpawnClosesAll(s: State, a: Step, h: Handle)
    requires Reachable(s) && a.SpawnFails? && Enabled(s, a) && s.nextHandle <= h < Apply(s, a).nextHandle
    ensures Apply(s, a).closed[h] == 1
  {
    ReachableHolds(s);
    StepKeeps(s, a);
    ReclaimKeeps(s);
    assert PhaseAt(s, a.c);
    assert ConservedAt(Reclaim(s), h) && ConservedAt(Apply(s, a), h);
    FailedOwnsNothing(Reclaim(s), a.c, a.pty, a.merge, a.stage, a.ids, a.handles, h);
  }

  predicate Quiet(s: State) {
    && (forall i :: 0 <= i < |s.streams| ==> !s.streams[i].listed && s.streams[i].holders == 0)
    && (forall k :: 0 <= k < |s.processes| ==> !s.processes[k].listed)
    && (forall c :: 0 <= c < |s.contexts| ==> s.contexts[c].phase.Freed?)
    && (forall w :: 0 <= w < |s.waiters| ==> s.waiters[w].duplicate.None?)
    && (forall k :: 0 <= k < |s.closers| ==> s.closers[k].console.None?)
  }

  lemma {:induction false} NoneOwned<T>(xs: seq<T>, of: (T, nat) -> nat, h: nat)
    requires forall i :: 0 <= i < |xs| ==> of(xs[i], h) == 0
    ensures Total(xs, of, h) == 0
  {
    if xs != [] { NoneOwned(xs[..|xs| - 1], of, h); }
  }

  /** Once every context is gone, every record reclaimed and no thread under way, every
      handle ever given out has been closed exactly once. */
  lemma NothingLeaks(s: State, h: Handle)
    requires Reachable(s) && Quiet(s) && h < s.nextHandle
    ensures s.closed[h] == 1
  {
    ReachableHolds(s);
    forall i: nat | i < |s.streams| ensures OfStream(s.streams[i], h) == 0 { assert StreamAt(s, i); }
    forall k: nat | k < |s.processes| ensures OfProcess(s.processes[k], h) == 0 { assert ProcessAt(s, k); }
    forall c: nat | c < |s.contexts| ensures OfContext(s.contexts[c], h) == 0 { assert PhaseAt(s, c); }
    assert ConservedAt(s, h);
    NoneOwned(s.streams, OfStream, h);
    NoneOwned(s.processes, OfProcess, h);
    NoneOwned(s.contexts, OfContext, h);
    NoneOwned(s.waiters, OfWaiter, h);
    NoneOwned(s.closers, OfCloser, h);
  }

  // ----- streams

  /** References are the table's and the IOs', and disposal comes with the last of them. */
  lemma RefsAreExact(s: State, i: nat)
    requires Reachable(s) && i < |s.streams|
    ensures s.streams[i].refs == s.streams[i].holders + if s.streams[i].listed then 1 else 0
    ensures s.streams[i].disposed <==> !s.streams[i].listed && s.streams[i].holders == 0
  {
    ReachableHolds(s);
    assert StreamAt(s, i);
  }

  lemma {:induction false} InUseIsCount(xs: seq<Stream>, c: nat)
    ensures Total(xs, InUse, c) == |set i | 0 <= i < |xs| && !xs[i].disposed && xs[i].ctx == c|
  {
    if xs != [] {
      var m := |xs| - 1;
      var front := set i | 0 <= i < m && !xs[..m][i].disposed && xs[..m][i].ctx == c;
      var all := set i | 0 <= i < |xs| && !xs[i].disposed && xs[i].ctx == c;
      InUseIsCount(xs[..m], c);
      assert all == if InUse(xs[m], c) == 1 then front + {m} else front;
    }
  }

  lemma LiveIsExact(s: State, c: nat)
    requires Reachable(s) && c < |s.contexts|
    ensures s.contexts[c].live == |set i | 0 <= i < |s.streams| && !s.streams[i].disposed && s.streams[i].ctx == c|
  {
    ReachableHolds(s);
    assert LiveAt(s, c);
    InUseIsCount(s.streams, c);
  }
}
