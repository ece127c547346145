/** What every section of the table lock keeps. */
module JailInvariant {
  import opened JailHandles
  import opened JailModel

  /** A stream lives while it is in the table or some IO holds it, and owns its two
      events and its pipes until then. */
  predicate StreamOk(st: Stream) {
    if st.disposed then
      && !st.listed && st.refs == 0 && st.holders == 0
      && st.read.None? && st.write.None? && st.cancel.None? && st.event.None?
    else
      && st.refs == st.holders + (if st.listed then 1 else 0) && st.refs >= 1
      && st.cancel.Some? && st.event.Some?
      && (st.read.Some? ==> st.write != st.read)
      && (st.process != 0 ==> st.read.Some?)
  }

  predicate ProcessOk(p: Process) {
    && (!p.listed ==> p.process.None? && p.job.None? && p.console.None? && p.closer.None? && p.output.None?)
    && (p.listed ==> p.process.Some? == p.job.Some? == !p.reaped)
    && (p.console.Some? ==> p.closer.None?)
    && (p.output.Some? <==> p.event.Some?)
    && (p.output.Some? ==> p.console.Some? || p.closer.Some?)
  }

  ghost predicate Local(s: State) {
    (forall i: nat :: StreamAt(s, i)) && (forall k: nat :: ProcessAt(s, k))
  }

  predicate StreamAt(s: State, i: nat) { i < |s.streams| ==> StreamOk(s.streams[i]) }

  predicate ProcessAt(s: State, k: nat) { k < |s.processes| ==> ProcessOk(s.processes[k]) }

  /** The ids of one table grow in the order they were given out. */
  ghost predicate IdsOk(s: State) {
    && s.nextId > 0
    && (forall c: nat, d: nat :: ContextIds(s, c, d))
    && (forall i: nat, j: nat :: StreamIds(s, i, j))
    && (forall k: nat, l: nat :: ProcessIds(s, k, l))
  }

  predicate ContextIds(s: State, c: nat, d: nat) {
    d < |s.contexts| ==> 0 < s.contexts[d].id < s.nextId && (c < d ==> s.contexts[c].id < s.contexts[d].id)
  }

  predicate StreamIds(s: State, i: nat, j: nat) {
    j < |s.streams| ==> 0 < s.streams[j].id < s.nextId && (i < j ==> s.streams[i].id < s.streams[j].id)
  }

  predicate ProcessIds(s: State, k: nat, l: nat) {
    l < |s.processes| ==> 0 < s.processes[l].id < s.nextId && (k < l ==> s.processes[k].id < s.processes[l].id)
  }

  /** A stream that may yet leave its pipe to a process is the only one that may, and the
      process, of the same context, holds no other pipe. */
  ghost predicate Links(s: State) {
    && (forall i: nat :: BelongsAt(s, i))
    && (forall i: nat, k: nat :: LinkAt(s, i, k))
    && (forall i: nat, j: nat :: ApartAt(s, i, j))
  }

  predicate BelongsAt(s: State, i: nat) {
    i < |s.streams| ==> s.streams[i].ctx < |s.contexts| && s.streams[i].process < s.nextId
  }

  predicate LinkAt(s: State, i: nat, k: nat) {
    i < |s.streams| && k < |s.processes| ==> LinkOk(s, s.streams[i], s.processes[k])
  }

  predicate LinkOk(s: State, st: Stream, p: Process) {
    !st.disposed && p.listed && p.id == st.process ==>
      p.output.None? && st.ctx < |s.contexts| && p.context == s.contexts[st.ctx].id
  }

  predicate ApartAt(s: State, i: nat, j: nat) {
    i < j < |s.streams| && s.streams[i].process != 0 ==> s.streams[i].process != s.streams[j].process
  }

  function InUse(st: Stream, c: nat): nat { if !st.disposed && st.ctx == c then 1 else 0 }

  /** `live_streams` is exact. */
  ghost predicate Live(s: State) {
    forall c: nat :: LiveAt(s, c)
  }

  predicate LiveAt(s: State, c: nat) {
    c < |s.contexts| ==> s.contexts[c].live == Total(s.streams, InUse, c)
  }

  /** While a context drains a process without the lock, the record stays, and its
      handles are the ones the drain works on. */
  ghost predicate DrainOk(s: State, x: Context)
    requires x.phase.Draining?
  {
    && x.phase.p < |s.processes|
    && var p := s.processes[x.phase.p];
       && p.listed && p.cleaning && p.reaped && p.console.None? && p.context == x.id
       && p.output == x.phase.output && p.event == x.phase.event && p.closer == x.phase.closer
  }

  ghost predicate PhaseOk(s: State, x: Context) {
    && (x.listed <==> x.phase.Open?)
    && (!x.phase.Open? ==> x.poisoned)
    && (x.phase.Cleanup? || x.phase.Draining? || x.phase.Freed? ==> x.live == 0)
    && (x.phase.Draining? ==> DrainOk(s, x))
    && (x.phase.Freed? ==> x.job.None? && NoRecord(s, x.id))
  }

  ghost predicate NoRecord(s: State, id: nat) {
    forall k: nat :: k < |s.processes| ==> !RecordOf(s.processes[k], id)
  }

  predicate RecordOf(p: Process, id: nat) { p.listed && p.context == id }

  ghost predicate Phases(s: State) {
    forall c: nat :: PhaseAt(s, c)
  }

  ghost predicate PhaseAt(s: State, c: nat) { c < |s.contexts| ==> PhaseOk(s, s.contexts[c]) }

  /** A context on its way out has no stream in the table. */
  ghost predicate Shut(s: State) {
    forall i: nat :: ShutAt(s, i)
  }

  predicate ShutAt(s: State, i: nat) {
    i < |s.streams| && s.streams[i].listed && s.streams[i].ctx < |s.contexts| ==>
      s.contexts[s.streams[i].ctx].phase.Open?
  }

  /** One proposition, so that a proof that ends in it is checked as a whole. */
  ghost predicate Tables(s: State) { AllTables(s) == true }

  ghost predicate AllTables(s: State) {
    Local(s) && IdsOk(s) && Links(s) && Live(s) && Phases(s)
  }

  /** All but `Shut`, which is the aim of the loop that closes a context's streams. */
  ghost predicate Core(s: State) {
    Tables(s) && Conserved(s)
  }

  ghost predicate Inv(s: State) {
    Core(s) && Shut(s)
  }

  lemma InitialHolds()
    ensures Inv(Empty)
  {
    assert forall h: Handle :: ConservedAt(Empty, h);
  }

  lemma {:induction false} NoneInUse(xs: seq<Stream>, c: nat, i: nat)
    requires i < |xs| && Total(xs, InUse, c) == 0
    ensures InUse(xs[i], c) == 0
  {
    if i < |xs| - 1 { NoneInUse(xs[..|xs| - 1], c, i); }
  }

  lemma SameIds(s: State, s': State)
    requires IdsOk(s) && s'.nextId == s.nextId
    requires |s'.contexts| == |s.contexts| && forall c :: 0 <= c < |s.contexts| ==> s'.contexts[c].id == s.contexts[c].id
    requires |s'.streams| == |s.streams| && forall i :: 0 <= i < |s.streams| ==> s'.streams[i].id == s.streams[i].id
    requires |s'.processes| == |s.processes|
    requires forall k :: 0 <= k < |s.processes| ==> s'.processes[k].id == s.processes[k].id
    ensures IdsOk(s')
  {
    forall c: nat, d: nat ensures ContextIds(s', c, d) { assert ContextIds(s, c, d); }
    forall i: nat, j: nat ensures StreamIds(s', i, j) { assert StreamIds(s, i, j); }
    forall k: nat, l: nat ensures ProcessIds(s', k, l) { assert ProcessIds(s, k, l); }
  }
}
