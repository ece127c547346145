/** Conservation of handles: every handle the system ever gave out is in exactly one
    place of the tables, or was closed exactly once. */
module JailHandles {
  import opened Basics
  import opened JailModel

  function N(o: Option<Handle>, h: Handle): nat { if o == Some(h) then 1 else 0 }

  function OfContext(c: Context, h: Handle): nat { N(c.job, h) }

  function OfStream(st: Stream, h: Handle): nat { N(st.read, h) + N(st.write, h) + N(st.cancel, h) + N(st.event, h) }

  function OfProcess(p: Process, h: Handle): nat {
    N(p.process, h) + N(p.job, h) + N(p.console, h) + N(p.closer, h) + N(p.output, h) + N(p.event, h)
  }

  function OfWaiter(w: Waiter, h: Handle): nat { N(w.duplicate, h) }

  function OfCloser(c: Closer, h: Handle): nat { N(c.console, h) }

  /** A sum over a table, of what each entry has of `h`: a handle, an id or a context. */
  function Total<T>(xs: seq<T>, of: (T, nat) -> nat, h: nat): nat {
    if xs == [] then 0 else Total(xs[..|xs| - 1], of, h) + of(xs[|xs| - 1], h)
  }

  /** How many places - tables, waiting threads, closer threads - own handle `h`. */
  function Owners(s: State, h: Handle): nat {
    Total(s.contexts, OfContext, h) + Total(s.streams, OfStream, h) + Total(s.processes, OfProcess, h)
    + Total(s.waiters, OfWaiter, h) + Total(s.closers, OfCloser, h)
  }

  ghost predicate Conserved(s: State) {
    forall h: Handle :: ConservedAt(s, h)
  }

  predicate ConservedAt(s: State, h: Handle) { Owners(s, h) + s.closed[h] == if h < s.nextHandle then 1 else 0 }

  lemma {:induction false} TotalUpdate<T>(xs: seq<T>, of: (T, nat) -> nat, h: nat, i: nat, x: T)
    requires i < |xs|
    ensures Total(xs[i := x], of, h) == Total(xs, of, h) + of(x, h) - of(xs[i], h)
  {
    var m := |xs| - 1;
    if i == m {
      assert xs[i := x][..m] == xs[..m];
    } else {
      assert xs[i := x][..m] == xs[..m][i := x];
      TotalUpdate(xs[..m], of, h, i, x);
    }
  }

  lemma TotalAppend<T>(xs: seq<T>, of: (T, nat) -> nat, h: nat, x: T)
    ensures Total(xs + [x], of, h) == Total(xs, of, h) + of(x, h)
  {
    assert (xs + [x])[..|xs|] == xs;
  }

  lemma {:induction false} TotalSame<T>(xs: seq<T>, ys: seq<T>, of: (T, nat) -> nat, h: nat)
    requires |xs| == |ys| && forall i :: 0 <= i < |xs| ==> of(ys[i], h) == of(xs[i], h)
    ensures Total(ys, of, h) == Total(xs, of, h)
  {
    if xs != [] { TotalSame(xs[..|xs| - 1], ys[..|ys| - 1], of, h); }
  }

  /** One stream, one process and the count of closed handles change together. */
  lemma Transfer(s: State, s': State, i: nat, k: nat, h: Handle)
    requires i < |s.streams| == |s'.streams| && s'.streams == s.streams[i := s'.streams[i]]
    requires k < |s.processes| == |s'.processes| && s'.processes == s.processes[k := s'.processes[k]]
    requires s'.waiters == s.waiters && s'.closers == s.closers && SameJobsIn(s, s')
    ensures Owners(s', h) == Owners(s, h) + OfStream(s'.streams[i], h) - OfStream(s.streams[i], h)
                             + OfProcess(s'.processes[k], h) - OfProcess(s.processes[k], h)
  {
    TotalUpdate(s.streams, OfStream, h, i, s'.streams[i]);
    TotalUpdate(s.processes, OfProcess, h, k, s'.processes[k]);
    TotalSame(s.contexts, s'.contexts, OfContext, h);
  }

  ghost predicate SameJobsIn(s: State, s': State) {
    |s'.contexts| == |s.contexts| && forall c :: 0 <= c < |s.contexts| ==> s'.contexts[c].job == s.contexts[c].job
  }

  lemma TransferStream(s: State, s': State, i: nat, h: Handle)
    requires i < |s.streams| == |s'.streams| && s'.streams == s.streams[i := s'.streams[i]]
    requires s'.processes == s.processes && s'.waiters == s.waiters && s'.closers == s.closers && SameJobsIn(s, s')
    ensures Owners(s', h) == Owners(s, h) + OfStream(s'.streams[i], h) - OfStream(s.streams[i], h)
  {
    TotalUpdate(s.streams, OfStream, h, i, s'.streams[i]);
    TotalSame(s.contexts, s'.contexts, OfContext, h);
  }

  /** What `stream_dispose` relies on: the two ends of a stream differ, and the process
      it leaves its pipe to holds no other one. */
  ghost predicate MayDispose(s: State, i: nat)
    requires i < |s.streams|
  {
    var st := s.streams[i];
    && (st.read.Some? ==> st.write != st.read)
    && (LeavesOutput(s, st) ==>
          var p := s.processes[Lookup(s.processes, st.process)]; p.output.None? && p.event.None?)
  }

  lemma LogCount(log: multiset<Handle>, o: Option<Handle>, h: Handle)
    ensures (log + Slot(o))[h] == log[h] + N(o, h)
  {
  }

  lemma DisposeCloses(s: State, i: nat, h: Handle)
    requires i < |s.streams| && MayDispose(s, i)
    ensures var st := s.streams[i];
            Dispose(s, i).closed[h] == s.closed[h] + N(st.write, h) + N(st.cancel, h)
                                       + if LeavesOutput(s, st) then 0 else N(st.read, h) + N(st.event, h)
  {
    var st := s.streams[i];
    var read := if LeavesOutput(s, st) then None else st.read;
    var event := if LeavesOutput(s, st) then None else st.event;
    assert N(if st.write == read then None else st.write, h) == N(st.write, h);
    LogCount(s.closed, read, h);
    LogCount(s.closed + Slot(read), st.write, h);
    LogCount(s.closed + Slot(read) + Slot(st.write), event, h);
    LogCount(s.closed + Slot(read) + Slot(st.write) + Slot(event), st.cancel, h);
    assert Dispose(s, i).closed == s.closed + Slot(read) + Slot(st.write) + Slot(event) + Slot(st.cancel);
  }

  lemma DisposeOwners(s: State, i: nat, h: Handle)
    requires i < |s.streams| && MayDispose(s, i)
    ensures var st := s.streams[i];
            Owners(Dispose(s, i), h) == Owners(s, h) - N(st.write, h) - N(st.cancel, h)
                                        - if LeavesOutput(s, st) then 0 else N(st.read, h) + N(st.event, h)
  {
    var s' := Dispose(s, i);
    var st := s.streams[i];
    assert SameJobsIn(s, s');
    if LeavesOutput(s, st) {
      Transfer(s, s', i, Lookup(s.processes, st.process), h);
    } else {
      TransferStream(s, s', i, h);
    }
  }

  lemma DisposeConserves(s: State, i: nat)
    requires Conserved(s) && i < |s.streams| && MayDispose(s, i)
    ensures Conserved(Dispose(s, i))
  {
    forall h: Handle ensures ConservedAt(Dispose(s, i), h) {
      assert ConservedAt(s, h);
      DisposeCloses(s, i, h);
      DisposeOwners(s, i, h);
    }
  }
}
