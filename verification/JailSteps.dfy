/** What each step of the Windows tables does to contexts, process records and waits, told from
    the step alone: what changes them, and that nothing else does. */
module JailSteps {
  import opened Basics
  import opened JailHandles
  import opened JailInvariant
  import opened JailModel
  import opened JailRuns
  import opened JailSafety
  import opened JailSpawns
  import opened JailStreams

  // ----- contexts

  /** The destruction of context `c` begins: its job, if it still has one, is over. */
  predicate Begins(s: State, a: Step, c: nat)
    requires c < |s.contexts|
  {
    a.DestroyBegin? && a.c == c && (s.contexts[c].job.None? || a.jobOk)
  }

  /** A step of the destruction fails, so that it can be tried again. */
  predicate Fails(s: State, a: Step, c: nat)
    requires c < |s.contexts|
  {
    || a == DestroyInterrupted(c) || a == DestroyDrain(c, false)
    || (a.DestroyTake? && a.c == c && a.k < |s.processes| && s.processes[a.k].console.Some? && !a.threadOk)
    || (a.DestroyEnd? && a.c == c && !(a.desktopOk && a.profileOk))
  }

  predicate ContextMoves(s: State, a: Step, c: nat, x: Context, y: Context)
    requires c < |s.contexts|
  {
    && y.id == x.id
    && y.sealed == (x.sealed || a == Seal(c, true))
    && y.poisoned == (x.poisoned || a == Seal(c, false) || (a.DestroyBegin? && a.c == c))
    && y.listed == ((x.listed && !Begins(s, a, c)) || Fails(s, a, c))
    && y.job == (if a.DestroyEnd? && a.c == c && a.desktopOk then None else x.job)
    && (y.phase.Freed? <==> x.phase.Freed? || a == DestroyEnd(c, true, true))
    && (y.phase.Draining? && !x.phase.Draining? ==> a.DestroyTake? && a.c == c && y.phase.p == a.k)
  }

  predicate Plainly(a: Step) { !Sweeps(a) && !a.Put? && !a.Close? && !a.DestroyBegin? }

  lemma SpawnContext(s: State, a: Step, c: nat)
    requires Inv(s) && Enabled(s, a) && Sweeps(a) && c < |s.contexts|
    ensures |Apply(s, a).contexts| == |s.contexts| && SameButLive(s, Apply(s, a), c)
  {
    assert PhaseAt(s, a.c);
    ReclaimKeeps(s);
    if a.Spawn? {
      SpawnedContexts(Reclaim(s), a.c, a.pty, a.merge, c);
    } else {
      FailedContexts(Reclaim(s), a.c, a.pty, a.merge, a.stage, a.ids, a.handles, c);
    }
  }

  lemma SpawnedContexts(s: State, c: nat, pty: bool, merge: bool, d: nat)
    requires Inv(s) && c < |s.contexts| && s.contexts[c].phase.Open? && d < |s.contexts|
    ensures var r := Spawned(s, c, pty, merge); |r.contexts| == |s.contexts| && SameButLive(s, r, d)
  {
    SpawnedExtends(s, c, pty, merge);
  }

  lemma FailedContexts(s: State, c: nat, pty: bool, merge: bool, n: nat, ids: nat, handles: nat, d: nat)
    requires Inv(s) && c < |s.contexts| && s.contexts[c].phase.Open? && n <= |Stages(pty, merge)| && d < |s.contexts|
    ensures var r := SpawnFailed(s, c, Stages(pty, merge), n, ids, handles); |r.contexts| == |s.contexts| && SameButLive(s, r, d)
  {
    var b := Built(s, c, Stages(pty, merge), n);
    var x := GaveUp(b.s, ids, handles);
    BuiltExtends(s, c, Stages(pty, merge), n);
    CloseEachUnlists(x, b.u.streams, |b.u.streams|);
    LiveTwice(s, x, CloseEach(x, b.u.streams, |b.u.streams|), d);
  }

  lemma LiveTwice(s: State, x: State, y: State, d: nat)
    requires |s.contexts| == |x.contexts| && Unlisted(x, y) && SameButLive(s, x, d)
    ensures |y.contexts| == |s.contexts| && SameButLive(s, y, d)
  {
    assert SameButLive(x, y, d);
  }

  lemma {:induction false} CloseEachUnlists(s: State, made: seq<nat>, n: nat)
    requires n <= |made|
    ensures Unlisted(s, CloseEach(s, made, n))
    decreases n
  {
    if n == 0 {
      UnlistedSelf(s);
    } else {
      var i := made[n - 1];
      var x := if i < |s.streams| then CloseStream(s, i) else s;
      if i < |s.streams| { CloseUnlists(s, i); } else { UnlistedSelf(s); }
      CloseEachUnlists(x, made, n - 1);
      UnlistedTwice(s, x, CloseEach(x, made, n - 1));
    }
  }

  lemma DropContext(s: State, a: Step, c: nat)
    requires Inv(s) && Enabled(s, a) && (a.Put? || a.Close?) && c < |s.contexts|
    ensures |Apply(s, a).contexts| == |s.contexts| && SameButLive(s, Apply(s, a), c)
  {
    if a.Close? {
      CloseUnlists(s, a.i);
    } else {
      DropUnlists(s, s.(streams := s.streams[a.i := s.streams[a.i].(holders := s.streams[a.i].holders - 1)]), a.i);
    }
  }

  lemma OnlyLive(s: State, s': State, a: Step, c: nat)
    requires c < |s.contexts| == |s'.contexts| && SameButLive(s, s', c) && (Sweeps(a) || a.Put? || a.Close?)
    ensures ContextMoves(s, a, c, s.contexts[c], s'.contexts[c])
  {
  }

  lemma BeginContext(s: State, a: Step, c: nat)
    requires Inv(s) && Enabled(s, a) && a.DestroyBegin? && c < |s.contexts|
    ensures c < |Apply(s, a).contexts| && ContextMoves(s, a, c, s.contexts[c], Apply(s, a).contexts[c])
  {
    assert PhaseAt(s, c) && PhaseAt(s, a.c);
    if s.contexts[a.c].job.None? || a.jobOk {
      var s1 := s.(contexts := s.contexts[a.c := s.contexts[a.c].(poisoned := true)]);
      var s2 := s1.(contexts := s1.contexts[a.c := s1.contexts[a.c].(listed := false, phase := AwaitStreams)]);
      CloseAllUnlists(s2, a.c);
      assert SameButLive(s2, CloseStreamsOf(s2, a.c), c);
    }
  }

  lemma TakeContext(s: State, a: Step, c: nat)
    requires Inv(s) && Enabled(s, a) && a.DestroyTake? && c < |s.contexts|
    ensures c < |Apply(s, a).contexts| && ContextMoves(s, a, c, s.contexts[c], Apply(s, a).contexts[c])
  {
    assert PhaseAt(s, a.c) && PhaseAt(s, c);
    TakenContext(s, a, c);
  }

  lemma TakenContext(s: State, a: Step, c: nat)
    requires Enabled(s, a) && a.DestroyTake? && c < |s.contexts| && (s.contexts[c].listed <==> s.contexts[c].phase.Open?)
    ensures c < |Apply(s, a).contexts| && ContextMoves(s, a, c, s.contexts[c], Apply(s, a).contexts[c])
  {
    TakeRecords(s, a.c, a.k, a.threadOk);
    if a.c == c {
      var r := Reap(s, a.k);
      if s.processes[a.k].console.Some? && !a.threadOk {
        assert Apply(s, a) == Retry(r, c);
      } else {
        assert Apply(s, a).contexts[c] == s.contexts[c].(phase := Apply(s, a).contexts[c].phase);
      }
    }
  }

  lemma PlainContext(s: State, a: Step, c: nat)
    requires Inv(s) && Enabled(s, a) && Plainly(a) && !a.DestroyTake? && c < |s.contexts|
    ensures c < |Apply(s, a).contexts| && ContextMoves(s, a, c, s.contexts[c], Apply(s, a).contexts[c])
  {
    assert PhaseAt(s, c);
    if a.WaitEnd? {
      WaitContexts(s, a.w, a.jobOk, a.threadOk);
    } else if a.DestroyEnd? {
      EndContext(s, a, c);
    } else if a.DestroyDrain? || a.DestroyInterrupted? {
      DrainContext(s, a, c);
    }
  }

  lemma EndContext(s: State, a: Step, c: nat)
    requires Enabled(s, a) && a.DestroyEnd? && c < |s.contexts|
    requires s.contexts[c].listed <==> s.contexts[c].phase.Open?
    ensures c < |Apply(s, a).contexts| && ContextMoves(s, a, c, s.contexts[c], Apply(s, a).contexts[c])
  {
  }

  lemma DrainContext(s: State, a: Step, c: nat)
    requires Enabled(s, a) && (a.DestroyDrain? || a.DestroyInterrupted?) && c < |s.contexts|
    requires s.contexts[c].listed <==> s.contexts[c].phase.Open?
    ensures c < |Apply(s, a).contexts| && ContextMoves(s, a, c, s.contexts[c], Apply(s, a).contexts[c])
  {
  }

  /** What every step does to every context: only a seal that succeeds seals it, only one that
      fails or a destruction poisons it; it leaves the table as its destruction begins, for good
      unless that fails on the way; its job goes at the end, and it is freed at no other point. */
  lemma ContextBecomes(s: State, a: Step, c: nat)
    requires Inv(s) && Enabled(s, a) && c < |s.contexts|
    ensures c < |Apply(s, a).contexts| && ContextMoves(s, a, c, s.contexts[c], Apply(s, a).contexts[c])
  {
    if Sweeps(a) {
      SpawnContext(s, a, c);
      OnlyLive(s, Apply(s, a), a, c);
    } else if a.Put? || a.Close? {
      DropContext(s, a, c);
      OnlyLive(s, Apply(s, a), a, c);
    } else if a.DestroyBegin? {
      BeginContext(s, a, c);
    } else if a.DestroyTake? {
      TakeContext(s, a, c);
    } else {
      PlainContext(s, a, c);
    }
  }

  /** A new context has a job of its own, is open and not sealed, and nothing else changes. */
  lemma CreateGives(s: State)
    requires Reachable(s)
    ensures var s' := Apply(s, Create);
            && |s'.contexts| == |s.contexts| + 1 && s'.contexts[..|s.contexts|] == s.contexts
            && s'.streams == s.streams && s'.processes == s.processes && s'.waiters == s.waiters
            && var x := s'.contexts[|s.contexts|];
               && x.listed && !x.sealed && !x.poisoned && x.live == 0 && x.phase.Open?
               && x.job.Some? && s.nextHandle <= x.job.value < s'.nextHandle && s'.closed[x.job.value] == 0
               && Bearers(s, x.id) == 0
  {
    ReachableHolds(s);
    IdsNeverRepeat(s, s.nextId);
    assert ConservedAt(s, s.nextHandle);
  }

  // ----- records

  /** The step is the end of a wait for record `k`. */
  predicate EndsWait(s: State, a: Step, k: nat)
    requires k < |s.processes|
  {
    a.WaitEnd? && a.w < |s.waiters| && s.processes[k].listed && s.processes[k].id == s.waiters[a.w].id
  }

  predicate Reaps(s: State, a: Step, k: nat)
    requires k < |s.processes|
  {
    (EndsWait(s, a, k) && a.jobOk) || (a.DestroyTake? && a.k == k)
  }

  predicate IsOpen(s: State, id: nat) {
    exists c :: 0 <= c < |s.contexts| && s.contexts[c].listed && !s.contexts[c].poisoned && s.contexts[c].id == id
  }

  /** The console goes to a thread that closes it. */
  predicate HandsOn(s: State, a: Step, k: nat)
    requires k < |s.processes|
  {
    && s.processes[k].console.Some?
    && ((EndsWait(s, a, k) && a.jobOk && a.threadOk && !s.processes[k].reaped && IsOpen(s, s.processes[k].context))
        || (a.DestroyTake? && a.k == k && a.threadOk))
  }

  predicate Detaches(s: State, a: Step, k: nat) {
    a.DestroyDrain? && a.ok && a.c < |s.contexts| && s.contexts[a.c].phase.Draining? && s.contexts[a.c].phase.p == k
  }

  predicate RecordMoves(s: State, s': State, a: Step, k: nat, p: Process, q: Process)
    requires k < |s.processes|
  {
    && q.id == p.id && q.listed == p.listed
    && q.reaped == (p.reaped || Reaps(s, a, k))
    && q.waited == (p.waited || EndsWait(s, a, k) || (a == WaitBegin(k) && p.reaped))
    && q.context == (if Detaches(s, a, k) then 0 else p.context)
    && q.console == (if HandsOn(s, a, k) then None else p.console)
    && (HandsOn(s, a, k) ==> q.closer.Some? && s'.closers == s.closers + [Closer(q.closer.value, p.console)])
  }

  lemma {:induction false} LookupIs(ps: seq<Process>, id: nat, from: nat, k: nat)
    requires from <= k < |ps| && ps[k].listed && ps[k].id == id
    requires forall j :: from <= j < |ps| && j != k ==> ps[j].id != id
    ensures LookupFrom(ps, id, from) == k
    decreases |ps| - from
  {
    if from < k { LookupIs(ps, id, from + 1, k); }
  }

  lemma WaitRecord(s: State, a: Step, k: nat)
    requires Inv(s) && Enabled(s, a) && a.WaitEnd? && k < |s.processes|
    ensures k < |Apply(s, a).processes| && RecordMoves(s, Apply(s, a), a, k, s.processes[k], Apply(s, a).processes[k])
  {
    WaitFinds(s, a, k);
    assert ProcessAt(s, k);
    WaitMoves(s, a, k);
  }

  lemma WaitFinds(s: State, a: Step, k: nat)
    requires IdsOk(s) && a.WaitEnd? && a.w < |s.waiters| && k < |s.processes|
    ensures EndsWait(s, a, k) <==> k == Lookup(s.processes, s.waiters[a.w].id)
  {
    var id := s.waiters[a.w].id;
    LookupFinds(s.processes, id, 0);
    if EndsWait(s, a, k) {
      forall j | 0 <= j < |s.processes| && j != k ensures s.processes[j].id != id {
        assert ProcessIds(s, j, k) && ProcessIds(s, k, j);
      }
      LookupIs(s.processes, id, 0, k);
    }
  }

  lemma WaitMoves(s: State, a: Step, k: nat)
    requires Enabled(s, a) && a.WaitEnd? && k < |s.processes| && ProcessOk(s.processes[k])
    requires EndsWait(s, a, k) <==> k == Lookup(s.processes, s.waiters[a.w].id)
    ensures k < |Apply(s, a).processes| && RecordMoves(s, Apply(s, a), a, k, s.processes[k], Apply(s, a).processes[k])
  {
    WaitShape(s, a);
    if !EndsWait(s, a, k) { assert Apply(s, a).processes[k] == s.processes[k]; }
  }

  /** The end of a wait finishes the record it finds, and marks it. */
  lemma WaitShape(s: State, a: Step)
    requires Enabled(s, a) && a.WaitEnd?
    ensures var i := Lookup(s.processes, s.waiters[a.w].id);
            var s' := Apply(s, a);
            && |s'.processes| == |s.processes|
            && (forall k :: 0 <= k < |s.processes| && k != i ==> s'.processes[k] == s.processes[k])
            && (i < |s.processes| ==>
                  var p, q := s.processes[i], s'.processes[i];
                  var closes := !p.reaped && a.jobOk && p.console.Some? && ContextOpen(s, p.context) && a.threadOk;
                  && q == p.(reaped := p.reaped || a.jobOk, waited := true, process := q.process, job := q.job,
                             console := if closes then None else p.console, closer := q.closer)
                  && (closes ==> q.closer.Some? && s'.closers == s.closers + [Closer(q.closer.value, p.console)]))
  {
  }

  lemma TakeRecord(s: State, a: Step, k: nat)
    requires Inv(s) && Enabled(s, a) && a.DestroyTake? && k < |s.processes|
    ensures k < |Apply(s, a).processes| && RecordMoves(s, Apply(s, a), a, k, s.processes[k], Apply(s, a).processes[k])
  {
    assert ProcessAt(s, a.k);
  }

  lemma DrainRecord(s: State, a: Step, k: nat)
    requires Inv(s) && Enabled(s, a) && a.DestroyDrain? && k < |s.processes|
    ensures k < |Apply(s, a).processes| && RecordMoves(s, Apply(s, a), a, k, s.processes[k], Apply(s, a).processes[k])
  {
  }

  predicate SameRecord(p: Process, q: Process) { q == p.(output := q.output, event := q.event) }

  lemma DropRecord(s: State, s': State, i: nat, k: nat)
    requires Held(s, s', i) && k < |s.processes|
    ensures k < |DropRef(s', i).processes| && SameRecord(s.processes[k], DropRef(s', i).processes[k])
  {
  }

  ghost predicate SameRecordsTo(s: State, x: State) {
    |x.processes| == |s.processes| && forall k :: 0 <= k < |s.processes| ==> SameRecord(s.processes[k], x.processes[k])
  }

  lemma CloseRecords(s: State, x: State, i: nat)
    requires SameRecordsTo(s, x) && i < |x.streams|
    ensures SameRecordsTo(s, CloseStream(x, i))
  {
    forall k | 0 <= k < |s.processes|
      ensures |CloseStream(x, i).processes| == |s.processes| && SameRecord(s.processes[k], CloseStream(x, i).processes[k])
    {
      DropRecord(x, x.(streams := x.streams[i := x.streams[i].(listed := false)]), i, k);
    }
  }

  lemma BeginRecords(s: State, c: nat, jobOk: bool)
    requires c < |s.contexts|
    ensures SameRecordsTo(s, DestroyBegun(s, c, jobOk))
  {
    var s1 := s.(contexts := s.contexts[c := s.contexts[c].(poisoned := true)]);
    var s2 := s1.(contexts := s1.contexts[c := s1.contexts[c].(listed := false, phase := AwaitStreams)]);
    var step, inv := Closing(c), (x: State, i: nat) => SameRecordsTo(s, x);
    forall x: State, i: nat | i < |s.streams| && inv(x, i) ensures inv(step(x, i), i + 1) {
      if i < |x.streams| { CloseRecords(s, x, i); }
    }
    ForEachKeeps(s2, |s2.streams|, step, inv);
  }

  lemma StreamyRecord(s: State, a: Step, k: nat)
    requires Enabled(s, a) && (a.Put? || a.Close? || a.DestroyBegin?) && k < |s.processes|
    ensures k < |Apply(s, a).processes| && SameRecord(s.processes[k], Apply(s, a).processes[k])
  {
    if a.Put? {
      DropRecord(s, s.(streams := s.streams[a.i := s.streams[a.i].(holders := s.streams[a.i].holders - 1)]), a.i, k);
    } else if a.Close? {
      DropRecord(s, s.(streams := s.streams[a.i := s.streams[a.i].(listed := false)]), a.i, k);
    } else {
      BeginRecords(s, a.c, a.jobOk);
    }
  }

  lemma OtherRecord(s: State, a: Step, k: nat)
    requires Enabled(s, a) && Plainly(a) && !a.WaitEnd? && !a.DestroyTake? && !a.DestroyDrain? && k < |s.processes|
    ensures k < |Apply(s, a).processes| && RecordMoves(s, Apply(s, a), a, k, s.processes[k], Apply(s, a).processes[k])
  {
  }

  /** What every step but a spawn's sweep does to every record: a wait that ends, or the
      destruction of its context, reaps it and hands its console on; only a wait marks it waited
      for, and only the end of a drain takes it from its context. */
  lemma RecordBecomes(s: State, a: Step, k: nat)
    requires Inv(s) && Enabled(s, a) && !Sweeps(a) && k < |s.processes|
    ensures k < |Apply(s, a).processes| && RecordMoves(s, Apply(s, a), a, k, s.processes[k], Apply(s, a).processes[k])
  {
    if a.WaitEnd? {
      WaitRecord(s, a, k);
    } else if a.DestroyTake? {
      TakeRecord(s, a, k);
    } else if a.DestroyDrain? {
      DrainRecord(s, a, k);
    } else if a.Put? || a.Close? || a.DestroyBegin? {
      StreamyRecord(s, a, k);
    } else {
      OtherRecord(s, a, k);
    }
  }

  // ----- waits

  /** A wait for a process that is not over works on a handle of its own, which is open until it
      ends; one for a process that is over marks it waited for. */
  lemma WaitBegins(s: State, k: nat)
    requires Reachable(s) && Enabled(s, WaitBegin(k))
    ensures var s' := Apply(s, WaitBegin(k));
            if s.processes[k].reaped then s'.waiters == s.waiters && s'.processes[k].waited
            else
              && |s'.waiters| == |s.waiters| + 1 && s'.waiters[..|s.waiters|] == s.waiters && s'.processes == s.processes
              && var w := s'.waiters[|s.waiters|];
                 w.id == s.processes[k].id && w.duplicate.Some? && s.nextHandle <= w.duplicate.value < s'.nextHandle
                 && s'.closed[w.duplicate.value] == 0
  {
    ReachableHolds(s);
    assert ProcessAt(s, k) && ConservedAt(s, s.nextHandle);
  }

  lemma WaitEnds(s: State, a: Step)
    requires Reachable(s) && Enabled(s, a) && (a.WaitEnd? || a.WaitGivesUp?)
    ensures var s' := Apply(s, a);
            && s'.waiters == s.waiters[a.w := s.waiters[a.w].(duplicate := None)]
            && s'.closed[s.waiters[a.w].duplicate.value] == 1
            && (a.WaitGivesUp? ==> s'.processes == s.processes)
  {
    ReachableHolds(s);
    var h := s.waiters[a.w].duplicate.value;
    StepKeeps(s, a);
    AtLeast(s.waiters, OfWaiter, h, a.w);
    assert ConservedAt(s, h) && ConservedAt(Apply(s, a), h);
  }

  // ----- a spawn

  /** A stream just made for context `c`. */
  predicate NewFor(st: Stream, c: nat, process: nat, read: Option<Handle>, write: Option<Handle>) {
    && st.listed && !st.disposed && !st.eof && st.refs == 1 && st.holders == 0
    && st.ctx == c && st.process == process && st.read == read && st.write == write
  }

  /** A record just made for a child of context `c`. */
  predicate NewRecord(s: State, c: nat, p: Process, pty: bool)
    requires c < |s.contexts|
  {
    && p.listed && !p.reaped && !p.waited && !p.cleaning && p.context == s.contexts[c].id && p.id == s.nextId
    && p.process.Some? && p.job.Some? && (p.console.Some? <==> pty) && p.closer.None? && p.output.None? && p.event.None?
  }

  /** What a spawn in `s` has brought: one record, of a process with its job and, if asked for, its
      console, and one stream for each pipe end the host has, but a single one for both ends of a
      console. The host's end is the first handle of each pipe. */
  predicate Brought(s: State, r: State, c: nat, pty: bool, merge: bool)
    requires c < |s.contexts|
  {
    var n, k := s.nextHandle, |s.streams|;
    && |r.processes| == |s.processes| + 1 && NewRecord(s, c, r.processes[|s.processes|], pty)
    && |r.streams| == k + (if pty then 1 else if merge then 2 else 3) && s.streams <= r.streams
    && (pty ==> NewFor(r.streams[k], c, s.nextId, Some(n + 2), Some(n)))
    && (!pty ==> NewFor(r.streams[k], c, 0, None, Some(n)) && NewFor(r.streams[k + 1], c, 0, Some(n + 2), None))
    && (!pty && !merge ==> NewFor(r.streams[k + 2], c, 0, Some(n + 4), None))
  }

  /** One stage more, from the building `b` to the building `b'`. */
  lemma BuiltOne(s: State, c: nat, ss: seq<Stage>, n: nat, b: Building, b': Building)
    requires c < |s.contexts| && n < |ss| && Built(s, c, ss, n) == b && Staged(b, c, ss[n]) == b'
    ensures Built(s, c, ss, n + 1) == b'
  {
  }

  /** Before it makes its streams, a spawn has changed nothing but what it will number next. */
  function Ready(s: State, handles: nat, u: Setup): Building {
    Building(s.(nextHandle := s.nextHandle + handles, nextId := s.nextId + if u.id != 0 then 1 else 0), u)
  }

  function TwoPipes(n: nat): Setup {
    NoSetup.(hostIn := Some(n), childIn := Some(n + 1), hostOut := Some(n + 2), childOut := Some(n + 3))
  }

  lemma PipesReady(s: State, c: nat, ss: seq<Stage>)
    requires c < |s.contexts| && |ss| >= 2 && ss[0] == InPipe && ss[1] == OutPipe
    ensures Built(s, c, ss, 2) == Ready(s, 4, TwoPipes(s.nextHandle))
  {
    var n := s.nextHandle;
    var b := Ready(s, 2, NoSetup.(hostIn := Some(n), childIn := Some(n + 1)));
    BuiltOne(s, c, ss, 0, Building(s, NoSetup), b);
    BuiltOne(s, c, ss, 1, b, Ready(s, 4, TwoPipes(n)));
  }

  /** A job, an id and a process are next. */
  lemma ChildReady(s: State, c: nat, ss: seq<Stage>, k: nat, handles: nat, u: Setup)
    requires c < |s.contexts| && s.nextId > 0 && k + 3 <= |ss| && ss[k] == MakeJob && ss[k + 1] == TakeId && ss[k + 2] == Launch
    requires Built(s, c, ss, k) == Ready(s, handles, u) && u.id == 0
    ensures Built(s, c, ss, k + 3) == Ready(s, handles + 3, WithChild(s, handles, u))
  {
    JobBuilt(s, c, ss, k, handles, u);
    IdBuilt(s, c, ss, k + 1, handles + 1, u.(job := Some(s.nextHandle + handles)));
    LaunchBuilt(s, c, ss, k + 2, handles + 1, u.(job := Some(s.nextHandle + handles), id := s.nextId));
  }

  function WithChild(s: State, handles: nat, u: Setup): Setup {
    var n := s.nextHandle + handles;
    u.(job := Some(n), id := s.nextId, process := Some(n + 1), thread := Some(n + 2))
  }

  lemma JobBuilt(s: State, c: nat, ss: seq<Stage>, k: nat, handles: nat, u: Setup)
    requires c < |s.contexts| && k < |ss| && ss[k] == MakeJob && Built(s, c, ss, k) == Ready(s, handles, u)
    ensures Built(s, c, ss, k + 1) == Ready(s, handles + 1, u.(job := Some(s.nextHandle + handles)))
  {
    BuiltOne(s, c, ss, k, Ready(s, handles, u), Ready(s, handles + 1, u.(job := Some(s.nextHandle + handles))));
  }

  lemma IdBuilt(s: State, c: nat, ss: seq<Stage>, k: nat, handles: nat, u: Setup)
    requires c < |s.contexts| && k < |ss| && ss[k] == TakeId && Built(s, c, ss, k) == Ready(s, handles, u)
    requires s.nextId > 0 && u.id == 0
    ensures Built(s, c, ss, k + 1) == Ready(s, handles, u.(id := s.nextId))
  {
    BuiltOne(s, c, ss, k, Ready(s, handles, u), Ready(s, handles, u.(id := s.nextId)));
  }

  lemma LaunchBuilt(s: State, c: nat, ss: seq<Stage>, k: nat, handles: nat, u: Setup)
    requires c < |s.contexts| && k < |ss| && ss[k] == Launch && Built(s, c, ss, k) == Ready(s, handles, u)
    ensures var n := s.nextHandle + handles;
            Built(s, c, ss, k + 1) == Ready(s, handles + 2, u.(process := Some(n), thread := Some(n + 1)))
  {
    var n := s.nextHandle + handles;
    BuiltOne(s, c, ss, k, Ready(s, handles, u), Ready(s, handles + 2, u.(process := Some(n), thread := Some(n + 1))));
  }

  lemma ConsoleReady(s: State, c: nat, ss: seq<Stage>)
    requires c < |s.contexts| && s.nextId > 0 && ss == Stages(true, false)
    ensures Built(s, c, ss, 6) == Ready(s, 8, WithChild(s, 5, TwoPipes(s.nextHandle).(console := Some(s.nextHandle + 4))))
  {
    var n := s.nextHandle;
    PipesReady(s, c, ss);
    BuiltOne(s, c, ss, 2, Ready(s, 4, TwoPipes(n)), Ready(s, 5, TwoPipes(n).(console := Some(n + 4))));
    ChildReady(s, c, ss, 3, 5, TwoPipes(n).(console := Some(n + 4)));
  }

  lemma ConsoleSpawn(s: State, c: nat, merge: bool)
    requires c < |s.contexts| && s.nextId > 0
    ensures Brought(s, Spawned(s, c, true, merge), c, true, merge)
  {
    var ss, n := Stages(true, merge), s.nextHandle;
    var u := WithChild(s, 5, TwoPipes(n).(console := Some(n + 4)));
    ConsoleReady(s, c, ss);
    BuiltOne(s, c, ss, 6, Ready(s, 8, u), Staged(Ready(s, 8, u), c, InStream));
    ConsoleStream(s, c, merge, u);
  }

  /** The last stage of such a spawn, and its end: one stream for both pipes. */
  lemma ConsoleStream(s: State, c: nat, merge: bool, u: Setup)
    requires c < |s.contexts| && u.console.Some? && u.id == s.nextId > 0 && u.process.Some? && u.job.Some? && u.streams == []
    requires u.hostIn == Some(s.nextHandle) && u.hostOut == Some(s.nextHandle + 2)
    ensures Brought(s, Committed(Staged(Ready(s, 8, u), c, InStream), c), c, true, merge)
  {
    var b := Staged(Ready(s, 8, u), c, InStream);
    assert b.s.streams == s.streams + [b.s.streams[|s.streams|]] && b.u.streams == [|s.streams|];
  }

  lemma MergedReady(s: State, c: nat, ss: seq<Stage>)
    requires c < |s.contexts| && s.nextId > 0 && ss == Stages(false, true)
    ensures Built(s, c, ss, 5) == Ready(s, 7, WithChild(s, 4, TwoPipes(s.nextHandle)))
  {
    PipesReady(s, c, ss);
    ChildReady(s, c, ss, 2, 4, TwoPipes(s.nextHandle));
  }

  lemma MergedSpawn(s: State, c: nat)
    requires c < |s.contexts| && s.nextId > 0
    ensures Brought(s, Spawned(s, c, false, true), c, false, true)
  {
    var ss, u := Stages(false, true), WithChild(s, 4, TwoPipes(s.nextHandle));
    MergedReady(s, c, ss);
    var b0 := Ready(s, 7, u);
    var b1 := Staged(b0, c, InStream);
    BuiltOne(s, c, ss, 5, b0, b1);
    BuiltOne(s, c, ss, 6, b1, Staged(b1, c, OutStream));
    MergedStreams(s, c, u);
  }

  lemma MergedStreams(s: State, c: nat, u: Setup)
    requires c < |s.contexts| && u.console.None? && u.id == s.nextId > 0 && u.process.Some? && u.job.Some?
    requires u.hostIn == Some(s.nextHandle) && u.hostOut == Some(s.nextHandle + 2)
    ensures var b := Staged(Staged(Ready(s, 7, u), c, InStream), c, OutStream);
            Brought(s, Committed(b, c), c, false, true)
  {
    var b0 := Ready(s, 7, u);
    var b1 := Staged(b0, c, InStream);
    InAdds(b0, c);
    var b2 := Staged(b1, c, OutStream);
    OutAdds(b1, c);
    CommitAdds(b2, c);
    MergedBrought(s, c, b0, b1, b2, Committed(b2, c));
  }

  lemma MergedBrought(s: State, c: nat, b0: Building, b1: Building, b2: Building, r: State)
    requires c < |s.contexts| && s.nextId > 0 && Starts(s, b0, c)
    requires Adds(b0, b1, c, None, Some(s.nextHandle)) && Adds(b1, b2, c, Some(s.nextHandle + 2), None) && Commits(b2, r, c)
    ensures Brought(s, r, c, false, true)
  {
    OneMore(s.streams, b1.s.streams, b2.s.streams);
  }

  lemma OneMore<T>(a: seq<T>, b: seq<T>, d: seq<T>)
    requires a <= b <= d && |b| == |a| + 1
    ensures a <= d && d[|a|] == b[|a|]
  {
  }

  function ThreePipes(n: nat): Setup { TwoPipes(n).(hostErr := Some(n + 4), childErr := Some(n + 5)) }

  lemma ErrReady(s: State, c: nat, ss: seq<Stage>)
    requires c < |s.contexts| && ss == Stages(false, false)
    ensures Built(s, c, ss, 3) == Ready(s, 6, ThreePipes(s.nextHandle))
  {
    PipesReady(s, c, ss);
    BuiltOne(s, c, ss, 2, Ready(s, 4, TwoPipes(s.nextHandle)), Ready(s, 6, ThreePipes(s.nextHandle)));
  }

  lemma SplitReady(s: State, c: nat, ss: seq<Stage>)
    requires c < |s.contexts| && s.nextId > 0 && ss == Stages(false, false)
    ensures Built(s, c, ss, 6) == Ready(s, 9, WithChild(s, 6, ThreePipes(s.nextHandle)))
  {
    ErrReady(s, c, ss);
    ChildReady(s, c, ss, 3, 6, ThreePipes(s.nextHandle));
  }

  lemma LastThree(s: State, c: nat, ss: seq<Stage>, b: Building)
    requires c < |s.contexts| && ss == Stages(false, false) && Built(s, c, ss, 6) == b
    ensures c < |b.s.contexts| && Built(s, c, ss, 9) == Staged(Staged(Staged(b, c, InStream), c, OutStream), c, ErrStream)
  {
    var b1 := Staged(b, c, InStream);
    BuiltOne(s, c, ss, 6, b, b1);
    var b2 := Staged(b1, c, OutStream);
    BuiltOne(s, c, ss, 7, b1, b2);
    BuiltOne(s, c, ss, 8, b2, Staged(b2, c, ErrStream));
  }

  lemma SplitSpawn(s: State, c: nat)
    requires c < |s.contexts| && s.nextId > 0
    ensures Brought(s, Spawned(s, c, false, false), c, false, false)
  {
    var ss, u := Stages(false, false), WithChild(s, 6, ThreePipes(s.nextHandle));
    SplitReady(s, c, ss);
    LastThree(s, c, ss, Ready(s, 9, u));
    SplitStreams(s, c, u);
  }

  /** The last three stages of such a spawn, and its end. */
  lemma SplitStreams(s: State, c: nat, u: Setup)
    requires c < |s.contexts| && u.console.None? && u.id == s.nextId > 0 && u.process.Some? && u.job.Some?
    requires u.hostIn == Some(s.nextHandle) && u.hostOut == Some(s.nextHandle + 2) && u.hostErr == Some(s.nextHandle + 4)
    ensures var b := Staged(Staged(Staged(Ready(s, 9, u), c, InStream), c, OutStream), c, ErrStream);
            Brought(s, Committed(b, c), c, false, false)
  {
    var b0 := Ready(s, 9, u);
    var b1 := Staged(b0, c, InStream);
    InAdds(b0, c);
    var b2 := Staged(b1, c, OutStream);
    OutAdds(b1, c);
    var b3 := Staged(b2, c, ErrStream);
    ErrAdds(b2, c);
    CommitAdds(b3, c);
    SplitBrought(s, c, b0, b1, b2, b3, Committed(b3, c));
  }

  lemma SplitBrought(s: State, c: nat, b0: Building, b1: Building, b2: Building, b3: Building, r: State)
    requires c < |s.contexts| && s.nextId > 0 && Starts(s, b0, c)
    requires Adds(b0, b1, c, None, Some(s.nextHandle)) && Adds(b1, b2, c, Some(s.nextHandle + 2), None)
    requires Adds(b2, b3, c, Some(s.nextHandle + 4), None) && Commits(b3, r, c)
    ensures Brought(s, r, c, false, false)
  {
    OneMore(b1.s.streams, b2.s.streams, b3.s.streams);
    OneMore(s.streams, b1.s.streams, b3.s.streams);
  }

  /** The child is made, and no stream yet. */
  predicate Starts(s: State, b: Building, c: nat)
    requires c < |s.contexts|
  {
    && b.s.streams == s.streams && b.s.processes == s.processes && |b.s.contexts| == |s.contexts|
    && b.s.contexts[c].id == s.contexts[c].id
    && b.u.id == s.nextId && b.u.process.Some? && b.u.job.Some?
  }

  /** The stage adds one stream, and leaves the parts of the record and the pipe ends it does not use. */
  predicate Adds(b: Building, b': Building, c: nat, read: Option<Handle>, write: Option<Handle>) {
    && |b'.s.streams| == |b.s.streams| + 1 && b.s.streams <= b'.s.streams
    && NewFor(b'.s.streams[|b.s.streams|], c, 0, read, write)
    && b'.s.processes == b.s.processes && |b'.s.contexts| == |b.s.contexts|
    && (c < |b.s.contexts| ==> b'.s.contexts[c].id == b.s.contexts[c].id)
    && b'.u == b.u.(hostIn := b'.u.hostIn, hostOut := b'.u.hostOut, hostErr := b'.u.hostErr, streams := b'.u.streams)
  }

  /** The end of a spawn makes its record, and no stream. */
  predicate Commits(b: Building, r: State, c: nat) {
    && c < |b.s.contexts| && r.streams == b.s.streams && |r.processes| == |b.s.processes| + 1
    && var p := r.processes[|b.s.processes|];
       && p.listed && !p.reaped && !p.waited && !p.cleaning && p.context == b.s.contexts[c].id && p.id == b.u.id
       && p.process == b.u.process && p.job == b.u.job && p.console.None? && p.closer.None? && p.output.None? && p.event.None?
  }

  lemma InAdds(b: Building, c: nat)
    requires c < |b.s.contexts| && b.u.console.None?
    ensures var b' := Staged(b, c, InStream);
            Adds(b, b', c, None, b.u.hostIn) && b'.u.hostOut == b.u.hostOut && b'.u.hostErr == b.u.hostErr
  {
  }

  lemma OutAdds(b: Building, c: nat)
    requires c < |b.s.contexts|
    ensures var b' := Staged(b, c, OutStream); Adds(b, b', c, b.u.hostOut, None) && b'.u.hostErr == b.u.hostErr
  {
  }

  lemma ErrAdds(b: Building, c: nat)
    requires c < |b.s.contexts|
    ensures Adds(b, Staged(b, c, ErrStream), c, b.u.hostErr, None)
  {
  }

  lemma CommitAdds(b: Building, c: nat)
    requires c < |b.s.contexts| && b.u.console.None?
    ensures Commits(b, Committed(b, c), c)
  {
  }

  lemma SpawnGives(s: State, c: nat, pty: bool, merge: bool)
    requires Reachable(s) && Enabled(s, Spawn(c, pty, merge))
    ensures Brought(s, Apply(s, Spawn(c, pty, merge)), c, pty, merge)
  {
    ReachableHolds(s);
    var r := Reclaim(s);
    if pty { ConsoleSpawn(r, c, merge); } else if merge { MergedSpawn(r, c); } else { SplitSpawn(r, c); }
    AfterSweep(s, r, Spawned(r, c, pty, merge), c, pty, merge);
  }

  lemma AfterSweep(s: State, r: State, x: State, c: nat, pty: bool, merge: bool)
    requires c < |s.contexts| && r.contexts == s.contexts && r.streams == s.streams && |r.processes| == |s.processes|
    requires r.nextHandle == s.nextHandle && r.nextId == s.nextId && Brought(r, x, c, pty, merge)
    ensures Brought(s, x, c, pty, merge)
  {
  }
}
