/** The Windows jail's tables - contexts, streams, processes - as a state machine with
    one step per section of the table lock, over the handles they own. */
module JailModel {
  import opened Basics

  type Handle = nat

  /** A jailed workspace. `live` counts its streams not yet disposed. */
  datatype Context = Context(id: nat, listed: bool, sealed: bool, poisoned: bool, live: int,
                             job: Option<Handle>, phase: Phase)

  /** Where the destruction of a context stands. While it drains a process, without the
      lock, it works on its own copies of three of that process's handles. */
  datatype Phase = Open | AwaitStreams | Cleanup
                 | Draining(p: nat, output: Option<Handle>, event: Option<Handle>, closer: Option<Handle>) | Freed

  /** `holders` is history: how many threads hold a reference for their IO. */
  datatype Stream = Stream(id: nat, ctx: nat, process: nat, listed: bool, refs: int, holders: nat,
                           read: Option<Handle>, write: Option<Handle>, cancel: Option<Handle>,
                           event: Option<Handle>, eof: bool, disposed: bool)

  /** `context` is the id of its context, 0 once detached. */
  datatype Process = Process(id: nat, context: nat, listed: bool, reaped: bool, waited: bool, cleaning: bool,
                             process: Option<Handle>, job: Option<Handle>, console: Option<Handle>,
                             closer: Option<Handle>, output: Option<Handle>, event: Option<Handle>)

  /** A thread in `visjail_wait`, with its own duplicate of the process handle. */
  datatype Waiter = Waiter(id: nat, duplicate: Option<Handle>)

  /** A thread closing a console; once it has, it is done. */
  datatype Closer = Closer(thread: Handle, console: Option<Handle>)

  /** `nextHandle` numbers handles in the order the system gives them out, `closed` counts
      every CloseHandle. */
  datatype State = State(contexts: seq<Context>, streams: seq<Stream>, processes: seq<Process>,
                         waiters: seq<Waiter>, closers: seq<Closer>, nextId: nat, nextHandle: nat,
                         closed: multiset<Handle>)

  function Slot(h: Option<Handle>): multiset<Handle> { if h.Some? then multiset{h.value} else multiset{} }

  predicate Exited(s: State, h: Handle) { HasExited(s.closers, h) }

  predicate HasExited(cs: seq<Closer>, h: Handle) {
    && cs != []
    && var last := cs[|cs| - 1];
       (last.thread == h && last.console.None?) || HasExited(cs[..|cs| - 1], h)
  }

  /** `process_get`: the listed process with this id, or the length of the table. */
  function Lookup(ps: seq<Process>, id: nat): (k: nat)
    ensures k <= |ps|
  {
    LookupFrom(ps, id, 0)
  }

  function LookupFrom(ps: seq<Process>, id: nat, k: nat): (r: nat)
    requires k <= |ps|
    ensures r <= |ps|
    decreases |ps| - k
  {
    if k == |ps| || (ps[k].listed && ps[k].id == id) then k else LookupFrom(ps, id, k + 1)
  }

  lemma {:induction false} LookupFinds(ps: seq<Process>, id: nat, k: nat)
    requires k <= |ps|
    ensures var r := LookupFrom(ps, id, k);
            && (r < |ps| ==> ps[r].listed && ps[r].id == id)
            && forall j :: k <= j < r ==> !(ps[j].listed && ps[j].id == id)
    decreases |ps| - k
  {
    if k < |ps| { LookupFinds(ps, id, k + 1); }
  }

  // ----- streams

  /** Whether a disposed stream leaves its pipe to its process, for the console's sake. */
  predicate LeavesOutput(s: State, st: Stream) {
    && st.process != 0 && !st.eof
    && var k := Lookup(s.processes, st.process);
       k < |s.processes| && (s.processes[k].console.Some?
                             || (s.processes[k].closer.Some? && !Exited(s, s.processes[k].closer.value)))
  }

  /** `stream_dispose`: close what the stream owns, but move its output pipe to a
      process whose console still needs a reader. */
  function Dispose(s: State, i: nat): State
    requires i < |s.streams|
  {
    var st := s.streams[i];
    var moves := LeavesOutput(s, st);
    var read := if moves then None else st.read;
    var event := if moves then None else st.event;
    var write := if st.write == read then None else st.write;
    var k := Lookup(s.processes, st.process);
    s.(streams := s.streams[i := st.(read := None, write := None, cancel := None, event := None, disposed := true)],
       processes := if moves then s.processes[k := s.processes[k].(output := st.read, event := st.event)] else s.processes,
       contexts := if st.ctx < |s.contexts| then s.contexts[st.ctx := s.contexts[st.ctx].(live := s.contexts[st.ctx].live - 1)]
                   else s.contexts,
       closed := s.closed + Slot(read) + Slot(write) + Slot(event) + Slot(st.cancel))
  }

  function DropRef(s: State, i: nat): State
    requires i < |s.streams|
  {
    var s' := s.(streams := s.streams[i := s.streams[i].(refs := s.streams[i].refs - 1)]);
    if s.streams[i].refs - 1 == 0 then Dispose(s', i) else s'
  }

  /** `stream_close_locked` */
  function CloseStream(s: State, i: nat): State
    requires i < |s.streams|
  {
    DropRef(s.(streams := s.streams[i := s.streams[i].(listed := false)]), i)
  }

  /** A loop over the first `n` entries of a table. */
  function ForEach(s: State, n: nat, step: (State, nat) -> State): State
    decreases n
  {
    if n == 0 then s else step(ForEach(s, n - 1, step), n - 1)
  }

  /** Its invariant, by induction. */
  lemma {:induction false} ForEachKeeps(s: State, n: nat, step: (State, nat) -> State, inv: (State, nat) -> bool)
    requires inv(s, 0)
    requires forall x: State, i: nat :: i < n && inv(x, i) ==> inv(step(x, i), i + 1)
    ensures inv(ForEach(s, n, step), n)
    decreases n
  {
    if n > 0 {
      ForEachKeeps(s, n - 1, step, inv);
      var x := ForEach(s, n - 1, step);
      assert inv(x, n - 1);
      assert inv(step(x, n - 1), n - 1 + 1);
    }
  }

  /** Close stream `i` if it is a listed one of context `c`. */
  function Closing(c: nat): (State, nat) -> State {
    (s: State, i: nat) => if i < |s.streams| && s.streams[i].listed && s.streams[i].ctx == c then CloseStream(s, i) else s
  }

  /** Every listed stream of context `c`. */
  function CloseStreamsOf(s: State, c: nat): State { ForEach(s, |s.streams|, Closing(c)) }

  // ----- processes

  predicate Reclaimable(s: State, p: Process) {
    && p.listed && p.reaped && p.waited && !p.cleaning && p.output.None? && p.console.None?
    && (p.closer.None? || Exited(s, p.closer.value))
  }

  /** Drop record `k`, with its closer, if it is completed. */
  function DropIfDone(s: State, k: nat): State {
    if k < |s.processes| && Reclaimable(s, s.processes[k]) then
      var p := s.processes[k];
      s.(processes := s.processes[k := p.(listed := false, process := None, job := None, console := None,
                                          closer := None, output := None, event := None)],
         closed := s.closed + Slot(p.closer))
    else s
  }

  /** The spawn's sweep. */
  function Reclaim(s: State): (r: State)
    ensures |r.processes| == |s.processes| && r.contexts == s.contexts && r.streams == s.streams
    ensures r.closers == s.closers && r.waiters == s.waiters && r.nextHandle == s.nextHandle && r.nextId == s.nextId
  {
    ForEachKeeps(s, |s.processes|, DropIfDone, (x: State, i: nat) =>
      |x.processes| == |s.processes| && x.contexts == s.contexts && x.streams == s.streams
      && x.closers == s.closers && x.waiters == s.waiters && x.nextHandle == s.nextHandle && x.nextId == s.nextId);
    ForEach(s, |s.processes|, DropIfDone)
  }

  /** A new stream over `read` and `write`, with its own cancel event and peek event. */
  function NewStream(s: State, c: nat, read: Option<Handle>, write: Option<Handle>): State
    requires c < |s.contexts|
  {
    s.(streams := s.streams + [Stream(s.nextId, c, 0, true, 1, 0, read, write, Some(s.nextHandle),
                                      Some(s.nextHandle + 1), false, false)],
       contexts := s.contexts[c := s.contexts[c].(live := s.contexts[c].live + 1)],
       nextId := s.nextId + 1, nextHandle := s.nextHandle + 2)
  }

  // ----- a spawn

  /** What a spawn holds while it makes a process: its own and the child's pipe ends, the
      parts and the id of the process, and which streams it has made. */
  datatype Setup = Setup(hostIn: Option<Handle>, hostOut: Option<Handle>, hostErr: Option<Handle>,
                         childIn: Option<Handle>, childOut: Option<Handle>, childErr: Option<Handle>,
                         console: Option<Handle>, job: Option<Handle>, process: Option<Handle>, thread: Option<Handle>,
                         id: nat, streams: seq<nat>)

  const NoSetup := Setup(None, None, None, None, None, None, None, None, None, None, 0, [])

  datatype Stage = InPipe | OutPipe | ErrPipe | MakeConsole | MakeJob | TakeId | Launch | InStream | OutStream | ErrStream

  /** The stages of a spawn, in order: with a console, with one pipe for both outputs, or with two. */
  function Stages(pty: bool, merge: bool): seq<Stage> {
    if pty then [InPipe, OutPipe, MakeConsole, MakeJob, TakeId, Launch, InStream]
    else if merge then [InPipe, OutPipe, MakeJob, TakeId, Launch, InStream, OutStream]
    else [InPipe, OutPipe, ErrPipe, MakeJob, TakeId, Launch, InStream, OutStream, ErrStream]
  }

  datatype Building = Building(s: State, u: Setup)

  function Opened(s: State, n: nat): State { s.(nextHandle := s.nextHandle + n) }

  /** One stage. A stream takes over the pipe ends it is made of; with a console the input's
      stream reads its output too. */
  function Staged(b: Building, c: nat, stage: Stage): Building
    requires c < |b.s.contexts|
  {
    var s, u, n := b.s, b.u, b.s.nextHandle;
    match stage
    case InPipe => Building(Opened(s, 2), u.(hostIn := Some(n), childIn := Some(n + 1)))
    case OutPipe => Building(Opened(s, 2), u.(hostOut := Some(n), childOut := Some(n + 1)))
    case ErrPipe => Building(Opened(s, 2), u.(hostErr := Some(n), childErr := Some(n + 1)))
    case MakeConsole => Building(Opened(s, 1), u.(console := Some(n)))
    case MakeJob => Building(Opened(s, 1), u.(job := Some(n)))
    case TakeId => Building(s.(nextId := s.nextId + 1), u.(id := s.nextId))
    case Launch => Building(Opened(s, 2), u.(process := Some(n), thread := Some(n + 1)))
    case InStream =>
      var out := if u.console.Some? then u.hostOut else None;
      Building(NewStream(s, c, out, u.hostIn),
               u.(hostIn := None, hostOut := if u.console.Some? then None else u.hostOut, streams := u.streams + [|s.streams|]))
    case OutStream => Building(NewStream(s, c, u.hostOut, None), u.(hostOut := None, streams := u.streams + [|s.streams|]))
    case ErrStream => Building(NewStream(s, c, u.hostErr, None), u.(hostErr := None, streams := u.streams + [|s.streams|]))
  }

  /** A spawn after the first `n` stages. */
  function Built(s: State, c: nat, stages: seq<Stage>, n: nat): (b: Building)
    requires c < |s.contexts| && n <= |stages|
    ensures |b.s.contexts| == |s.contexts|
  {
    if n == 0 then Building(s, NoSetup) else Staged(Built(s, c, stages, n - 1), c, stages[n - 1])
  }

  /** What a spawn closes at its end, well or badly. */
  function Ends(u: Setup): multiset<Handle> {
    Parts(u) + (Slot(u.hostIn) + Slot(u.hostOut) + Slot(u.hostErr)) + (Slot(u.childIn) + Slot(u.childOut) + Slot(u.childErr))
  }

  function Parts(u: Setup): multiset<Handle> { Slot(u.thread) + Slot(u.process) + Slot(u.job) + Slot(u.console) }

  /** The new record takes over its parts; what is left is closed. */
  function Committed(b: Building, c: nat): State
    requires c < |b.s.contexts|
  {
    var s, u := b.s, b.u;
    var p := Process(u.id, s.contexts[c].id, true, false, false, false, u.process, u.job, u.console, None, None, None);
    var streams := if u.console.Some? && u.streams != [] && u.streams[0] < |s.streams|
                   then s.streams[u.streams[0] := s.streams[u.streams[0]].(process := u.id)] else s.streams;
    s.(processes := s.processes + [p], streams := streams,
       closed := s.closed + Ends(u.(process := None, job := None, console := None)))
  }

  function Spawned(s: State, c: nat, pty: bool, merge: bool): State
    requires c < |s.contexts|
  {
    Committed(Built(s, c, Stages(pty, merge), |Stages(pty, merge)|), c)
  }

  /** `stream_close_locked` for each of the first `n` streams of `made`, the newest first. */
  function CloseEach(s: State, made: seq<nat>, n: nat): State
    requires n <= |made|
    decreases n
  {
    if n == 0 then s
    else CloseEach(if made[n - 1] < |s.streams| then CloseStream(s, made[n - 1]) else s, made, n - 1)
  }

  /** A spawn whose next stage fails, after that stage has opened and closed `handles` and
      used up `ids` on its own: close the streams made, then all that is still held. */
  function SpawnFailed(s: State, c: nat, stages: seq<Stage>, n: nat, ids: nat, handles: nat): State
    requires c < |s.contexts| && n <= |stages|
  {
    var b := Built(s, c, stages, n);
    var x := CloseEach(GaveUp(b.s, ids, handles), b.u.streams, |b.u.streams|);
    x.(closed := x.closed + Ends(b.u))
  }

  /** A stage that fails has closed what it opened. */
  function GaveUp(s: State, ids: nat, handles: nat): State {
    s.(nextId := s.nextId + ids, nextHandle := s.nextHandle + handles, closed := s.closed + Range(s.nextHandle, handles))
  }

  function Range(from: nat, n: nat): multiset<Handle> {
    if n == 0 then multiset{} else Range(from, n - 1) + multiset{from + n - 1}
  }

  /** Whether `visjail_wait` may start closing the console: its context is still open. */
  predicate ContextOpen(s: State, id: nat) {
    exists c :: 0 <= c < |s.contexts| && s.contexts[c].listed && s.contexts[c].id == id && !s.contexts[c].poisoned
  }

  /** The console moves to a thread that closes it; the thread's handle is the closer. */
  function StartCloser(s: State, k: nat): State
    requires k < |s.processes|
  {
    var p := s.processes[k];
    s.(processes := s.processes[k := p.(console := None, closer := Some(s.nextHandle))],
       closers := s.closers + [Closer(s.nextHandle, p.console)], nextHandle := s.nextHandle + 1)
  }

  /** Mark a process over and close its own two handles. */
  function Reap(s: State, k: nat): State
    requires k < |s.processes|
  {
    var p := s.processes[k];
    s.(processes := s.processes[k := p.(reaped := true, process := None, job := None)],
       closed := s.closed + Slot(p.process) + Slot(p.job))
  }

  /** Reap a process and, if `close`, hand its console to a closer thread. */
  function Finished(s: State, k: nat, jobOk: bool, close: bool): State
    requires k < |s.processes|
  {
    if s.processes[k].reaped || !jobOk then s
    else
      var r := Reap(s, k);
      if r.processes[k].console.Some? && close then StartCloser(r, k) else r
  }

  /** The end of a wait: the child is over. `jobOk` says whether its job could be
      finished, `threadOk` whether a closer thread could be made. */
  function WaitEnded(s: State, w: nat, jobOk: bool, threadOk: bool): State
    requires w < |s.waiters|
  {
    var s1 := s.(waiters := s.waiters[w := s.waiters[w].(duplicate := None)], closed := s.closed + Slot(s.waiters[w].duplicate));
    var k := Lookup(s.processes, s.waiters[w].id);
    if k == |s.processes| then s1
    else
      var s2 := Finished(s1, k, jobOk, ContextOpen(s, s.processes[k].context) && threadOk);
      s2.(processes := s2.processes[k := s2.processes[k].(waited := true)])
  }

  // ----- destroying a context

  function Retry(s: State, c: nat): State
    requires c < |s.contexts|
  {
    s.(contexts := s.contexts[c := s.contexts[c].(listed := true, phase := Open)])
  }

  function DestroyBegun(s: State, c: nat, jobOk: bool): State
    requires c < |s.contexts|
  {
    var s1 := s.(contexts := s.contexts[c := s.contexts[c].(poisoned := true)]);
    if s.contexts[c].job.Some? && !jobOk then s1
    else
      CloseStreamsOf(s1.(contexts := s1.contexts[c := s1.contexts[c].(listed := false, phase := AwaitStreams)]), c)
  }

  /** Take the next process of the context: reap it, hand its console to a closer, and
      go and drain its output without the lock. */
  function DestroyTakes(s: State, c: nat, k: nat, threadOk: bool): State
    requires c < |s.contexts| && k < |s.processes|
  {
    var r := Reap(s, k);
    if r.processes[k].console.Some? && !threadOk then Retry(r, c)
    else
      var r' := if r.processes[k].console.Some? then StartCloser(r, k) else r;
      var p := r'.processes[k];
      r'.(processes := r'.processes[k := p.(cleaning := true)],
          contexts := r'.contexts[c := r'.contexts[c].(phase := Draining(k, p.output, p.event, p.closer))])
  }

  /** Back under the lock: on success close what the drain used and detach the record. */
  function DestroyDrained(s: State, c: nat, d: Phase, ok: bool): State
    requires c < |s.contexts| && d.Draining? && d.p < |s.processes|
  {
    var p := s.processes[d.p];
    if !ok then Retry(s.(processes := s.processes[d.p := p.(cleaning := false)]), c)
    else
      s.(processes := s.processes[d.p := p.(cleaning := false, output := None, event := None, closer := None, context := 0)],
         contexts := s.contexts[c := s.contexts[c].(phase := Cleanup)],
         closed := s.closed + Slot(d.output) + Slot(d.event) + Slot(d.closer))
  }

  function DestroyEnded(s: State, c: nat, desktopOk: bool, profileOk: bool): State
    requires c < |s.contexts|
  {
    if !desktopOk then Retry(s, c)
    else
      var s1 := s.(contexts := s.contexts[c := s.contexts[c].(job := None)], closed := s.closed + Slot(s.contexts[c].job));
      if !profileOk then Retry(s1, c)
      else s1.(contexts := s1.contexts[c := s1.contexts[c].(phase := Phase.Freed)])
  }

  // ----- steps

  datatype Step =
    | Create                                        // a new context with its job
    | Seal(c: nat, ok: bool)                        // a failed seal or stage poisons the context
    | Spawn(c: nat, pty: bool, merge: bool)
    | SpawnFails(c: nat, pty: bool, merge: bool, stage: nat, ids: nat, handles: nat)   // the first `stage` stages were passed
    | Get(i: nat)                                   // an IO takes a reference
    | Put(i: nat)                                   // ... and releases it
    | Eof(i: nat)                                   // an IO sees the end of the stream
    | Close(i: nat)
    | WaitBegin(k: nat)
    | WaitGivesUp(w: nat)                           // not over yet, or the wait failed
    | WaitEnd(w: nat, jobOk: bool, threadOk: bool)
    | CloserDone(k: nat)                            // a closer thread has closed its console
    | DestroyBegin(c: nat, jobOk: bool)
    | DestroyInterrupted(c: nat)                    // the wait for its streams failed
    | DestroyTake(c: nat, k: nat, threadOk: bool)
    | DestroyDrain(c: nat, ok: bool)
    | DestroyEnd(c: nat, desktopOk: bool, profileOk: bool)

  /** What `drain_console` and the wait for the closer need to succeed. */
  predicate Drained(s: State, d: Phase)
    requires d.Draining?
  {
    && (d.output.Some? ==> d.event.Some? && d.closer.Some?)
    && (d.closer.Some? ==> Exited(s, d.closer.value))
  }

  predicate Enabled(s: State, a: Step) {
    match a
    case Create => true
    case Seal(c, ok) => c < |s.contexts| && s.contexts[c].listed && !s.contexts[c].poisoned && (s.contexts[c].sealed ==> ok)
    case Spawn(c, _, _) => c < |s.contexts| && s.contexts[c].listed && s.contexts[c].sealed && !s.contexts[c].poisoned
    case SpawnFails(c, pty, merge, stage, _, _) =>
      && c < |s.contexts| && s.contexts[c].listed && s.contexts[c].sealed && !s.contexts[c].poisoned
      && stage <= |Stages(pty, merge)|
    case Get(i) => i < |s.streams| && s.streams[i].listed
    case Put(i) => i < |s.streams| && s.streams[i].holders > 0
    case Eof(i) => i < |s.streams| && s.streams[i].holders > 0
    case Close(i) => i < |s.streams| && s.streams[i].listed
    case WaitBegin(k) => k < |s.processes| && s.processes[k].listed
    case WaitGivesUp(w) => w < |s.waiters| && s.waiters[w].duplicate.Some?
    case WaitEnd(w, _, _) => w < |s.waiters| && s.waiters[w].duplicate.Some?
    case CloserDone(k) => k < |s.closers| && s.closers[k].console.Some?
    case DestroyBegin(c, _) => c < |s.contexts| && s.contexts[c].listed
    case DestroyInterrupted(c) => c < |s.contexts| && s.contexts[c].phase.AwaitStreams? && s.contexts[c].live != 0
    case DestroyTake(c, k, _) =>
      && c < |s.contexts| && k < |s.processes|
      && (s.contexts[c].phase.AwaitStreams? || s.contexts[c].phase.Cleanup?) && s.contexts[c].live == 0
      && s.processes[k].listed && s.processes[k].context == s.contexts[c].id
    case DestroyDrain(c, ok) =>
      && c < |s.contexts| && s.contexts[c].phase.Draining? && s.contexts[c].phase.p < |s.processes|
      && (ok ==> Drained(s, s.contexts[c].phase))
    case DestroyEnd(c, _, _) =>
      && c < |s.contexts|
      && (s.contexts[c].phase.AwaitStreams? || s.contexts[c].phase.Cleanup?) && s.contexts[c].live == 0
      && forall k :: 0 <= k < |s.processes| ==> !(s.processes[k].listed && s.processes[k].context == s.contexts[c].id)
  }

  function Apply(s: State, a: Step): State
    requires Enabled(s, a)
  {
    match a
    case Create =>
      s.(contexts := s.contexts + [Context(s.nextId, true, false, false, 0, Some(s.nextHandle), Open)],
         nextId := s.nextId + 1, nextHandle := s.nextHandle + 1)
    case Seal(c, ok) =>
      s.(contexts := s.contexts[c := if ok then s.contexts[c].(sealed := true) else s.contexts[c].(poisoned := true)])
    case Spawn(c, pty, merge) => Spawned(Reclaim(s), c, pty, merge)
    case SpawnFails(c, pty, merge, stage, ids, handles) => SpawnFailed(Reclaim(s), c, Stages(pty, merge), stage, ids, handles)
    case Get(i) => s.(streams := s.streams[i := s.streams[i].(refs := s.streams[i].refs + 1, holders := s.streams[i].holders + 1)])
    case Put(i) => DropRef(s.(streams := s.streams[i := s.streams[i].(holders := s.streams[i].holders - 1)]), i)
    case Eof(i) => s.(streams := s.streams[i := s.streams[i].(eof := true)])
    case Close(i) => CloseStream(s, i)
    case WaitBegin(k) =>
      if s.processes[k].reaped then s.(processes := s.processes[k := s.processes[k].(waited := true)])
      else if s.processes[k].process.None? then s
      else s.(waiters := s.waiters + [Waiter(s.processes[k].id, Some(s.nextHandle))], nextHandle := s.nextHandle + 1)
    case WaitGivesUp(w) =>
      s.(waiters := s.waiters[w := s.waiters[w].(duplicate := None)], closed := s.closed + Slot(s.waiters[w].duplicate))
    case WaitEnd(w, jobOk, threadOk) => WaitEnded(s, w, jobOk, threadOk)
    case CloserDone(k) =>
      s.(closers := s.closers[k := s.closers[k].(console := None)], closed := s.closed + Slot(s.closers[k].console))
    case DestroyBegin(c, jobOk) => DestroyBegun(s, c, jobOk)
    case DestroyInterrupted(c) => Retry(s, c)
    case DestroyTake(c, k, threadOk) => DestroyTakes(s, c, k, threadOk)
    case DestroyDrain(c, ok) => DestroyDrained(s, c, s.contexts[c].phase, ok)
    case DestroyEnd(c, desktopOk, profileOk) => DestroyEnded(s, c, desktopOk, profileOk)
  }

  const Empty := State([], [], [], [], [], 1, 0, multiset{})

  ghost predicate CanRun(s: State, steps: seq<Step>)
    decreases |steps|
  {
    steps != [] ==> Enabled(s, steps[0]) && CanRun(Apply(s, steps[0]), steps[1..])
  }

  ghost function Run(s: State, steps: seq<Step>): State
    requires CanRun(s, steps)
    decreases |steps|
  {
    if steps == [] then s else Run(Apply(s, steps[0]), steps[1..])
  }

  ghost predicate Reachable(s: State) {
    exists steps :: CanRun(Empty, steps) && Run(Empty, steps) == s
  }
}
