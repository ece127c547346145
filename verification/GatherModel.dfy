/** The gather pool as a state machine: any number of host threads and up to 64 pool
    workers, one interpreter lock (the GIL), one pool lock, one task queue. A step is
    one critical section, one hand-over of a lock, or one move of guest code. */
module GatherModel {
  import opened Basics
  import opened RunStacks
  import opened GatherAnswers

  const WORKERS_MAX: nat := 64
  const SCAN_ENTRIES: nat := 10000

  /** Task `i` of gather `b`. */
  datatype TaskRef = TaskRef(b: nat, i: nat)

  /** `claimer` and `starts` are history: who took the task, how often it was called. */
  datatype Task = Task(claimer: Option<nat>, runner: Option<nat>, starts: nat,
                       finished: bool, result: Option<Outcome>)

  const NewTask := Task(None, None, 0, false, None)

  /** Where the `par` call that owns a gather stands. */
  datatype Phase =
    | Link | Submit | Check | Wait | Woken(timedOut: bool) | Return(claimed: bool) | CallerRun
    | Settle | Drain | DrainWait(since: nat) | DrainWoken | Drained
    | Unlink | Answering(interrupted: bool) | Returned(answer: Answer)

  /** One `par` call: its batch and the call's own variables. `home` is where its
      frame lies on its owner's stack, `at` the loop counter. */
  datatype Gather = Gather(owner: nat, home: nat, session: string, budget: Option<nat>, quota: nat,
                           tasks: seq<Task>, phase: Phase, at: nat, submitted: nat, saturated: bool,
                           done: int, outstanding: int, stopped: bool, interrupted: bool)

  /** `previous` is the scan budget to restore; `brought` is history: the budget a block
      entered with, where it had to bring its own. */
  datatype Frame =
    | Entry(session: string, block: bool, previous: Option<nat>, brought: Option<nat>)
    | InPar(b: nat)
    | InTask(b: nat, i: nat, previous: Option<nat>)

  /** What a thread is doing. Host is outside the interpreter: before any entry, in a
      host call, or preempted. Guest runs Python and holds the GIL. */
  datatype Pc =
    | Host | Guest | Par(b: nat)
    | TaskStart | TaskEnd(outcome: Option<Outcome>)
    | Seek | Idle | IdleWoken | Claimed(b: nat, i: nat)
    | WantMark(target: nat) | Mark(target: nat) | Raise(target: nat, named: seq<nat>)

  datatype Thread = Thread(frames: seq<Frame>, pc: Pc, scan: Option<nat>, runs: Runs)

  /** `handed` is history: the non-exempt entries scans were given from this budget. */
  datatype Budget = Budget(remaining: nat, references: int, handed: nat)

  datatype State = State(threads: seq<Thread>, firstWorker: nat, made: nat, gathers: seq<Gather>,
                         queue: seq<TaskRef>, linked: seq<nat>, gil: Option<nat>, lock: Option<nat>,
                         idle: int, epoch: nat, budgets: seq<Budget>)

  // ----- reading a state

  predicate Worker(s: State, t: nat) { s.firstWorker <= t < s.firstWorker + s.made }

  predicate GuestFrame(f: Frame) { f.Entry? || f.InTask? }

  function Top(th: Thread): Frame
    requires th.frames != []
  {
    th.frames[|th.frames| - 1]
  }

  predicate PhaseHoldsGil(p: Phase) {
    p.Link? || p.Submit? || p.Settle? || p.Unlink? || p.Answering?
  }

  predicate PhaseNeedsLock(p: Phase) {
    p.Link? || p.Submit? || p.Check? || p.Woken? || p.Settle? || p.Drain? || p.DrainWoken? || p.Unlink?
  }

  predicate PhaseWantsGil(p: Phase) { p.Return? || p.Drained? }

  predicate HoldsGil(s: State, t: nat)
    requires t < |s.threads|
  {
    match s.threads[t].pc
    case Guest => true
    case Par(b) => b < |s.gathers| && PhaseHoldsGil(s.gathers[b].phase)
    case TaskStart => true
    case TaskEnd(_) => true
    case Mark(_) => true
    case Raise(_, _) => true
    case _ => false
  }

  /** The thread stands before a critical section of the pool lock. */
  predicate NeedsLock(s: State, t: nat)
    requires t < |s.threads|
  {
    match s.threads[t].pc
    case Par(b) => b < |s.gathers| && PhaseNeedsLock(s.gathers[b].phase)
    case TaskStart => true
    case TaskEnd(_) => true
    case Seek => true
    case IdleWoken => true
    case Mark(_) => true
    case _ => false
  }

  predicate WantsGil(s: State, t: nat)
    requires t < |s.threads|
  {
    match s.threads[t].pc
    case Host => s.threads[t].frames != [] && GuestFrame(Top(s.threads[t]))
    case Par(b) =>
      && b < |s.gathers|
      && PhaseWantsGil(s.gathers[b].phase)
      && (s.gathers[b].phase.Return? && s.gathers[b].phase.claimed ==> s.gathers[b].at < |s.gathers[b].tasks|)
    case Claimed(_, _) => true
    case WantMark(_) => true
    case _ => false
  }

  // ----- what the critical sections do to one gather

  function Loop(g: Gather): Phase
  {
    if g.at + 1 < |g.tasks| then Submit else Settle
  }

  /** The next turn of the loop over the thunks. */
  function NextTurn(g: Gather): Gather { g.(at := g.at + 1, phase := Loop(g)) }

  /** Where the submission loop stops: every task, or `quota` tasks in flight. */
  function SubmitTo(g: Gather): nat {
    var room := if g.done + g.quota < |g.tasks| then g.done + g.quota else |g.tasks|;
    if g.submitted < room then room else g.submitted
  }

  function SubmitMore(g: Gather): Gather {
    g.(submitted := SubmitTo(g), outstanding := g.outstanding + SubmitTo(g) - g.submitted, phase := Check)
  }

  function Claim(g: Gather, i: nat, t: nat): Gather
    requires i < |g.tasks|
  {
    g.(tasks := g.tasks[i := g.tasks[i].(claimer := Some(t))])
  }

  function Start(g: Gather, i: nat, t: nat): Gather
    requires i < |g.tasks|
  {
    g.(tasks := g.tasks[i := g.tasks[i].(runner := Some(t), starts := g.tasks[i].starts + 1)])
  }

  function Finish(g: Gather, i: nat, outcome: Option<Outcome>): Gather
    requires i < |g.tasks|
  {
    g.(tasks := g.tasks[i := g.tasks[i].(runner := None, finished := true, result := outcome)],
       stopped := g.stopped || outcome.None? || outcome.value.Stopping?,
       done := g.done + 1, outstanding := g.outstanding - 1)
  }

  /** A submitted task nobody took: what the queue holds. */
  predicate Waiting(g: Gather, i: nat) {
    i < g.submitted && i < |g.tasks| && !g.tasks[i].finished && g.tasks[i].claimer.None?
  }

  function CountWaiting(g: Gather, n: nat): nat {
    if n == 0 then 0 else CountWaiting(g, n - 1) + (if Waiting(g, n - 1) then 1 else 0)
  }

  /** A stopped batch takes back what it left queued. */
  function TakeBack(g: Gather): Gather {
    g.(tasks := seq(|g.tasks|, i requires 0 <= i < |g.tasks| =>
                    if Waiting(g, i) then g.tasks[i].(finished := true) else g.tasks[i]),
       done := g.done + CountWaiting(g, |g.tasks|),
       outstanding := g.outstanding - CountWaiting(g, |g.tasks|))
  }

  function MarkStopped(g: Gather): Gather { g.(stopped := true, interrupted := true) }

  function Results(g: Gather): (rs: seq<Option<Outcome>>)
    ensures |rs| == |g.tasks|
    ensures forall i :: 0 <= i < |rs| ==> rs[i] == g.tasks[i].result
  {
    seq(|g.tasks|, i requires 0 <= i < |g.tasks| => g.tasks[i].result)
  }

  // ----- the queue and the list of batches

  function Refs(b: nat, from: nat, to: nat): (r: seq<TaskRef>)
    requires from <= to
    ensures |r| == to - from
    ensures forall k :: 0 <= k < |r| ==> r[k] == TaskRef(b, from + k)
  {
    seq(to - from, k requires 0 <= k < to - from => TaskRef(b, from + k))
  }

  /** The queue without the tasks of gather `b`, order kept. */
  function WithoutGather(q: seq<TaskRef>, b: nat): (r: seq<TaskRef>)
    ensures forall x :: x in r <==> x in q && x.b != b
  {
    if q == [] then []
    else
      assert q == [q[0]] + q[1..];
      if q[0].b == b then WithoutGather(q[1..], b) else [q[0]] + WithoutGather(q[1..], b)
  }

  /** The threads other than `target` that run a task of one batch, in task order. */
  function TaskRunners(tasks: seq<Task>, target: nat): seq<nat> {
    if tasks == [] then []
    else (if tasks[0].runner.Some? && tasks[0].runner.value != target then [tasks[0].runner.value] else [])
         + TaskRunners(tasks[1..], target)
  }

  /** What the loop over the listed batches names, were its array unbounded. */
  function Runners(s: State, linked: seq<nat>, target: nat): seq<nat> {
    if linked == [] then []
    else (if linked[0] < |s.gathers| && s.gathers[linked[0]].owner == target
          then TaskRunners(s.gathers[linked[0]].tasks, target) else [])
         + Runners(s, linked[1..], target)
  }

  /** The names an array has room for; the rest are dropped. */
  function Truncated(names: seq<nat>, room: nat): seq<nat> {
    if |names| <= room then names else names[..room]
  }

  // ----- scan budgets

  function Retain(budgets: seq<Budget>, h: Option<nat>): seq<Budget> {
    if h.Some? && h.value < |budgets|
    then budgets[h.value := budgets[h.value].(references := budgets[h.value].references + 1)]
    else budgets
  }

  function Release(budgets: seq<Budget>, h: Option<nat>): seq<Budget> {
    if h.Some? && h.value < |budgets|
    then budgets[h.value := budgets[h.value].(references := budgets[h.value].references - 1)]
    else budgets
  }

  // ----- updating a state

  function SetThread(s: State, t: nat, th: Thread): State
    requires t < |s.threads|
  {
    s.(threads := s.threads[t := th])
  }

  function SetPc(s: State, t: nat, pc: Pc): State
    requires t < |s.threads|
  {
    SetThread(s, t, s.threads[t].(pc := pc))
  }

  function SetGather(s: State, b: nat, g: Gather): State
    requires b < |s.gathers|
  {
    s.(gathers := s.gathers[b := g])
  }

  function PopFrame(th: Thread): Thread
    requires th.frames != []
  {
    th.(frames := th.frames[..|th.frames| - 1])
  }

  // ----- steps

  datatype Step =
    | Acquire(t: nat)                             // take the pool lock
    | Critical(t: nat)                            // its critical section, giving the lock back
    | TakeGil(t: nat)                             // take the GIL and go on
    | Wake(t: nat, timedOut: bool)                // a condition wait ends, for whatever reason
    | Enter(t: nat, session: string, block: bool) // the host runs code on this thread
    | DropGil(t: nat)                             // guest code gives the GIL up for a while
    | Leave(t: nat)                               // the code the host ran is over
    | FinishThunk(t: nat, outcome: Outcome)       // a thunk ends
    | CallPar(t: nat, count: nat, quota: int)     // guest code calls `par` on a host thread
    | AnswerPar(t: nat)                           // `par` frees its batch and answers
    | StartPool(t: nat, made: nat)                // the first `par` starts the workers
    | Scan(t: nat, exempt: bool)                  // guest code asks a directory scan for an entry
    | Interrupt(t: nat, target: nat)              // the host interrupts thread `target`
    | FinishInterrupt(t: nat)                     // ... and has raised in every thread it named

  predicate InGuest(s: State, t: nat) {
    t < |s.threads| && s.threads[t].pc.Guest? && s.threads[t].frames != []
  }

  predicate AtPar(s: State, t: nat) {
    t < |s.threads| && s.threads[t].pc.Par? && s.threads[t].pc.b < |s.gathers|
  }

  predicate InTaskFrame(s: State, t: nat) {
    && t < |s.threads| && s.threads[t].frames != [] && Top(s.threads[t]).InTask?
    && Top(s.threads[t]).b < |s.gathers|
    && Top(s.threads[t]).i < |s.gathers[Top(s.threads[t]).b].tasks|
  }

  predicate Enabled(s: State, a: Step) {
    match a
    case Acquire(t) => t < |s.threads| && s.lock.None? && NeedsLock(s, t)
    case Critical(t) =>
      && t < |s.threads| && s.lock == Some(t) && NeedsLock(s, t)
      && (s.threads[t].pc.TaskStart? || s.threads[t].pc.TaskEnd? ==> InTaskFrame(s, t) && s.threads[t].runs.Valid())
      && (s.threads[t].pc.Seek? || s.threads[t].pc.IdleWoken? ==>
            s.queue != [] ==> s.queue[0].b < |s.gathers| && s.queue[0].i < |s.gathers[s.queue[0].b].tasks|)
      && (s.threads[t].pc.Par? ==>
            var g := s.gathers[s.threads[t].pc.b]; g.phase.Check? || g.phase.Woken? ==> g.at < |g.tasks|)
    case TakeGil(t) => t < |s.threads| && s.gil.None? && WantsGil(s, t)
    case Wake(t, _) =>
      && t < |s.threads|
      && (s.threads[t].pc.Idle?
          || (AtPar(s, t) && (s.gathers[s.threads[t].pc.b].phase.Wait? || s.gathers[s.threads[t].pc.b].phase.DrainWait?)))
    case Enter(t, _, _) =>
      && t < |s.threads| && s.gil.None? && s.threads[t].pc.Host? && s.threads[t].runs.Valid()
      && (s.threads[t].frames == [] || GuestFrame(Top(s.threads[t])))
    case DropGil(t) => InGuest(s, t)
    case Leave(t) => InGuest(s, t) && Top(s.threads[t]).Entry?
    case FinishThunk(t, _) => InGuest(s, t) && Top(s.threads[t]).InTask?
    case CallPar(t, count, quota) =>
      InGuest(s, t) && !Worker(s, t) && s.made > 0 && count >= 2 && s.threads[t].runs.Valid()
    case AnswerPar(t) => AtPar(s, t) && s.gathers[s.threads[t].pc.b].phase.Answering? && s.threads[t].frames != []
    case StartPool(t, made) =>
      InGuest(s, t) && s.made == 0 && s.firstWorker == |s.threads| && 0 < made <= WORKERS_MAX
    case Scan(t, _) => InGuest(s, t)
    case Interrupt(t, target) =>
      && t < |s.threads| && s.threads[t].pc.Host? && target != t
      && (Worker(s, t) ==> s.threads[t].frames != [])
    case FinishInterrupt(t) => t < |s.threads| && s.threads[t].pc.Raise?
  }

  function Apply(s: State, a: Step): State
    requires Enabled(s, a)
  {
    match a
    case Acquire(t) => s.(lock := Some(t))
    case Critical(t) => Section(s, t).(lock := None)
    case TakeGil(t) => GilTaken(s, t)
    case Wake(t, timedOut) => Awake(s, t, timedOut)
    case Enter(t, session, block) => Entered(s, t, session, block)
    case DropGil(t) => SetPc(s, t, Host).(gil := None)
    case Leave(t) => Left(s, t)
    case FinishThunk(t, outcome) => ThunkFinished(s, t, outcome)
    case CallPar(t, count, quota) => ParCalled(s, t, count, quota)
    case AnswerPar(t) => ParAnswered(s, t)
    case StartPool(t, made) => PoolStarted(s, made)
    case Scan(t, exempt) => Scanned(s, t, exempt)
    case Interrupt(t, target) => SetPc(s, t, WantMark(target))
    case FinishInterrupt(t) => SetPc(s, t, Host).(gil := None)
  }

  /** The critical section thread `t` stands before. */
  function Section(s: State, t: nat): State
    requires t < |s.threads| && Enabled(s, Critical(t))
  {
    var pc := s.threads[t].pc;
    if pc.Par? then ParSection(s, t, pc.b)
    else if pc.TaskStart? then StartSection(s, t)
    else if pc.TaskEnd? then EndSection(s, t, pc.outcome)
    else if pc.Mark? then MarkSection(s, t, pc.target)
    else SeekSection(s, t)
  }

  function ParSection(s: State, t: nat, b: nat): State
    requires t < |s.threads| && Enabled(s, Critical(t)) && s.threads[t].pc == Par(b)
  {
    var g := s.gathers[b];
    match g.phase
    case Link => SetGather(s, b, g.(phase := Submit)).(linked := [b] + s.linked)
    case Submit =>
      if g.stopped then SetGather(s, b, g.(phase := Settle))
      else SetGather(s, b, SubmitMore(g)).(queue := s.queue + Refs(b, g.submitted, SubmitTo(g)), gil := None)
    case Check =>
      if g.saturated && s.idle == 0 && TaskRef(b, g.at) in s.queue then TakenBack(s, t, b) else Looked(s, b)
    case Woken(timedOut) =>
      if timedOut && TaskRef(b, g.at) in s.queue then TakenBack(s, t, b) else Looked(s, b)
    case Settle =>
      if g.outstanding == 0 then SetGather(s, b, g.(phase := Unlink))
      else SetGather(s, b, g.(phase := Drain)).(gil := None)
    case Drain =>
      if g.stopped then SetGather(s, b, DrainPhase(TakeBack(g), s.epoch)).(queue := WithoutGather(s.queue, b))
      else SetGather(s, b, DrainPhase(g, s.epoch))
    case DrainWoken => SetGather(s, b, DrainPhase(g, s.epoch))
    case Unlink => SetGather(s, b, g.(phase := Answering(g.interrupted))).(linked := Without(s.linked, b))
    case _ => s
  }

  function DrainPhase(g: Gather, epoch: nat): Gather {
    g.(phase := if g.outstanding > 0 then DrainWait(epoch) else Drained)
  }

  /** The caller takes its own task off the queue, to run it itself. */
  function TakenBack(s: State, t: nat, b: nat): State
    requires b < |s.gathers| && s.gathers[b].at < |s.gathers[b].tasks|
  {
    var g := s.gathers[b];
    SetGather(s, b, Claim(g, g.at, t).(phase := Return(true), saturated := true))
      .(queue := Without(s.queue, TaskRef(b, g.at)))
  }

  /** The test of the caller's waiting loop. */
  function Looked(s: State, b: nat): State
    requires b < |s.gathers| && s.gathers[b].at < |s.gathers[b].tasks|
  {
    var g := s.gathers[b];
    SetGather(s, b, g.(phase := if g.tasks[g.at].finished || g.stopped then Return(false) else Wait))
  }

  /** A worker pops the head of the queue, or waits for one. */
  function SeekSection(s: State, t: nat): State
    requires t < |s.threads|
    requires s.queue != [] ==> s.queue[0].b < |s.gathers| && s.queue[0].i < |s.gathers[s.queue[0].b].tasks|
  {
    var idle := if s.threads[t].pc.IdleWoken? then s.idle - 1 else s.idle;
    if s.queue == [] then SetPc(s, t, Idle).(idle := idle + 1)
    else
      var r := s.queue[0];
      SetPc(SetGather(s, r.b, Claim(s.gathers[r.b], r.i, t)), t, Claimed(r.b, r.i))
        .(queue := s.queue[1..], idle := idle)
  }

  /** A task of a stopped batch is not started; any other one names its runner, and
      runs in its batch's session, on its batch's budget. */
  function StartSection(s: State, t: nat): State
    requires InTaskFrame(s, t) && s.threads[t].runs.Valid()
  {
    var f := Top(s.threads[t]);
    var g := s.gathers[f.b];
    if g.stopped then SetPc(s, t, TaskEnd(None))
    else
      SetThread(SetGather(s, f.b, Start(g, f.i, t)), t,
                s.threads[t].(pc := Guest, scan := g.budget, runs := s.threads[t].runs.Push(g.session)))
  }

  /** Record how the task ended. A worker gives the GIL back and looks for another
      task; a caller goes on with its loop. */
  function EndSection(s: State, t: nat, outcome: Option<Outcome>): State
    requires InTaskFrame(s, t)
  {
    var f := Top(s.threads[t]);
    var g := Finish(s.gathers[f.b], f.i, outcome);
    if Worker(s, t) then
      SetThread(SetGather(s, f.b, g), t, PopFrame(s.threads[t]).(pc := Seek)).(epoch := s.epoch + 1, gil := None)
    else
      SetThread(SetGather(s, f.b, NextTurn(g)), t, PopFrame(s.threads[t]).(pc := Par(f.b))).(epoch := s.epoch + 1)
  }

  /** Stop every listed batch of `target` and name the threads running its thunks. */
  function MarkSection(s: State, t: nat, target: nat): State
    requires t < |s.threads|
  {
    var named := Truncated(Runners(s, s.linked, target), WORKERS_MAX);
    SetPc(s, t, Raise(target, named))
      .(gathers := seq(|s.gathers|, b requires 0 <= b < |s.gathers| =>
                       if b in s.linked && s.gathers[b].owner == target
                       then MarkStopped(s.gathers[b]) else s.gathers[b]),
        epoch := s.epoch + 1)
  }

  function GilTaken(s: State, t: nat): State
    requires t < |s.threads| && WantsGil(s, t)
  {
    var th := s.threads[t];
    var s' := s.(gil := Some(t));
    if th.pc.Host? then SetPc(s', t, Guest)
    else if th.pc.WantMark? then SetPc(s', t, Mark(th.pc.target))
    else if th.pc.Claimed? then
      SetThread(s', t, th.(frames := th.frames + [InTask(th.pc.b, th.pc.i, th.scan)], pc := TaskStart))
    else
      var b := th.pc.b;
      var g := s.gathers[b];
      if g.phase.Drained? then SetGather(s', b, g.(phase := Unlink))
      else if !g.phase.claimed then SetGather(s', b, NextTurn(g))
      else
        SetThread(SetGather(s', b, g.(phase := CallerRun)), t,
                  th.(frames := th.frames + [InTask(b, g.at, th.scan)], pc := TaskStart))
  }

  function Awake(s: State, t: nat, timedOut: bool): State
    requires Enabled(s, Wake(t, timedOut))
  {
    if s.threads[t].pc.Idle? then SetPc(s, t, IdleWoken)
    else
      var b := s.threads[t].pc.b;
      var g := s.gathers[b];
      SetGather(s, b, g.(phase := if g.phase.Wait? then Woken(timedOut) else DrainWoken))
  }

  /** A block without a budget of an outer block brings its own. */
  function Entered(s: State, t: nat, session: string, block: bool): State
    requires Enabled(s, Enter(t, session, block))
  {
    var th := s.threads[t];
    var own := block && th.scan.None?;
    var brought := if own then Some(|s.budgets|) else None;
    SetThread(s, t, th.(frames := th.frames + [Entry(session, block, th.scan, brought)], pc := Guest,
                        scan := if own then brought else th.scan,
                        runs := th.runs.Push(session)))
      .(gil := Some(t), budgets := if own then s.budgets + [Budget(SCAN_ENTRIES, 1, 0)] else s.budgets)
  }

  function Left(s: State, t: nat): State
    requires Enabled(s, Leave(t))
  {
    var th := s.threads[t];
    var f := Top(th);
    SetThread(s, t, PopFrame(th).(pc := Host, scan := if f.block then f.previous else th.scan, runs := th.runs.Pop()))
      .(gil := None, budgets := if f.block && f.previous.None? then Release(s.budgets, th.scan) else s.budgets)
  }

  function ThunkFinished(s: State, t: nat, outcome: Outcome): State
    requires Enabled(s, FinishThunk(t, outcome))
  {
    var th := s.threads[t];
    SetThread(s, t, th.(pc := TaskEnd(Some(outcome)), scan := Top(th).previous, runs := th.runs.Pop()))
  }

  function ParCalled(s: State, t: nat, count: nat, quota: int): State
    requires Enabled(s, CallPar(t, count, quota))
  {
    var th := s.threads[t];
    var b := |s.gathers|;
    var session := th.runs.Current();
    var g := Gather(t, |th.frames|, if session.Some? then Clip(session.value) else "", th.scan,
                    if quota < 1 then 1 else quota, seq(count, _ => NewTask), Link, 0, 0, false, 0, 0, false, false);
    SetThread(s, t, th.(frames := th.frames + [InPar(b)], pc := Par(b)))
      .(gathers := s.gathers + [g], budgets := Retain(s.budgets, th.scan))
  }

  function ParAnswered(s: State, t: nat): State
    requires Enabled(s, AnswerPar(t))
  {
    var b := s.threads[t].pc.b;
    var g := s.gathers[b];
    SetThread(SetGather(s, b, g.(phase := Returned(PoolAnswer(Results(g), g.phase.interrupted)))), t,
              PopFrame(s.threads[t]).(pc := Guest))
      .(budgets := Release(s.budgets, g.budget))
  }

  function NewRuns(): Runs { Runs(seq(RUN_DEPTH, _ => ""), 0) }

  function PoolStarted(s: State, made: nat): State {
    s.(threads := s.threads + seq(made, _ => Thread([], Seek, None, NewRuns())), made := made)
  }

  /** One entry, unless it is counted and the budget is spent. */
  function Scanned(s: State, t: nat, exempt: bool): State
    requires InGuest(s, t)
  {
    var h := s.threads[t].scan;
    if h.None? || exempt || h.value >= |s.budgets| || s.budgets[h.value].remaining == 0 then s
    else
      var budget := s.budgets[h.value];
      s.(budgets := s.budgets[h.value := budget.(remaining := budget.remaining - 1, handed := budget.handed + 1)])
  }

  /** Any number of host threads, none of them in the interpreter, and no worker yet. */
  predicate Initial(s: State) {
    && s.firstWorker == |s.threads| && s.made == 0
    && (forall t :: 0 <= t < |s.threads| ==> s.threads[t] == Thread([], Host, None, NewRuns()))
    && s.gathers == [] && s.queue == [] && s.linked == [] && s.budgets == []
    && s.gil.None? && s.lock.None? && s.idle == 0 && s.epoch == 0
  }

  // ----- runs

  ghost predicate CanRun(s: State, steps: seq<Step>)
    decreases |steps|
  {
    steps != [] ==> Enabled(s, steps[0]) && CanRun(Apply(s, steps[0]), steps[1..])
  }

  ghost function Run(s: State, steps: seq<Step>): State
    requires CanRun(s, steps)
    decreases |steps|
  {
    if steps == [] then s else Run(Apply(s, steps[0]), steps[1..])
  }

  ghost predicate Reachable(s: State) {
    exists init, steps :: Initial(init) && CanRun(init, steps) && Run(init, steps) == s
  }
}
