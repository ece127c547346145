/** The per-thread stack of sessions a thread is running code for: 32 slots of
    128-byte names, with a depth that goes on counting past the last slot. */
module RunStacks {
  import opened Basics

  const RUN_DEPTH: nat := 32
  const SESSION_NAME: nat := 128

  /** What `snprintf` keeps of a name in a slot of SESSION_NAME bytes. */
  function Clip(name: string): (r: string)
    ensures |name| < 128 ==> r == name
    ensures |name| >= 128 ==> r <= name && |r| == 127
  {
    if |name| < SESSION_NAME then name else name[..SESSION_NAME - 1]
  }

  datatype Runs = Runs(slots: seq<string>, depth: nat) {
    predicate Valid() { |slots| == RUN_DEPTH }

    function Push(session: string): (r: Runs)
      requires Valid()
      ensures r.Valid()
    {
      if depth >= RUN_DEPTH then Runs(slots, depth + 1)
      else Runs(slots[depth := Clip(session)], depth + 1)
    }

    function Pop(): Runs { if depth > 0 then Runs(slots, depth - 1) else this }

    /** `vis_py_current_session`; None stands for its NULL. */
    function Current(): Option<string>
      requires Valid()
    {
      if depth == 0 || depth > RUN_DEPTH || slots[depth - 1] == "" then None
      else Some(slots[depth - 1])
    }
  }

  /** `r` is the fixed-size form of the unbounded stack `names`. */
  ghost predicate Holds(r: Runs, names: seq<string>) {
    && r.Valid()
    && r.depth == |names|
    && forall k :: 0 <= k < |names| && k < RUN_DEPTH ==> r.slots[k] == Clip(names[k])
  }

  /** The session that nested runs `names` are attributed to: the innermost one,
      and none at all once they nest deeper than the slots go. */
  function Attribution(names: seq<string>): Option<string> {
    if |names| == 0 || |names| > 32 || names[|names| - 1] == "" then None
    else Some(Clip(names[|names| - 1]))
  }

  lemma PushHolds(r: Runs, names: seq<string>, session: string)
    requires Holds(r, names)
    ensures Holds(r.Push(session), names + [session])
    ensures Holds(r.Push(session).Pop(), names)
  {
    var pushed := r.Push(session);
    forall k | 0 <= k < |names| + 1 && k < RUN_DEPTH
      ensures pushed.slots[k] == Clip((names + [session])[k])
    {
    }
  }

  /** The end of a run brings back the session that was current before it, at any depth. */
  lemma PushIsUndone(r: Runs, session: string)
    requires r.Valid()
    ensures r.Push(session).Pop().Valid() && r.Push(session).Pop().Current() == r.Current()
  {
  }

  lemma PopHolds(r: Runs, names: seq<string>)
    requires Holds(r, names) && names != []
    ensures Holds(r.Pop(), names[..|names| - 1])
  {
  }

  /** The slot read is the innermost run's, whatever stale names lie above it. */
  lemma CurrentIsInnermost(r: Runs, names: seq<string>)
    requires Holds(r, names)
    ensures r.Current() == Attribution(names)
  {
    if 0 < |names| <= RUN_DEPTH {
      assert r.slots[|names| - 1] == Clip(names[|names| - 1]);
    }
  }

  /** The stack of one thread, edited in place. */
  class RunStack {
    var slots: array<string>
    var depth: nat

    ghost predicate Valid()
      reads this
    {
      slots.Length == RUN_DEPTH
    }

    ghost function Contents(): Runs
      reads this, slots
    {
      Runs(slots[..], depth)
    }

    constructor ()
      ensures Valid() && fresh(slots) && Holds(Contents(), [])
    {
      slots := new string[RUN_DEPTH](_ => "");
      depth := 0;
    }

    /** One more nested run: the stack of `names` becomes that of `names` and the session,
        however deep they nest. */
    method Push(session: string, ghost names: seq<string>)
      requires Valid() && Holds(Contents(), names)
      modifies this`depth, slots
      ensures Valid() && Holds(Contents(), names + [session]) && Contents() == old(Contents()).Push(session)
    {
      PushHolds(Contents(), names, session);
      if depth >= RUN_DEPTH {
        depth := depth + 1;
        return;
      }
      slots[depth] := Clip(session);
      depth := depth + 1;
    }

    /** The innermost run is over: the stack is again that of the runs around it. */
    method Pop(ghost names: seq<string>)
      requires Valid() && Holds(Contents(), names)
      modifies this`depth
      ensures Valid() && Contents() == old(Contents()).Pop()
      ensures Holds(Contents(), if names == [] then [] else names[..|names| - 1])
    {
      if names != [] { PopHolds(Contents(), names); }
      if depth > 0 {
        depth := depth - 1;
      }
    }

    /** Answers the innermost of the nested runs, `names`, of this thread. */
    method Current(ghost names: seq<string>) returns (session: Option<string>)
      requires Valid() && Holds(Contents(), names)
      ensures session == Attribution(names)
    {
      CurrentIsInnermost(Contents(), names);
      if depth == 0 || depth > RUN_DEPTH {
        return None;
      }
      session := if slots[depth - 1] == "" then None else Some(slots[depth - 1]);
    }
  }
}
