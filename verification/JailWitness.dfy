/** A run of the jail's tables that spawns a process and destroys its context. */
module JailWitness {
  import opened JailModel
  import opened JailProgress
  import opened JailRuns
  import opened JailSpawns
  import opened JailStreams

  lemma After(s: State, a: Step) returns (s': State)
    requires Reachable(s) && Enabled(s, a)
    ensures s' == Apply(s, a) && Reachable(s')
  {
    StepReaches(s, a);
    s' := Apply(s, a);
  }

  /** A sealed context with a process. */
  lemma SomeSpawn(pty: bool, merge: bool) returns (s: State)
    ensures Reachable(s) && |s.contexts| == 1 && s.contexts[0].listed && s.contexts[0].phase.Open? && |s.processes| == 1
  {
    assert CanRun(Empty, []) && Run(Empty, []) == Empty;
    s := After(Empty, Create);
    s := After(s, Seal(0, true));
    ReachableHolds(s);
    ReclaimKeeps(s);
    SpawnedExtends(Reclaim(s), 0, pty, merge);
    SpawnedClosers(Reclaim(s), 0, pty, merge);
    s := After(s, Spawn(0, pty, merge));
  }

  /** A context with a process of any kind comes to its destruction, and to its end. */
  lemma SomeContextEnds(pty: bool, merge: bool) returns (s: State, steps: seq<Step>)
    ensures Reachable(s) && |s.contexts| == 1 && Destroying(s.contexts[0]) && |s.processes| == 1
    ensures CanRun(s, steps) && |Run(s, steps).contexts| > 0 && Run(s, steps).contexts[0].phase.Freed?
  {
    var x := SomeSpawn(pty, merge);
    BegunDestroys(x);
    s := After(x, DestroyBegin(0, true));
    steps := DestroyCanEnd(s, 0);
  }

  lemma BegunDestroys(s: State)
    requires |s.contexts| == 1
    ensures var s' := DestroyBegun(s, 0, true); |s'.contexts| == 1 && Destroying(s'.contexts[0]) && |s'.processes| == |s.processes|
  {
    var s1 := s.(contexts := s.contexts[0 := s.contexts[0].(poisoned := true)]);
    var s2 := s1.(contexts := s1.contexts[0 := s1.contexts[0].(listed := false, phase := AwaitStreams)]);
    CloseAllUnlists(s2, 0);
    assert SameButLive(s2, CloseStreamsOf(s2, 0), 0);
    DestroyBeginSizes(s, 0, true);
  }
}
