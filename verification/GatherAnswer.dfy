/** What a gather answers: the rule of the sequential form, which calls every thunk
    on one thread, and the rule of the pool, which reads a settled batch. */
module GatherAnswers {
  import opened Basics

  /** How a thunk ends: a value, an ordinary exception, or an interrupt - an
      exception that is not an `Exception` - which stops its batch. */
  datatype Outcome = Value(v: int) | Failed(e: int) | Stopping(s: int)

  /** What `par` hands back. A slot is None where the list holds NULL. */
  datatype Answer = Values(slots: seq<Option<int>>) | Raised(error: Outcome) | FreshInterrupt {
    predicate Stops() { FreshInterrupt? || (Raised? && error.Stopping?) }
  }

  /** The first position `o` satisfies among thunks that ended, or the length. */
  function First(rs: seq<Option<Outcome>>, p: Outcome -> bool): (k: nat)
    ensures k <= |rs|
    ensures k < |rs| ==> rs[k].Some? && p(rs[k].value)
    ensures forall j :: 0 <= j < k ==> rs[j].None? || !p(rs[j].value)
  {
    if rs == [] || (rs[0].Some? && p(rs[0].value)) then 0 else First(rs[1..], p) + 1
  }

  function FirstStopping(rs: seq<Option<Outcome>>): nat { First(rs, (o: Outcome) => o.Stopping?) }

  function FirstFailed(rs: seq<Option<Outcome>>): nat { First(rs, (o: Outcome) => o.Failed?) }

  function SlotOf(r: Option<Outcome>): Option<int> {
    if r.Some? && r.value.Value? then Some(r.value.v) else None
  }

  /** The answer of a settled batch whose thunks ended as `rs` (None where a thunk
      never ran): the first interrupt wins outright, then the host's own, then the
      first failure by position, and only then the values. */
  function PoolAnswer(rs: seq<Option<Outcome>>, interrupted: bool): Answer {
    var stop, fail := FirstStopping(rs), FirstFailed(rs);
    if stop < |rs| then Raised(rs[stop].value)
    else if interrupted then FreshInterrupt
    else if fail < |rs| then Raised(rs[fail].value)
    else Values(seq(|rs|, i requires 0 <= i < |rs| => SlotOf(rs[i])))
  }

  // ----- the rule by position, whatever the search

  predicate NoneStops(rs: seq<Option<Outcome>>) { forall j :: 0 <= j < |rs| && rs[j].Some? ==> !rs[j].value.Stopping? }

  predicate NoneFails(rs: seq<Option<Outcome>>) { forall j :: 0 <= j < |rs| && rs[j].Some? ==> !rs[j].value.Failed? }

  /** A stopping end that no other precedes is the answer, interrupted or not. */
  lemma FirstStopWins(rs: seq<Option<Outcome>>, interrupted: bool, k: nat)
    requires k < |rs| && rs[k].Some? && rs[k].value.Stopping? && NoneStops(rs[..k])
    ensures PoolAnswer(rs, interrupted) == Raised(rs[k].value)
  {
    assert FirstStopping(rs) == k;
  }

  /** Without one it is the host's interrupt, and without that a failure that no other precedes. */
  lemma FirstFailureWins(rs: seq<Option<Outcome>>, k: nat)
    requires k < |rs| && rs[k].Some? && rs[k].value.Failed? && NoneStops(rs) && NoneFails(rs[..k])
    ensures PoolAnswer(rs, true) == FreshInterrupt
    ensures PoolAnswer(rs, false) == Raised(rs[k].value)
  {
    assert FirstStopping(rs) == |rs| && FirstFailed(rs) == k;
  }

  /** Else each value stands at its place, and nothing where there is none. */
  lemma ValuesInPlace(rs: seq<Option<Outcome>>)
    requires NoneStops(rs) && NoneFails(rs)
    ensures PoolAnswer(rs, true) == FreshInterrupt
    ensures var a := PoolAnswer(rs, false);
            && a.Values? && |a.slots| == |rs|
            && forall k :: 0 <= k < |rs| ==> a.slots[k] == if rs[k].Some? then Some(rs[k].value.v) else None
  {
    assert FirstStopping(rs) == FirstFailed(rs) == |rs|;
  }

  function Ended(os: seq<Outcome>): (rs: seq<Option<Outcome>>)
    ensures |rs| == |os|
    ensures forall i :: 0 <= i < |os| ==> rs[i] == Some(os[i])
  {
    seq(|os|, i requires 0 <= i < |os| => Some(os[i]))
  }

  /** How many thunks the sequential form calls before an interrupt ends it. */
  function InlineCalls(os: seq<Outcome>): nat {
    var stop := FirstStopping(Ended(os));
    if stop < |os| then stop + 1 else |os|
  }

  /** Call every thunk on this thread, in order. `os[i]` is how thunk i ends if it is
      called; `called` counts the calls made. */
  method ParInline(os: seq<Outcome>) returns (answer: Answer, called: nat)
    ensures answer == PoolAnswer(Ended(os), false)
    ensures called == InlineCalls(os)
  {
    ghost var rs := Ended(os);
    var slots: seq<Option<int>> := [];
    var failure: Option<Outcome> := None;
    called := 0;
    while called < |os|
      invariant called <= |os|
      invariant |slots| == called
      invariant forall j :: 0 <= j < called ==> slots[j] == SlotOf(rs[j]) && !os[j].Stopping?
      invariant failure.None? ==> forall j :: 0 <= j < called ==> !os[j].Failed?
      invariant failure.Some? ==> FirstFailed(rs) < called && failure == rs[FirstFailed(rs)]
    {
      var outcome := os[called];
      assert rs[called] == Some(outcome);
      called := called + 1;
      if outcome.Stopping? {
        return Raised(outcome), called;
      }
      if outcome.Failed? && failure.None? {
        failure := Some(outcome);
      }
      slots := slots + [SlotOf(Some(outcome))];
    }
    answer := if failure.Some? then Raised(failure.value) else Values(slots);
  }

  /** The loop a settled `par` chooses its answer with. */
  method ChooseAnswer(rs: seq<Option<Outcome>>, interrupted: bool) returns (answer: Answer)
    ensures answer == PoolAnswer(rs, interrupted)
  {
    var chosen := -1;
    var i := 0;
    while i < |rs|
      invariant 0 <= i <= |rs| && -1 <= chosen < i
      invariant forall j :: 0 <= j < i ==> rs[j].None? || !rs[j].value.Stopping?
      invariant chosen == -1 ==> forall j :: 0 <= j < i ==> rs[j].None? || !rs[j].value.Failed?
      invariant chosen >= 0 ==> chosen == FirstFailed(rs)
    {
      if rs[i].Some? && !rs[i].value.Value? {
        if rs[i].value.Stopping? {
          chosen := i;
          break;
        }
        if chosen < 0 {
          chosen := i;
        }
      }
      i := i + 1;
    }
    if interrupted && chosen >= 0 && !rs[chosen].value.Stopping? {
      chosen := -1;
    }
    if chosen >= 0 {
      return Raised(rs[chosen].value);
    }
    if interrupted {
      return FreshInterrupt;
    }
    answer := Values(seq(|rs|, k requires 0 <= k < |rs| => SlotOf(rs[k])));
  }

  /** A batch the host interrupted never answers values, nor an ordinary failure. */
  lemma InterruptedAnswerStops(rs: seq<Option<Outcome>>)
    ensures PoolAnswer(rs, true).Stops()
  {
  }

  /** Of thunks that all ran to their ends: all the values in order, or the first failure. */
  predicate AnswersFor(os: seq<Outcome>, answer: Answer) {
    && ((forall i :: 0 <= i < |os| ==> os[i].Value?) ==>
          answer.Values? && |answer.slots| == |os| && forall i :: 0 <= i < |os| ==> answer.slots[i] == Some(os[i].v))
    && forall k :: 0 <= k < |os| && FailsFirst(os, k) ==> answer == Raised(os[k])
  }

  predicate FailsFirst(os: seq<Outcome>, k: nat)
    requires k < |os|
  {
    os[k].Failed? && forall j :: 0 <= j < k ==> !os[j].Failed?
  }

  lemma AnswerOfEnds(os: seq<Outcome>)
    requires forall i :: 0 <= i < |os| ==> !os[i].Stopping?
    ensures AnswersFor(os, PoolAnswer(Ended(os), false))
  {
    var rs := Ended(os);
    if forall i :: 0 <= i < |os| ==> os[i].Value? { ValuesInPlace(rs); }
    forall k | 0 <= k < |os| && FailsFirst(os, k) ensures PoolAnswer(rs, false) == Raised(os[k]) { FirstFailureWins(rs, k); }
  }

  /** Values come back in the order of the thunks, and exactly when all gave one. */
  lemma ValuesInOrder(os: seq<Outcome>)
    ensures PoolAnswer(Ended(os), false).Values? <==> forall i :: 0 <= i < |os| ==> os[i].Value?
    ensures PoolAnswer(Ended(os), false).Values? ==>
              && |PoolAnswer(Ended(os), false).slots| == |os|
              && forall i :: 0 <= i < |os| ==> PoolAnswer(Ended(os), false).slots[i] == Some(os[i].v)
  {
    var rs := Ended(os);
    forall i | 0 <= i < |os| ensures rs[i] == Some(os[i]) {}
    if forall i :: 0 <= i < |os| ==> os[i].Value? {
      assert FirstStopping(rs) == |rs| && FirstFailed(rs) == |rs|;
    } else {
      var i :| 0 <= i < |os| && !os[i].Value?;
      assert rs[i].Some? && (rs[i].value.Stopping? || rs[i].value.Failed?);
      assert FirstStopping(rs) <= i || FirstFailed(rs) <= i;
    }
  }
}
