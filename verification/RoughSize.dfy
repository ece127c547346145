/** `__vis_rough_size__`: the bounded walk that sizes an object graph level by level. */
module RoughSizes {
  import opened Basics
  import opened Plain

  const STEPS := 100000

  /** Every element is an object; what contains what is otherwise arbitrary. */
  ghost predicate Closed(h: Heap) {
    forall v :: 0 <= v < |h| && h[v].Box? ==> InRange(h[v].items, |h|)
  }

  predicate InRange(vs: seq<Id>, n: nat) { forall i :: 0 <= i < |vs| ==> vs[i] < n }

  /** A dict's keys, then its values; any other box's elements. */
  function Expand(node: Node): (r: seq<Id>)
    requires node.Box?
    ensures |r| == |node.items| && forall c :: c in r <==> c in node.items
  {
    if node.kind.DictBox? then
      SplitHasAll(node.items);
      Evens(node.items) + Odds(node.items)
    else node.items
  }

  function Evens(s: seq<Id>): seq<Id> { if s == [] then [] else [s[0]] + Odds(s[1..]) }

  function Odds(s: seq<Id>): seq<Id> { if s == [] then [] else Evens(s[1..]) }

  lemma {:induction false} SplitHasAll(s: seq<Id>)
    ensures |Evens(s)| + |Odds(s)| == |s|
    ensures forall c :: c in s <==> c in Evens(s) || c in Odds(s)
  {
    if s != [] {
      SplitHasAll(s[1..]);
      assert s == [s[0]] + s[1..];
    }
  }

  // ----- the true size

  /** The objects reached from `v`. */
  ghost function Reach(h: Heap, v: Id): set<Id> { set n | 0 <= n < |h| && Below(h, v, n) }

  /** The sum of `w` over the members of `s` below `n`. */
  function Sum(w: seq<nat>, s: set<Id>, n: nat): nat
    requires n <= |w|
  {
    if n == 0 then 0 else Sum(w, s, n - 1) + if n - 1 in s then w[n - 1] else 0
  }

  /** The size of `v`: that of each distinct object it reaches, once. */
  ghost function Size(h: Heap, own: seq<nat>, v: Id): nat
    requires |own| == |h|
  {
    Sum(own, Reach(h, v), |h|)
  }

  function Widths(h: Heap): (r: seq<nat>)
    ensures |r| == |h|
  {
    seq(|h|, i requires 0 <= i < |h| => if h[i].Box? then |h[i].items| else 0)
  }

  /** How often the walk looks at an object: once at the root, and once for each place in a
      container that it reaches. */
  ghost function Looks(h: Heap, v: Id): nat { 1 + Sum(Widths(h), Reach(h, v), |h|) }

  lemma {:induction false} SumMore(w: seq<nat>, s: set<Id>, t: set<Id>, n: nat)
    requires n <= |w| && s <= t
    ensures Sum(w, s, n) <= Sum(w, t, n)
  {
    if n > 0 { SumMore(w, s, t, n - 1); }
  }

  lemma {:induction false} SumAdds(w: seq<nat>, s: set<Id>, k: Id, n: nat)
    requires n <= |w| && k !in s
    ensures Sum(w, s + {k}, n) == Sum(w, s, n) + if k < n then w[k] else 0
  {
    if n > 0 { SumAdds(w, s, k, n - 1); }
  }

  lemma {:induction false} SumNone(w: seq<nat>, n: nat)
    requires n <= |w|
    ensures Sum(w, {}, n) == 0
  {
    if n > 0 { SumNone(w, n - 1); }
  }

  lemma {:induction false} StepBelow(h: Heap, v: Id, p: seq<nat>, i: nat)
    requires At(h, v, p).Some? && At(h, v, p).value < |h|
    requires h[At(h, v, p).value].Box? && i < |h[At(h, v, p).value].items|
    requires h[At(h, v, p).value].items[i] < |h|
    ensures At(h, v, p + [i]) == Some(h[At(h, v, p).value].items[i])
    decreases |p|
  {
    if p != [] {
      assert (p + [i])[1..] == p[1..] + [i];
      StepBelow(h, h[v].items[p[0]], p[1..], i);
    } else {
      assert p + [i] == [i] && [i][1..] == [];
      assert At(h, v, [i]) == At(h, h[v].items[i], []);
    }
  }

  lemma ChildrenReached(h: Heap, v: Id, n: Id)
    requires Closed(h) && n in Reach(h, v) && h[n].Box?
    ensures forall c :: c in h[n].items ==> c in Reach(h, v)
  {
    var p :| At(h, v, p) == Some(n);
    forall c | c in h[n].items ensures c in Reach(h, v) {
      var i :| 0 <= i < |h[n].items| && h[n].items[i] == c;
      StepBelow(h, v, p, i);
      assert Below(h, v, c);
    }
  }

  /** A set with `v` in it and every element of its boxes has all that `v` reaches. */
  lemma {:induction false} ReachLeast(h: Heap, v: Id, s: set<Id>, p: seq<nat>)
    requires v in s && forall n :: n in s && n < |h| && h[n].Box? ==> forall c :: c in h[n].items ==> c in s
    ensures At(h, v, p).Some? ==> At(h, v, p).value in s
    decreases |p|
  {
    if p != [] && v < |h| && h[v].Box? && p[0] < |h[v].items| { ReachLeast(h, h[v].items[p[0]], s, p[1..]); }
  }

  // ----- the walk

  /** The state between two levels: what is counted, what is expanded, what is to come. */
  ghost predicate Level(h: Heap, own: seq<nat>, root: Id, pending: seq<Id>, seen: set<Id>, open: set<Id>,
                        total: nat, steps: nat) {
    && Closed(h) && |own| == |h| && root < |h|
    && seen <= Reach(h, root) && total == Sum(own, seen, |h|) && (forall c :: c in pending ==> c in Reach(h, root))
    && (root in seen || root in pending)
    && open <= seen && (forall n :: n in open ==> Placed(h, n, seen, pending))
    && steps + |pending| == 1 + Sum(Widths(h), open, |h|)
  }

  /** Every element of box `n` is counted or to come. */
  ghost predicate Placed(h: Heap, n: Id, seen: set<Id>, pending: seq<Id>) {
    n < |h| && h[n].Box? && forall c :: c in h[n].items ==> c in seen || c in pending
  }

  ghost predicate AllOpen(h: Heap, seen: set<Id>, open: set<Id>, containers: seq<Id>) {
    forall n :: n in seen && n < |h| && h[n].Box? <==> n in open || n in containers
  }

  lemma LevelBounds(h: Heap, own: seq<nat>, root: Id, pending: seq<Id>, seen: set<Id>, open: set<Id>, total: nat, steps: nat)
    requires Level(h, own, root, pending, seen, open, total, steps)
    ensures total <= Size(h, own, root) && steps + |pending| <= Looks(h, root)
  {
    SumMore(own, seen, Reach(h, root), |h|);
    SumMore(Widths(h), open, Reach(h, root), |h|);
  }

  lemma LevelDone(h: Heap, own: seq<nat>, root: Id, seen: set<Id>, open: set<Id>, total: nat, steps: nat)
    requires Level(h, own, root, [], seen, open, total, steps) && AllOpen(h, seen, open, [])
    ensures total == Size(h, own, root)
  {
    forall n, c | n in seen && n < |h| && h[n].Box? && c in h[n].items ensures c in seen { assert Placed(h, n, seen, []); }
    forall n | n in Reach(h, root) ensures n in seen {
      var p :| At(h, root, p) == Some(n);
      ReachLeast(h, root, seen, p);
    }
    assert seen == Reach(h, root);
  }

  /** Looking at the first object to come: counted before, or counted now. */
  lemma Looked(h: Heap, own: seq<nat>, root: Id, pending: seq<Id>, seen: set<Id>, open: set<Id>, total: nat, steps: nat)
    requires pending != [] && Level(h, own, root, pending, seen, open, total, steps)
    ensures pending[0] < |own|
    ensures pending[0] in seen ==> Level(h, own, root, pending[1..], seen, open, total, steps + 1)
    ensures pending[0] !in seen ==>
              Level(h, own, root, pending[1..], seen + {pending[0]}, open, total + own[pending[0]], steps + 1)
  {
    var v := pending[0];
    assert pending == [v] + pending[1..];
    forall n | n in open ensures Placed(h, n, seen + {v}, pending[1..]) { assert Placed(h, n, seen, pending); }
    assert v in Reach(h, root) && forall c :: c in pending[1..] ==> c in pending;
    if v in seen {
      assert seen + {v} == seen;
    } else {
      SumAdds(own, seen, v, |h|);
      assert root in seen + {v} || root in pending[1..];
    }
  }

  lemma Expanded(h: Heap, own: seq<nat>, root: Id, pending: seq<Id>, seen: set<Id>, open: set<Id>, total: nat, steps: nat, c: Id)
    requires Level(h, own, root, pending, seen, open, total, steps) && c in seen && c < |h| && h[c].Box? && c !in open
    ensures Level(h, own, root, pending + Expand(h[c]), seen, open + {c}, total, steps)
  {
    var next := pending + Expand(h[c]);
    forall n | n in open + {c} ensures Placed(h, n, seen, next) { assert n in open ==> Placed(h, n, seen, pending); }
    ChildrenReached(h, root, c);
    SumAdds(Widths(h), open, c, |h|);
  }

  /** Never more than the true size, whatever the graph; and, if the walk needs no more
      than 100000 looks, exact in what it decides and in every size within the limit. */
  method RoughSize(h: Heap, own: seq<nat>, value: Id, limit: int) returns (total: nat)
    requires Closed(h) && |own| == |h| && value < |h|
    ensures total <= Size(h, own, value)
    ensures Looks(h, value) <= 100000 ==> (total > limit <==> Size(h, own, value) > limit)
    ensures Looks(h, value) <= 100000 && Size(h, own, value) <= limit ==> total == Size(h, own, value)
  {
    total := 0;
    var pending, steps := [value], 0;
    var seen: set<Id> := {};
    ghost var open: set<Id> := {};
    Start(h, own, value);
    while pending != []
      invariant Level(h, own, value, pending, seen, open, total, steps) && AllOpen(h, seen, open, [])
      invariant (seen != {} ==> total <= limit) && (pending == [] ==> seen != {}) && steps <= STEPS
      decreases STEPS - steps
    {
      var containers: seq<Id> := [];
      var j := 0;
      ghost var at := steps;
      while j < |pending|
        invariant 0 <= j <= |pending|
        invariant Level(h, own, value, pending[j..], seen, open, total, steps)
        invariant AllOpen(h, seen, open, containers) && NoDup(containers) && (forall c :: c in containers ==> c !in open)
        invariant (seen != {} ==> total <= limit) && (j > 0 ==> seen != {})
        invariant steps == at + j <= STEPS
      {
        LevelBounds(h, own, value, pending[j..], seen, open, total, steps);
        if steps >= STEPS { return; }
        Looked(h, own, value, pending[j..], seen, open, total, steps);
        steps := steps + 1;
        var v := pending[j];
        assert pending[j..][1..] == pending[j + 1..];
        j := j + 1;
        if v !in seen {
          seen := seen + {v};
          total := total + own[v];
          if total > limit {
            LevelBounds(h, own, value, pending[j..], seen, open, total, steps);
            return;
          }
          if h[v].Box? { containers := containers + [v]; }
        }
      }
      pending := [];
      var k := 0;
      while k < |containers|
        invariant 0 <= k <= |containers|
        invariant Level(h, own, value, pending, seen, open, total, steps) && AllOpen(h, seen, open, containers[k..])
        invariant NoDup(containers) && forall c :: c in containers[k..] ==> c !in open
      {
        var c := containers[k];
        assert containers[k..] == [c] + containers[k + 1..];
        Expanded(h, own, value, pending, seen, open, total, steps, c);
        pending := pending + Expand(h[c]);
        open := open + {c};
        k := k + 1;
      }
    }
    LevelDone(h, own, value, seen, open, total, steps);
  }

  lemma Start(h: Heap, own: seq<nat>, value: Id)
    requires Closed(h) && |own| == |h| && value < |h|
    ensures Level(h, own, value, [value], {}, {}, 0, 0) && AllOpen(h, {}, {}, [])
  {
    assert At(h, value, []) == Some(value);
    SumNone(own, |h|);
    SumNone(Widths(h), |h|);
  }
}
