/** `__vis_plain__`: when the literal of a Python value restores the same value, aliases
    included. */
module Plain {
  import opened Basics

  type Id = nat

  datatype Kind = DictBox | ListBox | SetBox | TupleBox | FrozenBox

  predicate Mutable(k: Kind) { k.DictBox? || k.ListBox? || k.SetBox? }

  /** An object of an exact builtin type - a leaf with its text, a box with its elements in
      order, a dict's keys and values in turn - or of any other type. */
  datatype Node = Leaf(text: string) | Box(kind: Kind, items: seq<Id>) | Other

  /** The objects in the order they were created, which is their identity. */
  type Heap = seq<Node>

  /** An immutable box was created after its elements, so every cycle has a mutable one. */
  ghost predicate WellFormed(h: Heap) {
    forall v, i :: 0 <= v < |h| && h[v].Box? && 0 <= i < |h[v].items| ==>
      h[v].items[i] < if Mutable(h[v].kind) then |h| else v
  }

  /** A dict, list or set: what can be changed after it was made, and so can be shared. */
  predicate IsContainer(h: Heap, v: Id) { v < |h| && h[v].Box? && h[v].kind in {DictBox, ListBox, SetBox} }

  function Containers(h: Heap): set<Id> { set v | 0 <= v < |h| && IsContainer(h, v) }

  // ----- the walk

  /** Whether the value is plain, and the containers seen by then. */
  function Walk(h: Heap, v: Id, seen: set<Id>): (r: (bool, set<Id>))
    requires WellFormed(h) && v < |h| && seen <= Containers(h)
    ensures seen <= r.1 <= Containers(h)
    decreases |Containers(h) - seen|, v, 1, 0
  {
    match h[v]
    case Leaf(_) => (true, seen)
    case Other => (false, seen)
    case Box(kind, items) =>
      if !Mutable(kind) then WalkAll(h, items, v, seen)
      else if v in seen then (false, seen)
      else
        assert Containers(h) - (seen + {v}) < Containers(h) - seen;
        Shrinks(Containers(h) - (seen + {v}), Containers(h) - seen);
        WalkAll(h, items, |h|, seen + {v})
  }

  function WalkAll(h: Heap, vs: seq<Id>, top: nat, seen: set<Id>): (r: (bool, set<Id>))
    requires WellFormed(h) && (forall i :: 0 <= i < |vs| ==> vs[i] < top) && top <= |h| && seen <= Containers(h)
    ensures seen <= r.1 <= Containers(h)
    decreases |Containers(h) - seen|, top, 0, |vs|
  {
    if vs == [] then (true, seen)
    else
      var r := Walk(h, vs[0], seen);
      if !r.0 then r
      else
        Shrinks(Containers(h) - r.1, Containers(h) - seen);
        WalkAll(h, vs[1..], top, r.1)
  }

  lemma {:induction false} Shrinks<T>(a: set<T>, b: set<T>)
    requires a <= b
    ensures |a| <= |b| && (a != b ==> |a| < |b|)
  {
    assert b == a + (b - a);
    if b - a != {} { assert |b - a| > 0; }
  }

  // ----- what it decides

  /** The object a path of positions leads to from `v`. */
  function At(h: Heap, v: Id, path: seq<nat>): Option<Id>
    decreases |path|, 1
  {
    if v >= |h| then None
    else if path == [] then Some(v)
    else if h[v].Box? then AtIn(h, h[v].items, path)
    else None
  }

  function AtIn(h: Heap, vs: seq<Id>, path: seq<nat>): Option<Id>
    decreases |path|, 0
  {
    if path != [] && path[0] < |vs| then At(h, vs[path[0]], path[1..]) else None
  }

  ghost predicate FineAt(h: Heap, n: Option<Id>, seen: set<Id>) {
    n.Some? && n.value < |h| ==> !h[n.value].Other? && (IsContainer(h, n.value) ==> n.value !in seen)
  }

  ghost predicate OnceAt(h: Heap, m: Option<Id>, n: Option<Id>, p: seq<nat>, q: seq<nat>) {
    m == n && m.Some? && IsContainer(h, m.value) ==> p == q
  }

  /** Everything below `v` is of a plain type, and each mutable container is on exactly one
      path from it, and not in `seen`. */
  ghost predicate Clean(h: Heap, v: Id, seen: set<Id>) {
    && (forall p :: FineAt(h, At(h, v, p), seen))
    && (forall p, q :: OnceAt(h, At(h, v, p), At(h, v, q), p, q))
  }

  ghost predicate CleanAll(h: Heap, vs: seq<Id>, seen: set<Id>) {
    && (forall p :: FineAt(h, AtIn(h, vs, p), seen))
    && (forall p, q :: OnceAt(h, AtIn(h, vs, p), AtIn(h, vs, q), p, q))
  }

  ghost predicate Below(h: Heap, v: Id, n: Id) { exists p :: At(h, v, p) == Some(n) }

  ghost predicate BelowAny(h: Heap, vs: seq<Id>, n: Id) { exists p :: AtIn(h, vs, p) == Some(n) }

  ghost function Met(h: Heap, v: Id): set<Id> { set n | n in Containers(h) && Below(h, v, n) }

  ghost function MetAny(h: Heap, vs: seq<Id>): set<Id> { set n | n in Containers(h) && BelowAny(h, vs, n) }

  // ----- a box and its elements

  lemma BoxClean(h: Heap, v: Id, seen: set<Id>)
    requires v < |h| && h[v].Box?
    ensures Clean(h, v, seen) <==> (IsContainer(h, v) ==> v !in seen)
                                   && CleanAll(h, h[v].items, if IsContainer(h, v) then seen + {v} else seen)
  {
    var vs := h[v].items;
    var seen' := if IsContainer(h, v) then seen + {v} else seen;
    if Clean(h, v, seen) { BoxCleanThen(h, v, seen); }
    if (IsContainer(h, v) ==> v !in seen) && CleanAll(h, vs, seen') { BoxCleanIf(h, v, seen); }
  }

  lemma BoxCleanThen(h: Heap, v: Id, seen: set<Id>)
    requires v < |h| && h[v].Box? && Clean(h, v, seen)
    ensures IsContainer(h, v) ==> v !in seen
    ensures CleanAll(h, h[v].items, if IsContainer(h, v) then seen + {v} else seen)
  {
    var vs := h[v].items;
    var seen' := if IsContainer(h, v) then seen + {v} else seen;
    assert FineAt(h, At(h, v, []), seen);
    forall p ensures FineAt(h, AtIn(h, vs, p), seen') {
      if p != [] {
        assert At(h, v, p) == AtIn(h, vs, p);
        assert FineAt(h, At(h, v, p), seen) && OnceAt(h, At(h, v, p), At(h, v, []), p, []);
      }
    }
    forall p, q ensures OnceAt(h, AtIn(h, vs, p), AtIn(h, vs, q), p, q) {
      if p != [] && q != [] {
        assert At(h, v, p) == AtIn(h, vs, p) && At(h, v, q) == AtIn(h, vs, q);
        assert OnceAt(h, At(h, v, p), At(h, v, q), p, q);
      }
    }
  }

  lemma BoxCleanIf(h: Heap, v: Id, seen: set<Id>)
    requires v < |h| && h[v].Box? && (IsContainer(h, v) ==> v !in seen)
    requires CleanAll(h, h[v].items, if IsContainer(h, v) then seen + {v} else seen)
    ensures Clean(h, v, seen)
  {
    var vs := h[v].items;
    var seen' := if IsContainer(h, v) then seen + {v} else seen;
    forall p ensures FineAt(h, At(h, v, p), seen) {
      assert FineAt(h, AtIn(h, vs, p), seen');
    }
    forall p, q ensures OnceAt(h, At(h, v, p), At(h, v, q), p, q) {
      assert OnceAt(h, AtIn(h, vs, p), AtIn(h, vs, q), p, q);
      assert FineAt(h, AtIn(h, vs, p), seen') && FineAt(h, AtIn(h, vs, q), seen');
    }
  }

  lemma BoxMet(h: Heap, v: Id)
    requires v < |h| && h[v].Box?
    ensures Met(h, v) == MetAny(h, h[v].items) + if IsContainer(h, v) then {v} else {}
  {
    var vs := h[v].items;
    forall n | n in Met(h, v) && n != v ensures n in MetAny(h, vs) {
      var p :| At(h, v, p) == Some(n);
      assert AtIn(h, vs, p) == Some(n);
    }
    forall n | n in MetAny(h, vs) ensures n in Met(h, v) {
      var p :| AtIn(h, vs, p) == Some(n);
      assert At(h, v, p) == Some(n);
    }
    if IsContainer(h, v) { assert At(h, v, []) == Some(v); }
  }

  // ----- a list and its head

  lemma HeadPath(h: Heap, vs: seq<Id>, p: seq<nat>)
    requires vs != []
    ensures AtIn(h, vs, [0] + p) == At(h, vs[0], p)
    ensures p != [] ==> AtIn(h, vs, [p[0] + 1] + p[1..]) == AtIn(h, vs[1..], p)
  {
    assert ([0] + p)[1..] == p;
    if p != [] { assert ([p[0] + 1] + p[1..])[1..] == p[1..]; }
  }

  lemma HeadApart(h: Heap, vs: seq<Id>, seen: set<Id>, p: seq<nat>, q: seq<nat>)
    requires vs != [] && CleanAll(h, vs, seen) && p != []
    requires AtIn(h, vs[1..], p).Some? && AtIn(h, vs[1..], p).value in Containers(h)
    ensures At(h, vs[0], q) != AtIn(h, vs[1..], p)
  {
    var r := [p[0] + 1] + p[1..];
    HeadPath(h, vs, p);
    HeadPath(h, vs, q);
    assert r[0] != ([0] + q)[0];
    assert OnceAt(h, AtIn(h, vs, r), AtIn(h, vs, [0] + q), r, [0] + q);
  }

  lemma ListCleanThen(h: Heap, vs: seq<Id>, seen: set<Id>)
    requires vs != [] && CleanAll(h, vs, seen)
    ensures Clean(h, vs[0], seen) && CleanAll(h, vs[1..], seen + Met(h, vs[0]))
  {
    forall p ensures FineAt(h, At(h, vs[0], p), seen) {
      HeadPath(h, vs, p);
      assert FineAt(h, AtIn(h, vs, [0] + p), seen);
    }
    forall p, q ensures OnceAt(h, At(h, vs[0], p), At(h, vs[0], q), p, q) {
      HeadPath(h, vs, p);
      HeadPath(h, vs, q);
      assert OnceAt(h, AtIn(h, vs, [0] + p), AtIn(h, vs, [0] + q), [0] + p, [0] + q);
      assert ([0] + p)[1..] == p && ([0] + q)[1..] == q;
    }
    forall p ensures FineAt(h, AtIn(h, vs[1..], p), seen + Met(h, vs[0])) {
      if p != [] {
        var r := [p[0] + 1] + p[1..];
        HeadPath(h, vs, p);
        assert FineAt(h, AtIn(h, vs, r), seen);
        var n := AtIn(h, vs[1..], p);
        if n.Some? && n.value in Containers(h) {
          forall q ensures At(h, vs[0], q) != n { HeadApart(h, vs, seen, p, q); }
          assert !Below(h, vs[0], n.value);
        }
      }
    }
    forall p, q ensures OnceAt(h, AtIn(h, vs[1..], p), AtIn(h, vs[1..], q), p, q) {
      if p != [] && q != [] {
        var r, t := [p[0] + 1] + p[1..], [q[0] + 1] + q[1..];
        HeadPath(h, vs, p);
        HeadPath(h, vs, q);
        assert OnceAt(h, AtIn(h, vs, r), AtIn(h, vs, t), r, t);
        assert p == [r[0] - 1] + r[1..] && q == [t[0] - 1] + t[1..];
      }
    }
  }

  /** Where a path into a list goes: into its head or into the rest. */
  lemma ListPath(h: Heap, vs: seq<Id>, p: seq<nat>)
    requires vs != [] && p != []
    ensures p[0] == 0 ==> AtIn(h, vs, p) == At(h, vs[0], p[1..])
    ensures p[0] > 0 ==> AtIn(h, vs, p) == AtIn(h, vs[1..], [p[0] - 1] + p[1..])
  {
    if p[0] > 0 { assert ([p[0] - 1] + p[1..])[1..] == p[1..]; }
  }

  lemma ListCleanIf(h: Heap, vs: seq<Id>, seen: set<Id>)
    requires vs != [] && Clean(h, vs[0], seen) && CleanAll(h, vs[1..], seen + Met(h, vs[0]))
    ensures CleanAll(h, vs, seen)
  {
    forall p ensures FineAt(h, AtIn(h, vs, p), seen) {
      if p != [] {
        ListPath(h, vs, p);
        if p[0] == 0 { assert FineAt(h, At(h, vs[0], p[1..]), seen); }
        else { assert FineAt(h, AtIn(h, vs[1..], [p[0] - 1] + p[1..]), seen + Met(h, vs[0])); }
      }
    }
    forall p, q ensures OnceAt(h, AtIn(h, vs, p), AtIn(h, vs, q), p, q) {
      if p != [] && q != [] { ListOnce(h, vs, seen, p, q); }
    }
  }

  lemma ListOnce(h: Heap, vs: seq<Id>, seen: set<Id>, p: seq<nat>, q: seq<nat>)
    requires vs != [] && Clean(h, vs[0], seen) && CleanAll(h, vs[1..], seen + Met(h, vs[0])) && p != [] && q != []
    ensures OnceAt(h, AtIn(h, vs, p), AtIn(h, vs, q), p, q)
  {
    ListPath(h, vs, p);
    ListPath(h, vs, q);
    if p[0] == 0 && q[0] == 0 {
      assert OnceAt(h, At(h, vs[0], p[1..]), At(h, vs[0], q[1..]), p[1..], q[1..]);
      assert p == [p[0]] + p[1..] && q == [q[0]] + q[1..];
    } else if p[0] > 0 && q[0] > 0 {
      var r, t := [p[0] - 1] + p[1..], [q[0] - 1] + q[1..];
      assert OnceAt(h, AtIn(h, vs[1..], r), AtIn(h, vs[1..], t), r, t);
      assert p == [r[0] + 1] + r[1..] && q == [t[0] + 1] + t[1..];
    } else if p[0] == 0 {
      HeadElsewhere(h, vs, seen, p[1..], [q[0] - 1] + q[1..]);
    } else {
      HeadElsewhere(h, vs, seen, q[1..], [p[0] - 1] + p[1..]);
    }
  }

  lemma HeadElsewhere(h: Heap, vs: seq<Id>, seen: set<Id>, p: seq<nat>, q: seq<nat>)
    requires vs != [] && CleanAll(h, vs[1..], seen + Met(h, vs[0]))
    ensures var m := At(h, vs[0], p); m.Some? && IsContainer(h, m.value) ==> m != AtIn(h, vs[1..], q)
  {
    var m := At(h, vs[0], p);
    if m.Some? && IsContainer(h, m.value) {
      assert Below(h, vs[0], m.value) && m.value in Met(h, vs[0]);
      assert FineAt(h, AtIn(h, vs[1..], q), seen + Met(h, vs[0]));
    }
  }

  lemma ListMet(h: Heap, vs: seq<Id>)
    requires vs != []
    ensures MetAny(h, vs) == Met(h, vs[0]) + MetAny(h, vs[1..])
  {
    forall n | n in MetAny(h, vs) ensures n in Met(h, vs[0]) + MetAny(h, vs[1..]) {
      var p :| AtIn(h, vs, p) == Some(n);
      ListPath(h, vs, p);
      if p[0] == 0 { assert Below(h, vs[0], n); } else { assert BelowAny(h, vs[1..], n); }
    }
    forall n | n in Met(h, vs[0]) ensures n in MetAny(h, vs) {
      var p :| At(h, vs[0], p) == Some(n);
      HeadPath(h, vs, p);
    }
    forall n | n in MetAny(h, vs[1..]) ensures n in MetAny(h, vs) {
      var p :| AtIn(h, vs[1..], p) == Some(n);
      HeadPath(h, vs, p);
    }
  }

  // ----- the walk is exact

  lemma {:induction false} WalkExact(h: Heap, v: Id, seen: set<Id>)
    requires WellFormed(h) && v < |h| && seen <= Containers(h)
    ensures var r := Walk(h, v, seen);
            && (r.0 <==> Clean(h, v, seen))
            && (r.0 ==> r.1 == seen + Met(h, v))
    decreases |Containers(h) - seen|, v, 1, 0
  {
    if !h[v].Box? {
      LeafExact(h, v, seen);
    } else {
      BoxClean(h, v, seen);
      BoxMet(h, v);
      if !Mutable(h[v].kind) {
        WalkAllExact(h, h[v].items, v, seen);
      } else if v !in seen {
        Shrinks(Containers(h) - (seen + {v}), Containers(h) - seen);
        assert v in Containers(h) - seen;
        WalkAllExact(h, h[v].items, |h|, seen + {v});
      }
    }
  }

  lemma LeafExact(h: Heap, v: Id, seen: set<Id>)
    requires v < |h| && !h[v].Box?
    ensures Clean(h, v, seen) <==> h[v].Leaf?
    ensures Met(h, v) == {}
  {
    assert FineAt(h, At(h, v, []), seen) <==> h[v].Leaf?;
    forall p | p != [] ensures At(h, v, p).None? {}
    assert h[v].Leaf? ==> Clean(h, v, seen);
  }

  lemma {:induction false} WalkAllExact(h: Heap, vs: seq<Id>, top: nat, seen: set<Id>)
    requires WellFormed(h) && (forall i :: 0 <= i < |vs| ==> vs[i] < top) && top <= |h| && seen <= Containers(h)
    ensures var r := WalkAll(h, vs, top, seen);
            && (r.0 <==> CleanAll(h, vs, seen))
            && (r.0 ==> r.1 == seen + MetAny(h, vs))
    decreases |Containers(h) - seen|, top, 0, |vs|
  {
    if vs != [] {
      var r := Walk(h, vs[0], seen);
      WalkExact(h, vs[0], seen);
      if CleanAll(h, vs, seen) { ListCleanThen(h, vs, seen); }
      if r.0 {
        Shrinks(Containers(h) - r.1, Containers(h) - seen);
        WalkAllExact(h, vs[1..], top, r.1);
        if CleanAll(h, vs[1..], r.1) { ListCleanIf(h, vs, seen); }
        ListMet(h, vs);
      }
    }
  }

  ghost predicate IsPlain(h: Heap, v: Id)
    requires WellFormed(h) && v < |h|
  {
    Walk(h, v, {}).0
  }

  /** The walk, which ends on every graph, accepts a value exactly when everything in it is
      of a plain type and every mutable container is on exactly one path from the root. */
  lemma PlainIsUnshared(h: Heap, v: Id)
    requires WellFormed(h) && v < |h|
    ensures IsPlain(h, v) <==> Clean(h, v, {})
  {
    WalkExact(h, v, {});
  }
}
