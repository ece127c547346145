/** Reading a literal back: what is accepted comes back the same, aliases included, and
    nothing else would. */
module PlainRebuild {
  import opened Basics
  import opened Plain

  datatype Lit = Text(text: string) | Group(kind: Kind, items: seq<Lit>)

  /** The literal of `v`, were it written out, is `lit`. */
  predicate Represents(h: Heap, v: Id, lit: Lit)
    decreases lit
  {
    && v < |h|
    && match lit
       case Text(t) => h[v] == Leaf(t)
       case Group(k, ls) =>
         h[v].Box? && h[v].kind == k && |h[v].items| == |ls|
         && forall i :: 0 <= i < |ls| ==> Represents(h, h[v].items[i], ls[i])
  }

  // ----- every accepted value has a literal

  function LiteralOf(h: Heap, v: Id, seen: set<Id>): (r: Lit)
    requires WellFormed(h) && v < |h| && seen <= Containers(h) && Walk(h, v, seen).0
    ensures Represents(h, v, r)
    decreases |Containers(h) - seen|, v, 1, 0
  {
    match h[v]
    case Leaf(t) => Text(t)
    case Box(kind, items) =>
      if !Mutable(kind) then Group(kind, LiteralsOf(h, items, v, seen))
      else
        Shrinks(Containers(h) - (seen + {v}), Containers(h) - seen);
        assert v in Containers(h) - seen;
        Group(kind, LiteralsOf(h, items, |h|, seen + {v}))
  }

  function LiteralsOf(h: Heap, vs: seq<Id>, top: nat, seen: set<Id>): (r: seq<Lit>)
    requires WellFormed(h) && (forall i :: 0 <= i < |vs| ==> vs[i] < top) && top <= |h| && seen <= Containers(h)
    requires WalkAll(h, vs, top, seen).0
    ensures |r| == |vs| && forall i :: 0 <= i < |vs| ==> Represents(h, vs[i], r[i])
    decreases |Containers(h) - seen|, top, 0, |vs|
  {
    if vs == [] then []
    else
      var next := Walk(h, vs[0], seen).1;
      Shrinks(Containers(h) - next, Containers(h) - seen);
      [LiteralOf(h, vs[0], seen)] + LiteralsOf(h, vs[1..], top, next)
  }

  // ----- reading it back

  /** Evaluate a literal: new objects, elements before their box. */
  function Build(lit: Lit, h: Heap): (r: (Heap, Id))
    ensures h <= r.0 && |h| < |r.0| && r.1 == |r.0| - 1
    decreases lit
  {
    match lit
    case Text(t) => (h + [Leaf(t)], |h|)
    case Group(k, ls) => var r := BuildAll(ls, h); (r.0 + [Box(k, r.1)], |r.0|)
  }

  function BuildAll(ls: seq<Lit>, h: Heap): (r: (Heap, seq<Id>))
    ensures h <= r.0 && |r.1| == |ls|
    ensures forall i :: 0 <= i < |ls| ==> |h| <= r.1[i] < |r.0|
    decreases ls
  {
    if ls == [] then (h, [])
    else
      var a := Build(ls[0], h);
      var b := BuildAll(ls[1..], a.0);
      (b.0, [a.1] + b.1)
  }

  /** The objects reached from `v` lie from `low` on, each on one path only. */
  ghost predicate Tree(h: Heap, v: Id, low: nat) {
    && (forall p :: RangeAt(At(h, v, p), low, |h|))
    && (forall p, q :: PathAt(At(h, v, p), At(h, v, q), p, q))
  }

  ghost predicate Forest(h: Heap, vs: seq<Id>, low: nat) {
    && (forall p :: RangeAt(AtIn(h, vs, p), low, |h|))
    && (forall p, q :: PathAt(AtIn(h, vs, p), AtIn(h, vs, q), p, q))
  }

  predicate RangeAt(n: Option<Id>, low: nat, high: nat) { n.Some? ==> low <= n.value < high }

  predicate PathAt(m: Option<Id>, n: Option<Id>, p: seq<nat>, q: seq<nat>) { m == n && m.Some? ==> p == q }

  /** A longer heap does not change what an older one holds. */
  lemma {:induction false} AtOlder(h: Heap, g: Heap, v: Id, p: seq<nat>)
    requires WellFormed(h) && h <= g && v < |h|
    ensures At(g, v, p) == At(h, v, p) && (At(h, v, p).Some? ==> At(h, v, p).value < |h|)
    decreases |p|
  {
    if p != [] && h[v].Box? && p[0] < |h[v].items| { AtOlder(h, g, h[v].items[p[0]], p[1..]); }
  }

  lemma {:induction false} RepresentsOlder(h: Heap, g: Heap, v: Id, lit: Lit)
    requires h <= g && Represents(h, v, lit)
    ensures Represents(g, v, lit)
    decreases lit
  {
    if lit.Group? {
      forall i | 0 <= i < |lit.items| ensures Represents(g, g[v].items[i], lit.items[i]) {
        RepresentsOlder(h, g, h[v].items[i], lit.items[i]);
      }
    }
  }

  lemma {:induction false} BuildIsRight(lit: Lit, h: Heap)
    requires WellFormed(h)
    ensures var r := Build(lit, h); WellFormed(r.0) && Represents(r.0, r.1, lit) && Tree(r.0, r.1, |h|)
    decreases lit
  {
    var r := Build(lit, h);
    if lit.Group? {
      BuildAllIsRight(lit.items, h);
      var b := BuildAll(lit.items, h);
      forall i | 0 <= i < |lit.items| ensures Represents(r.0, b.1[i], lit.items[i]) {
        RepresentsOlder(b.0, r.0, b.1[i], lit.items[i]);
      }
      BoxTree(b.0, b.1, lit.kind, |h|);
    } else {
      LeafTree(h, lit.text);
    }
  }

  lemma LeafTree(h: Heap, t: string)
    requires WellFormed(h)
    ensures WellFormed(h + [Leaf(t)]) && Tree(h + [Leaf(t)], |h|, |h|)
  {
    var g := h + [Leaf(t)];
    forall p | p != [] ensures At(g, |h|, p).None? {}
  }

  lemma BoxTree(h: Heap, vs: seq<Id>, k: Kind, low: nat)
    requires WellFormed(h) && Forest(h, vs, low) && low <= |h| && forall i :: 0 <= i < |vs| ==> vs[i] < |h|
    ensures WellFormed(h + [Box(k, vs)]) && Tree(h + [Box(k, vs)], |h|, low)
  {
    var g := h + [Box(k, vs)];
    forall p | p != [] ensures At(g, |h|, p) == AtIn(h, vs, p) {
      if p[0] < |vs| { AtOlder(h, g, vs[p[0]], p[1..]); }
    }
    forall p ensures RangeAt(At(g, |h|, p), low, |g|) { assert RangeAt(AtIn(h, vs, p), low, |h|); }
    forall p, q ensures PathAt(At(g, |h|, p), At(g, |h|, q), p, q) {
      assert PathAt(AtIn(h, vs, p), AtIn(h, vs, q), p, q);
      assert RangeAt(AtIn(h, vs, p), low, |h|) && RangeAt(AtIn(h, vs, q), low, |h|);
    }
  }

  lemma {:induction false} BuildAllIsRight(ls: seq<Lit>, h: Heap)
    requires WellFormed(h)
    ensures var r := BuildAll(ls, h);
            && WellFormed(r.0) && Forest(r.0, r.1, |h|)
            && forall i :: 0 <= i < |ls| ==> Represents(r.0, r.1[i], ls[i])
    decreases ls
  {
    if ls != [] {
      var a := Build(ls[0], h);
      BuildIsRight(ls[0], h);
      BuildAllIsRight(ls[1..], a.0);
      var b := BuildAll(ls[1..], a.0);
      RepresentsOlder(a.0, b.0, a.1, ls[0]);
      JoinForest(a.0, a.1, b.0, b.1, |h|);
      assert ([a.1] + b.1)[1..] == b.1;
    }
  }

  /** A tree below `|h|` and a forest from there on have no object in common. */
  lemma JoinForest(h: Heap, v: Id, g: Heap, vs: seq<Id>, low: nat)
    requires WellFormed(h) && WellFormed(g) && h <= g && v < |h| && low <= |h|
    requires Tree(h, v, low) && Forest(g, vs, |h|)
    ensures Forest(g, [v] + vs, low)
  {
    var ws := [v] + vs;
    assert ws[1..] == vs;
    forall p ensures AtIn(g, ws, p) == if p == [] then None else if p[0] == 0 then At(h, v, p[1..])
                                       else AtIn(g, vs, [p[0] - 1] + p[1..]) {
      if p != [] {
        ListPath(g, ws, p);
        AtOlder(h, g, v, p[1..]);
      }
    }
    forall p ensures RangeAt(AtIn(g, ws, p), low, |g|) {
      if p != [] {
        assert RangeAt(At(h, v, p[1..]), low, |h|);
        assert p[0] > 0 ==> RangeAt(AtIn(g, vs, [p[0] - 1] + p[1..]), |h|, |g|);
      }
    }
    forall p, q ensures PathAt(AtIn(g, ws, p), AtIn(g, ws, q), p, q) {
      if p != [] && q != [] { JoinPaths(h, v, g, vs, low, p, q); }
    }
  }

  lemma JoinPaths(h: Heap, v: Id, g: Heap, vs: seq<Id>, low: nat, p: seq<nat>, q: seq<nat>)
    requires Tree(h, v, low) && Forest(g, vs, |h|) && p != [] && q != []
    ensures var m := if p[0] == 0 then At(h, v, p[1..]) else AtIn(g, vs, [p[0] - 1] + p[1..]);
            var n := if q[0] == 0 then At(h, v, q[1..]) else AtIn(g, vs, [q[0] - 1] + q[1..]);
            PathAt(m, n, p, q)
  {
    assert p == [p[0]] + p[1..] && q == [q[0]] + q[1..];
    assert RangeAt(At(h, v, p[1..]), low, |h|) && RangeAt(At(h, v, q[1..]), low, |h|);
    if p[0] == 0 && q[0] == 0 {
      assert PathAt(At(h, v, p[1..]), At(h, v, q[1..]), p[1..], q[1..]);
    } else if p[0] > 0 && q[0] > 0 {
      var r, t := [p[0] - 1] + p[1..], [q[0] - 1] + q[1..];
      assert PathAt(AtIn(g, vs, r), AtIn(g, vs, t), r, t);
      assert r[1..] == p[1..] && t[1..] == q[1..];
    } else if p[0] > 0 {
      assert RangeAt(AtIn(g, vs, [p[0] - 1] + p[1..]), |h|, |g|);
    } else {
      assert RangeAt(AtIn(g, vs, [q[0] - 1] + q[1..]), |h|, |g|);
    }
  }

  // ----- the same value

  predicate SameNode(a: Node, b: Node) {
    if a.Box? then b.Box? && b.kind == a.kind && |b.items| == |a.items| else a == b
  }

  ghost predicate ShapeAt(h: Heap, m: Option<Id>, g: Heap, n: Option<Id>) {
    m.Some? == n.Some? && (m.Some? ==> m.value < |h| && n.value < |g| && SameNode(h[m.value], g[n.value]))
  }

  /** Two paths to one mutable container lead to one in the other heap, and back. */
  ghost predicate AliasAt(h: Heap, m: Option<Id>, n: Option<Id>, m': Option<Id>, n': Option<Id>) {
    m.Some? && n.Some? && IsContainer(h, m.value) && IsContainer(h, n.value) ==> (m == n <==> m' == n')
  }

  /** The value of `v` in `h` and that of `w` in `g` are the same, path by path, aliases of
      mutable containers included. */
  ghost predicate Isomorphic(h: Heap, v: Id, g: Heap, w: Id) {
    && (forall p :: ShapeAt(h, At(h, v, p), g, At(g, w, p)))
    && (forall p, q :: AliasAt(h, At(h, v, p), At(h, v, q), At(g, w, p), At(g, w, q)))
  }

  lemma {:induction false} SameLiteralSameShape(h: Heap, v: Id, g: Heap, w: Id, lit: Lit, p: seq<nat>)
    requires Represents(h, v, lit) && Represents(g, w, lit)
    ensures ShapeAt(h, At(h, v, p), g, At(g, w, p))
    decreases |p|
  {
    if p != [] && lit.Group? && p[0] < |lit.items| {
      SameLiteralSameShape(h, h[v].items[p[0]], g, g[w].items[p[0]], lit.items[p[0]], p[1..]);
    }
  }

  /** A value that has a literal is restored by it exactly when the walk accepts it. */
  lemma RestoredWhenPlain(h: Heap, v: Id, lit: Lit)
    requires WellFormed(h) && Represents(h, v, lit)
    ensures var r := Build(lit, []); IsPlain(h, v) <==> Isomorphic(h, v, r.0, r.1)
  {
    var (g, w) := Build(lit, []);
    BuildIsRight(lit, []);
    PlainIsUnshared(h, v);
    forall p ensures ShapeAt(h, At(h, v, p), g, At(g, w, p)) { SameLiteralSameShape(h, v, g, w, lit, p); }
    if IsPlain(h, v) {
      forall p, q ensures AliasAt(h, At(h, v, p), At(h, v, q), At(g, w, p), At(g, w, q)) {
        assert OnceAt(h, At(h, v, p), At(h, v, q), p, q) && PathAt(At(g, w, p), At(g, w, q), p, q);
        assert ShapeAt(h, At(h, v, p), g, At(g, w, p));
      }
    }
    if Isomorphic(h, v, g, w) { RestoredIsClean(h, v, g, w, lit); }
  }

  lemma RestoredIsClean(h: Heap, v: Id, g: Heap, w: Id, lit: Lit)
    requires Represents(h, v, lit) && Isomorphic(h, v, g, w) && Tree(g, w, 0)
    ensures Clean(h, v, {})
  {
    forall p ensures FineAt(h, At(h, v, p), {}) { NotOther(h, v, lit, p); }
    forall p, q ensures OnceAt(h, At(h, v, p), At(h, v, q), p, q) {
      assert AliasAt(h, At(h, v, p), At(h, v, q), At(g, w, p), At(g, w, q));
      assert PathAt(At(g, w, p), At(g, w, q), p, q) && ShapeAt(h, At(h, v, p), g, At(g, w, p));
    }
  }

  lemma {:induction false} NotOther(h: Heap, v: Id, lit: Lit, p: seq<nat>)
    requires Represents(h, v, lit)
    ensures FineAt(h, At(h, v, p), {})
    decreases |p|
  {
    if p != [] && lit.Group? && p[0] < |lit.items| { NotOther(h, h[v].items[p[0]], lit.items[p[0]], p[1..]); }
  }

  // ----- what reads back as a literal

  /** The literal's text can be read back. `reading` says of which leaves that is so, and no
      text of a frozenset is a literal. */
  predicate Readable(lit: Lit, reading: string -> bool) {
    match lit
    case Text(t) => reading(t)
    case Group(k, ls) => !k.FrozenBox? && forall i :: 0 <= i < |ls| ==> Readable(ls[i], reading)
  }

  ghost predicate ReadAt(h: Heap, n: Option<Id>, reading: string -> bool) {
    n.Some? && n.value < |h| ==>
      match h[n.value]
      case Leaf(t) => reading(t)
      case Box(k, _) => !k.FrozenBox?
      case Other => false
  }

  lemma {:induction false} ReadablePaths(h: Heap, v: Id, lit: Lit, reading: string -> bool, p: seq<nat>)
    requires Represents(h, v, lit) && Readable(lit, reading)
    ensures ReadAt(h, At(h, v, p), reading)
    decreases |p|
  {
    if p != [] && lit.Group? && p[0] < |lit.items| {
      ReadablePaths(h, h[v].items[p[0]], lit.items[p[0]], reading, p[1..]);
    }
  }

  /** A literal reads back exactly when nothing it stands for is a frozenset or an unreadable
      leaf. */
  lemma {:induction false} ReadableWhen(h: Heap, v: Id, lit: Lit, reading: string -> bool)
    requires Represents(h, v, lit)
    ensures Readable(lit, reading) <==> forall p :: ReadAt(h, At(h, v, p), reading)
    decreases lit
  {
    if Readable(lit, reading) {
      forall p ensures ReadAt(h, At(h, v, p), reading) { ReadablePaths(h, v, lit, reading, p); }
    } else {
      var p := Unreadable(h, v, lit, reading);
    }
  }

  lemma {:induction false} Unreadable(h: Heap, v: Id, lit: Lit, reading: string -> bool) returns (p: seq<nat>)
    requires Represents(h, v, lit) && !Readable(lit, reading)
    ensures !ReadAt(h, At(h, v, p), reading)
    decreases lit
  {
    p := [];
    if lit.Group? && !lit.kind.FrozenBox? {
      var i :| 0 <= i < |lit.items| && !Readable(lit.items[i], reading);
      var q := Unreadable(h, h[v].items[i], lit.items[i], reading);
      p := [i] + q;
      assert p[1..] == q;
    }
  }

  /** An accepted value has a literal, and reading it back gives the same value. It can be read
      back unless something in the value has no literal of its own. */
  lemma PlainRoundTrip(h: Heap, v: Id, reading: string -> bool)
    requires WellFormed(h) && v < |h| && IsPlain(h, v)
    ensures var r := Build(LiteralOf(h, v, {}), []); Isomorphic(h, v, r.0, r.1)
    ensures Readable(LiteralOf(h, v, {}), reading) <==> forall p :: ReadAt(h, At(h, v, p), reading)
  {
    RestoredWhenPlain(h, v, LiteralOf(h, v, {}));
    ReadableWhen(h, v, LiteralOf(h, v, {}), reading);
  }
}
