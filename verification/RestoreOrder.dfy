/** When a restore leaves the same names and objects whatever the order of its loads. */
module RestoreOrder {
  import opened RestoreRuns

  /** A run that has loaded all that can load. Items may load more than once, as they do when
      a statement of the snapshot fails. */
  ghost predicate Complete(items: set<Item>, start: map<Name, Obj>, loads: seq<Item>) {
    && Enabled(start, loads) && Range(loads) <= items
    && forall x :: x in items && x.Loads(Play(start, loads).Keys) ==> x in loads
  }

  /** No two of the items that load bind the same name. */
  ghost predicate Apart(items: set<Item>, bound: set<Name>) {
    forall x, y, n :: x in items && y in items && x.Loads(bound) && y.Loads(bound) && n in x.Gives() && n in y.Gives() ==> x == y
  }

  /** No item that binds something needs a name which was bound before and which an item
      rebinds that it can do without. */
  ghost predicate Independent(items: set<Item>, base: set<Name>, bound: set<Name>) {
    forall x, y, n :: x in items && y in items && x.Loads(bound) && y.Loads(bound) && n in base ==> !Stale(items, base, x, y, n)
  }

  ghost predicate Stale(items: set<Item>, base: set<Name>, x: Item, y: Item, n: Name) {
    n in x.Gives() && n in y.needs && y.Gives() != {} && Derived(items - {x}, base, y.needs)
  }

  /** `g` is what the items mean together: whatever can load is bound to what it makes of
      `g` itself, and all other names are as they were. */
  ghost predicate Restored(items: set<Item>, start: map<Name, Obj>, g: map<Name, Obj>) {
    && Least(items, start.Keys, g.Keys)
    && (forall x, n :: x in items && x.Loads(g.Keys) && n in x.Gives() ==> IsMade(x, n, g))
    && forall n :: n in start && Untouched(items, g.Keys, n) ==> g[n] == start[n]
  }

  ghost predicate IsMade(x: Item, n: Name, g: map<Name, Obj>) { n in g && g[n] == Made(x, n, Part(g, x.needs)) }

  ghost predicate Untouched(items: set<Item>, bound: set<Name>, n: Name) {
    forall x :: x in items && x.Loads(bound) ==> n !in x.Gives()
  }

  lemma CompleteIsLeast(items: set<Item>, start: map<Name, Obj>, loads: seq<Item>)
    requires Complete(items, start, loads)
    ensures Least(items, start.Keys, Play(start, loads).Keys)
    ensures forall x :: x in loads ==> x in items && x.Loads(Play(start, loads).Keys)
  {
    PlayGrows(start, loads);
    PlayDerived(items, start, loads);
    forall x | x in loads ensures x in items { assert x in Range(loads); }
  }

  /** What the items mean together is one map: its names by their least set, its objects by
      what they are made of. */
  lemma RestoredIsUnique(items: set<Item>, start: map<Name, Obj>, a: map<Name, Obj>, b: map<Name, Obj>)
    requires Restored(items, start, a) && Restored(items, start, b)
    ensures a == b
  {
    assert a.Keys == b.Keys;
    forall n | n in a.Keys ensures a[n] == b[n] { SameMeaning(items, start, a, b, n); }
  }

  /** No object is made of itself. */
  lemma Inside(o: Obj, m: Name)
    requires o.Made? && m in o.inputs
    ensures o.inputs[m] < o && o.inputs[m] != o
  {
  }

  lemma {:induction false} SameMeaning(items: set<Item>, start: map<Name, Obj>, a: map<Name, Obj>, b: map<Name, Obj>, n: Name)
    requires Restored(items, start, a) && Restored(items, start, b) && a.Keys == b.Keys && n in a
    ensures a[n] == b[n]
    decreases a[n]
  {
    if Untouched(items, a.Keys, n) {
      BoundBySomething(items, start.Keys, a.Keys, n);
    } else {
      var x :| x in items && x.Loads(a.Keys) && n in x.Gives();
      assert IsMade(x, n, a) && IsMade(x, n, b);
      forall m | m in a && m in x.needs ensures a[m] == b[m] {
        assert a[n].inputs[m] == a[m];
        Inside(a[n], m);
        SameMeaning(items, start, a, b, m);
      }
      assert Part(a, x.needs) == Part(b, x.needs);
    }
  }

  lemma BoundBySomething(items: set<Item>, base: set<Name>, bound: set<Name>, n: Name)
    requires Least(items, base, bound) && n in bound && Untouched(items, bound, n)
    ensures n in base
  {
    if n !in base {
      var y := bound - {n};
      forall x | x in items && x.Loads(y) ensures x.Gives() <= y { assert x.Loads(bound); }
      assert Closed(items, y) && base <= y;
    }
  }

  /** What holds after any loads of items that stay apart and independent. */
  ghost predicate Settled(loads: seq<Item>, start: map<Name, Obj>, g: map<Name, Obj>) {
    && (forall x, n :: x in loads && n in x.Gives() ==> IsMade(x, n, g))
    && (forall n :: n in g ==> n in start || GivenBy(loads, n))
    && forall n :: n in start && !GivenBy(loads, n) ==> n in g && g[n] == start[n]
  }

  lemma {:induction false} LoadsSettle(items: set<Item>, start: map<Name, Obj>, bound: set<Name>, loads: seq<Item>)
    requires Enabled(start, loads) && Range(loads) <= items && Play(start, loads).Keys <= bound
    requires Apart(items, bound) && Independent(items, start.Keys, bound)
    ensures Settled(loads, start, Play(start, loads))
    decreases |loads|
  {
    if loads != [] {
      var k := |loads| - 1;
      EnabledPrefix(start, loads, k);
      assert LoadsAt(start, loads, k) && loads[k] in Range(loads);
      assert forall x :: x in loads[..k] ==> x in Range(loads);
      LoadsSettle(items, start, bound, loads[..k]);
      assert loads == loads[..k] + [loads[k]];
      SettlesOne(items, start, bound, loads[..k], loads[k]);
    }
  }

  lemma SettlesOne(items: set<Item>, start: map<Name, Obj>, bound: set<Name>, loads: seq<Item>, z: Item)
    requires Enabled(start, loads) && Range(loads) <= items && Play(start, loads).Keys <= bound
    requires Settled(loads, start, Play(start, loads)) && z in items && z.Loads(Play(start, loads).Keys)
    requires Apart(items, bound) && Independent(items, start.Keys, bound)
    ensures Settled(loads + [z], start, Play(start, loads) + z.Makes(Play(start, loads)))
  {
    var g := Play(start, loads);
    var after := g + z.Makes(g);
    PlayGrows(start, loads);
    forall x, n | x in loads + [z] && n in x.Gives() ensures IsMade(x, n, after) {
      assert x in items by { assert x in Range(loads) || x == z; }
      NeedsStay(items, start, bound, loads, z, x);
      if x != z {
        assert IsMade(x, n, g);
        assert n !in z.Gives();
      }
    }
    forall n ensures GivenBy(loads + [z], n) <==> GivenBy(loads, n) || n in z.Gives() {
      assert forall x :: x in loads + [z] <==> x in loads || x == z;
    }
  }

  /** A load changes no name that an item which has loaded, or is loading, needs. */
  lemma NeedsStay(items: set<Item>, start: map<Name, Obj>, bound: set<Name>, loads: seq<Item>, z: Item, x: Item)
    requires Enabled(start, loads) && Range(loads) <= items && Play(start, loads).Keys <= bound
    requires Settled(loads, start, Play(start, loads)) && z in items && z.Loads(Play(start, loads).Keys)
    requires (x in loads || x == z) && x in items && x.Gives() != {}
    requires Apart(items, bound) && Independent(items, start.Keys, bound)
    ensures var g := Play(start, loads); Part(g + z.Makes(g), x.needs) == Part(g, x.needs)
  {
    var g := Play(start, loads);
    forall m | m in x.needs && m in z.Gives() ensures IsMade(z, m, g) {
      NeedHasLoaded(items, start, bound, loads, z, x, m);
    }
  }

  /** Whatever gives what an item that has loaded needs, has loaded. */
  lemma NeedHasLoaded(items: set<Item>, start: map<Name, Obj>, bound: set<Name>, loads: seq<Item>, z: Item, x: Item, m: Name)
    requires Enabled(start, loads) && Range(loads) <= items && Play(start, loads).Keys <= bound
    requires Settled(loads, start, Play(start, loads)) && z in items && z.Loads(Play(start, loads).Keys)
    requires (x in loads || x == z) && x in items && x.Gives() != {} && m in x.needs && m in z.Gives()
    requires Apart(items, bound) && Independent(items, start.Keys, bound)
    ensures z in loads
  {
    PlayGrows(start, loads);
    if m in start && z !in loads {
      assert Range(loads) <= items - {z};
      PlayDerived(items - {z}, start, loads);
      assert Stale(items, start.Keys, z, x, m);
    }
  }

  /** A complete run of such items leaves what they mean together. */
  lemma MeanTogether(items: set<Item>, start: map<Name, Obj>, loads: seq<Item>)
    requires Complete(items, start, loads)
    requires Apart(items, Play(start, loads).Keys) && Independent(items, start.Keys, Play(start, loads).Keys)
    ensures Restored(items, start, Play(start, loads))
  {
    CompleteIsLeast(items, start, loads);
    LoadsSettle(items, start, Play(start, loads).Keys, loads);
  }

  lemma RunsAgree(items: set<Item>, start: map<Name, Obj>, a: seq<Item>, b: seq<Item>)
    requires Complete(items, start, a) && Complete(items, start, b)
    requires Apart(items, Play(start, a).Keys) && Independent(items, start.Keys, Play(start, a).Keys)
    ensures Play(start, a) == Play(start, b)
  {
    CompleteIsLeast(items, start, a);
    CompleteIsLeast(items, start, b);
    assert Play(start, a).Keys == Play(start, b).Keys;
    MeanTogether(items, start, a);
    MeanTogether(items, start, b);
    RestoredIsUnique(items, start, Play(start, a), Play(start, b));
  }

  // ----- and when it does

  /** Any run can be completed, without loading an item again. */
  lemma {:induction false} CanComplete(items: set<Item>, start: map<Name, Obj>, loads: seq<Item>) returns (more: seq<Item>)
    requires Enabled(start, loads) && Range(loads) <= items
    ensures Complete(items, start, loads + more)
    ensures forall x :: x in more ==> x !in loads
    decreases items - Range(loads)
  {
    if x :| x in items && x.Loads(Play(start, loads).Keys) && x !in loads {
      EnabledOne(start, loads, x);
      assert Range(loads + [x]) == Range(loads) + {x};
      var rest := CanComplete(items, start, loads + [x]);
      more := [x] + rest;
      assert loads + more == loads + [x] + rest;
      forall y | y in more ensures y !in loads { assert y == x || y !in loads + [x]; }
    } else {
      more := [];
      assert loads + [] == loads;
    }
  }

  /** One more load of an item after a complete run. */
  lemma OneMore(items: set<Item>, start: map<Name, Obj>, loads: seq<Item>, x: Item)
    requires Complete(items, start, loads) && x in loads
    ensures Complete(items, start, loads + [x])
    ensures Play(start, loads + [x]) == Play(start, loads) + x.Makes(Play(start, loads))
  {
    CompleteIsLeast(items, start, loads);
    EnabledOne(start, loads, x);
    PlayOne(start, loads, x);
    assert Play(start, loads + [x]).Keys == Play(start, loads).Keys by { PlayGrows(start, loads); }
    assert Range(loads + [x]) <= items by { assert x in Range(loads); }
    forall y | y in items && y.Loads(Play(start, loads).Keys) ensures y in loads + [x] { assert y in loads; }
  }

  ghost predicate OrderDoesNotMatter(items: set<Item>, start: map<Name, Obj>) {
    forall a, b :: Complete(items, start, a) && Complete(items, start, b) ==> Play(start, a) == Play(start, b)
  }

  lemma SharedNameMatters(items: set<Item>, start: map<Name, Obj>, loads: seq<Item>, x: Item, y: Item, n: Name)
    requires OrderDoesNotMatter(items, start) && Complete(items, start, loads)
    requires x in loads && y in loads && n in x.Gives() && n in y.Gives()
    ensures x == y
  {
    OneMore(items, start, loads, x);
    OneMore(items, start, loads, y);
    assert Play(start, loads + [x])[n].item == x && Play(start, loads + [y])[n].item == y;
  }

  lemma {:induction false} LastOne(loads: seq<Item>, n: Name) returns (k: nat)
    requires GivenBy(loads, n)
    ensures LastBinder(loads, n, k)
  {
    k := |loads| - 1;
    if n !in loads[k].Gives() {
      var x :| x in loads && n in x.Gives();
      assert loads == loads[..k] + [loads[k]];
      assert x in loads[..k];
      k := LastOne(loads[..k], n);
    }
  }

  /** An item that rebinds what it needs makes another object each time it loads. */
  lemma SelfMatters(items: set<Item>, start: map<Name, Obj>, loads: seq<Item>, x: Item, n: Name)
    requires Complete(items, start, loads) && x in loads && n in x.Gives() && n in x.needs
    ensures !OrderDoesNotMatter(items, start)
  {
    OneMore(items, start, loads, x);
    CompleteIsLeast(items, start, loads);
    Inside(Play(start, loads + [x])[n], n);
  }

  /** An item that rebinds a name which another one has used, and could use without it. */
  lemma StaleMatters(items: set<Item>, start: map<Name, Obj>, bound: set<Name>, x: Item, y: Item, n: Name)
    requires Least(items, start.Keys, bound) && Apart(items, bound)
    requires x in items && y in items && x.Loads(bound) && y.Loads(bound)
    requires n in start && start[n].Old? && Stale(items, start.Keys, x, y, n)
    ensures !OrderDoesNotMatter(items, start)
  {
    if x == y {
      var all := CanComplete(items, start, []);
      assert [] + all == all;
      CompleteIsLeast(items, start, all);
      SelfMatters(items, start, all, x, n);
    } else {
      var early := CanComplete(items - {x}, start, []);
      assert [] + early == early;
      CompleteIsLeast(items - {x}, start, early);
      assert y in early;
      var all := CanComplete(items, start, early);
      var m :| m in y.Gives();
      UsedEarly(items, start, bound, early, all, x, y, n, m);
    }
  }

  lemma UsedEarly(items: set<Item>, start: map<Name, Obj>, bound: set<Name>, early: seq<Item>, late: seq<Item>, x: Item, y: Item, n: Name, m: Name)
    requires Least(items, start.Keys, bound) && Apart(items, bound) && x in items && x.Loads(bound)
    requires Complete(items, start, early + late) && Range(early) <= items - {x} && y in early && y !in late
    requires n in start && start[n].Old? && n in x.Gives() && n in y.needs && m in y.Gives()
    ensures !OrderDoesNotMatter(items, start)
  {
    var all := early + late;
    CompleteIsLeast(items, start, all);
    assert Play(start, all).Keys == bound;
    assert y in all && GivenBy(all, n) by { assert x in all; }
    MadeOfOld(items, start, bound, early, late, x, y, n, m);
    var l := LastOne(all, n);
    LastLoadWins(start, all, n, l);
    Differs(items, start, all, y, n, m);
  }

  lemma Differs(items: set<Item>, start: map<Name, Obj>, loads: seq<Item>, y: Item, n: Name, m: Name)
    requires Complete(items, start, loads) && y in loads && n in y.needs && m in y.Gives()
    requires var g := Play(start, loads);
             n in g && m in g && g[m].Made? && n in g[m].inputs && g[m].inputs[n] != g[n]
    ensures !OrderDoesNotMatter(items, start)
  {
    OneMore(items, start, loads, y);
    assert Play(start, loads + [y])[m].inputs[n] == Play(start, loads)[n];
  }

  /** Before `x` loads the name still means what it meant at the start. */
  lemma MadeOfOld(items: set<Item>, start: map<Name, Obj>, bound: set<Name>, early: seq<Item>, late: seq<Item>, x: Item, y: Item, n: Name, m: Name)
    requires Complete(items, start, early + late) && Play(start, early + late).Keys == bound && Apart(items, bound)
    requires x in items && x.Loads(bound) && Range(early) <= items - {x} && y in early && y !in late
    requires n in start && n in x.Gives() && n in y.needs && m in y.Gives()
    ensures var g := Play(start, early + late);
            m in g && g[m].Made? && n in g[m].inputs && g[m].inputs[n] == start[n]
  {
    var all := early + late;
    CompleteIsLeast(items, start, all);
    assert y in all && GivenBy(all, m);
    var k := LastOne(all, m);
    LastLoadWins(start, all, m, k);
    assert all[k] in all && all[k] == y;
    assert forall i :: |early| <= i < |all| ==> all[i] in late;
    assert all[..k] == early[..k];
    forall z | z in all[..k] ensures n !in z.Gives() {
      assert z in early && z in Range(early) && z in all;
    }
    NoLoadBinds(start, all[..k], n);
  }

  /** The result is one map, whatever the order of the loads, if and only if the items that
      load bind no name twice and none of them uses a name that one it can do without rebinds.
      The namespace starts with objects of its own. */
  lemma OrderDoesNotMatterWhen(items: set<Item>, start: map<Name, Obj>, bound: set<Name>)
    requires Least(items, start.Keys, bound) && forall n :: n in start ==> start[n].Old?
    ensures OrderDoesNotMatter(items, start) <==> Apart(items, bound) && Independent(items, start.Keys, bound)
  {
    if OrderDoesNotMatter(items, start) {
      var all := CanComplete(items, start, []);
      assert [] + all == all;
      CompleteIsLeast(items, start, all);
      forall x, y, n | x in items && y in items && x.Loads(bound) && y.Loads(bound) && n in x.Gives() && n in y.Gives() ensures x == y {
        SharedNameMatters(items, start, all, x, y, n);
      }
      forall x, y, n | x in items && y in items && x.Loads(bound) && y.Loads(bound) && n in start.Keys && Stale(items, start.Keys, x, y, n) ensures false {
        StaleMatters(items, start, bound, x, y, n);
      }
    }
    if Apart(items, bound) && Independent(items, start.Keys, bound) {
      forall a, b | Complete(items, start, a) && Complete(items, start, b) ensures Play(start, a) == Play(start, b) {
        CompleteIsLeast(items, start, a);
        RunsAgree(items, start, a, b);
      }
    }
  }

  /** The shortest case: two items that bind one name and can both load at once. */
  lemma TwoOrders(start: map<Name, Obj>, x: Item, y: Item, n: Name)
    requires x != y && n in x.Gives() && n in y.Gives() && x.Loads(start.Keys) && y.Loads(start.Keys)
    ensures Enabled(start, [x, y]) && Enabled(start, [y, x])
    ensures Play(start, [x, y])[n].item == y && Play(start, [y, x])[n].item == x
  {
    TwoLoads(start, x, y);
    TwoLoads(start, y, x);
  }

  lemma TwoLoads(start: map<Name, Obj>, x: Item, y: Item)
    requires x.Loads(start.Keys) && y.Loads(start.Keys)
    ensures Enabled(start, [x, y])
    ensures var g := start + x.Makes(start); Play(start, [x, y]) == g + y.Makes(g)
  {
    EnabledOne(start, [], x);
    PlayOne(start, [], x);
    assert [] + [x] == [x];
    EnabledOne(start, [x], y);
    PlayOne(start, [x], y);
    assert [x] + [y] == [x, y];
  }
}
