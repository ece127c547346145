/** What `__vis_restore_defs__` restores: the values and statements of a snapshot, which names
    can come back, and what any sequence of loads leaves behind. */
module RestoreRuns {
  type Name = string

  /** A pickled value or a statement of the snapshot. It loads exactly when the names it
      needs are bound, and then binds what it gives. `scanned` is what the static scan
      says a statement may bind. */
  datatype Item =
    | Value(name: Name, needs: set<Name>, blob: nat)
    | Statement(at: nat, needs: set<Name>, gives: set<Name>, scanned: set<Name>)
  {
    function Gives(): set<Name> { if Value? then {name} else gives }

    function Scanned(): set<Name> { if Value? then {name} else scanned }

    predicate Loads(bound: set<Name>) { needs <= bound }

    predicate Clashes(prot: set<Name>) { Scanned() * prot != {} }

    /** The scan misses no name that the item binds. */
    predicate Sound() { Gives() <= Scanned() }

    /** What loading it in `g` binds: objects made from what the needed names mean then. */
    function Makes(g: map<Name, Obj>): map<Name, Obj> {
      map n | n in Gives() :: Made(this, n, Part(g, needs))
    }
  }

  /** An object that was there before, or one that an item made out of others. Nothing is
      said of how it is made: items, names or inputs that differ give objects that differ. */
  datatype Obj = Old(id: nat) | Made(item: Item, name: Name, inputs: map<Name, Obj>)

  function Part(g: map<Name, Obj>, names: set<Name>): map<Name, Obj> { map n | n in g && n in names :: g[n] }

  // ----- what there is to load

  ghost predicate Closed(items: set<Item>, bound: set<Name>) {
    forall x :: x in items && x.Loads(bound) ==> x.Gives() <= bound
  }

  /** `bound` lies in every set of names that has `base` and is closed under the items. */
  ghost predicate Derived(items: set<Item>, base: set<Name>, bound: set<Name>) {
    forall y: set<Name> :: base <= y && Closed(items, y) ==> bound <= y
  }

  ghost predicate Least(items: set<Item>, base: set<Name>, bound: set<Name>) {
    base <= bound && Closed(items, bound) && Derived(items, base, bound)
  }

  /** What can be bound in `k` rounds, each of them loading all it can at once. */
  ghost function Rounds(items: set<Item>, base: set<Name>, k: nat): set<Name> {
    if k == 0 then base
    else Rounds(items, base, k - 1) + Loadable(items, Rounds(items, base, k - 1))
  }

  ghost function Loadable(items: set<Item>, bound: set<Name>): set<Name> {
    set x, n | x in items && x.Loads(bound) && n in x.Gives() :: n
  }

  ghost predicate Emerges(items: set<Item>, base: set<Name>, n: Name) {
    exists k: nat :: n in Rounds(items, base, k)
  }

  lemma {:induction false} RoundsGrow(items: set<Item>, base: set<Name>, k: nat, l: nat, n: Name)
    requires k <= l && n in Rounds(items, base, k)
    ensures n in Rounds(items, base, l)
    decreases l
  {
    if k < l { RoundsGrow(items, base, k, l - 1, n); }
  }

  lemma {:induction false} RoundsDerived(items: set<Item>, base: set<Name>, k: nat, bound: set<Name>)
    requires base <= bound && Closed(items, bound)
    ensures Rounds(items, base, k) <= bound
  {
    if k > 0 {
      RoundsDerived(items, base, k - 1, bound);
      var before := Rounds(items, base, k - 1);
      assert Loadable(items, before) <= bound by {
        forall x, n | x in items && x.Loads(before) && n in x.Gives() ensures n in bound {
          assert x.Loads(bound) && x.Gives() <= bound;
        }
      }
    }
  }

  /** Finitely many names that each come up in some round have all come up in one. */
  lemma {:induction false} OneRound(items: set<Item>, base: set<Name>, names: set<Name>) returns (k: nat)
    requires forall n :: n in names ==> Emerges(items, base, n)
    ensures names <= Rounds(items, base, k)
    decreases |names|
  {
    if names == {} {
      k := 0;
    } else {
      var n :| n in names;
      assert Emerges(items, base, n);
      var l: nat :| n in Rounds(items, base, l);
      var m := OneRound(items, base, names - {n});
      k := l + m;
      RoundsGrow(items, base, l, k, n);
      forall x | x in names - {n} ensures x in Rounds(items, base, k) { RoundsGrow(items, base, m, k, x); }
    }
  }

  /** The least fixpoint is what some number of rounds derives: nothing more, nothing less. */
  lemma LeastIsDerivable(items: set<Item>, base: set<Name>, bound: set<Name>, n: Name)
    requires Least(items, base, bound)
    ensures n in bound <==> Emerges(items, base, n)
  {
    forall k: nat ensures Rounds(items, base, k) <= bound { RoundsDerived(items, base, k, bound); }
    var reached := set m | m in bound && Emerges(items, base, m);
    forall m | m in base ensures m in reached { assert m in Rounds(items, base, 0); }
    forall x | x in items && x.Loads(reached) ensures x.Gives() <= reached {
      var k := OneRound(items, base, x.needs);
      forall m | m in x.Gives() ensures m in reached {
        assert m in Loadable(items, Rounds(items, base, k));
        assert m in Rounds(items, base, k + 1);
      }
    }
    assert Closed(items, reached);
  }

  // ----- what a run of loads leaves behind

  /** The names and their meanings after the items of `loads` have loaded one by one. */
  ghost function Play(start: map<Name, Obj>, loads: seq<Item>): map<Name, Obj> {
    if loads == [] then start
    else
      var before := Play(start, loads[..|loads| - 1]);
      before + loads[|loads| - 1].Makes(before)
  }

  /** Each item of `loads` could load at its turn. */
  ghost predicate Enabled(start: map<Name, Obj>, loads: seq<Item>) {
    forall i :: 0 <= i < |loads| ==> LoadsAt(start, loads, i)
  }

  ghost predicate LoadsAt(start: map<Name, Obj>, loads: seq<Item>, i: nat)
    requires i < |loads|
  {
    loads[i].Loads(Play(start, loads[..i]).Keys)
  }

  function Range(xs: seq<Item>): set<Item> { set x | x in xs }

  lemma PlayOne(start: map<Name, Obj>, loads: seq<Item>, x: Item)
    ensures Play(start, loads + [x]) == Play(start, loads) + x.Makes(Play(start, loads))
  {
    assert (loads + [x])[..|loads|] == loads;
  }

  lemma EnabledOne(start: map<Name, Obj>, loads: seq<Item>, x: Item)
    requires Enabled(start, loads) && x.Loads(Play(start, loads).Keys)
    ensures Enabled(start, loads + [x])
  {
    var more := loads + [x];
    forall i | 0 <= i < |more| ensures LoadsAt(start, more, i) {
      assert more[..i] == loads[..i];
      if i < |loads| { assert LoadsAt(start, loads, i); } else { assert loads[..i] == loads; }
    }
  }

  lemma EnabledPrefix(start: map<Name, Obj>, loads: seq<Item>, k: nat)
    requires Enabled(start, loads) && k <= |loads|
    ensures Enabled(start, loads[..k])
  {
    forall i | 0 <= i < k ensures LoadsAt(start, loads[..k], i) {
      assert LoadsAt(start, loads, i) && loads[..k][..i] == loads[..i];
    }
  }

  /** Bindings only grow: what could load still can, and what has loaded is bound. */
  lemma {:induction false} PlayGrows(start: map<Name, Obj>, loads: seq<Item>)
    requires Enabled(start, loads)
    ensures start.Keys <= Play(start, loads).Keys
    ensures forall x :: x in loads ==> x.Loads(Play(start, loads).Keys) && x.Gives() <= Play(start, loads).Keys
    decreases |loads|
  {
    if loads != [] {
      var k := |loads| - 1;
      EnabledPrefix(start, loads, k);
      PlayGrows(start, loads[..k]);
      assert LoadsAt(start, loads, k);
      forall x | x in loads ensures x == loads[k] || x in loads[..k] { assert loads == loads[..k] + [loads[k]]; }
    }
  }

  /** Nothing is bound that was neither there nor derivable. */
  lemma {:induction false} PlayDerived(items: set<Item>, start: map<Name, Obj>, loads: seq<Item>)
    requires Enabled(start, loads) && Range(loads) <= items
    ensures Derived(items, start.Keys, Play(start, loads).Keys)
    decreases |loads|
  {
    if loads != [] {
      var k := |loads| - 1;
      EnabledPrefix(start, loads, k);
      assert loads[k] in Range(loads);
      forall x | x in loads[..k] ensures x in items { assert x in Range(loads); }
      PlayDerived(items, start, loads[..k]);
      assert LoadsAt(start, loads, k);
      forall y: set<Name> | start.Keys <= y && Closed(items, y) ensures Play(start, loads).Keys <= y {
        assert Play(start, loads[..k]).Keys <= y;
        assert loads[k].Loads(y);
      }
    }
  }

  /** Where a name's last meaning comes from: the last item that loaded and binds it, in
      what the names it needs meant then; or from before, if none binds it. */
  ghost predicate LastBinder(loads: seq<Item>, n: Name, k: nat) {
    k < |loads| && n in loads[k].Gives() && forall i :: k < i < |loads| ==> n !in loads[i].Gives()
  }

  ghost predicate GivenBy(loads: seq<Item>, n: Name) { exists x :: x in loads && n in x.Gives() }

  lemma {:induction false} LastLoadWins(start: map<Name, Obj>, loads: seq<Item>, n: Name, k: nat)
    requires LastBinder(loads, n, k)
    ensures n in Play(start, loads) && Play(start, loads)[n] == Made(loads[k], n, Part(Play(start, loads[..k]), loads[k].needs))
    decreases |loads|
  {
    var m := |loads| - 1;
    if k < m {
      assert LastBinder(loads[..m], n, k) && loads[..m][..k] == loads[..k];
      LastLoadWins(start, loads[..m], n, k);
    }
  }

  lemma {:induction false} NoLoadBinds(start: map<Name, Obj>, loads: seq<Item>, n: Name)
    requires !GivenBy(loads, n)
    ensures n in Play(start, loads) <==> n in start
    ensures n in start ==> Play(start, loads)[n] == start[n]
    decreases |loads|
  {
    if loads != [] {
      var m := |loads| - 1;
      assert forall x :: x in loads[..m] ==> x in loads;
      assert loads[m] in loads;
      NoLoadBinds(start, loads[..m], n);
    }
  }
}
