/** `__vis_restore_defs__`: how a snapshot's values and statements come back to life in
    whatever order their needs allow. */
module Restore {
  import opened RestoreRuns
  import opened RestoreOrder

  /** How far a restore has come: it is a run of the items, and what is not waiting has loaded. */
  ghost predicate Progressing(items: set<Item>, start: map<Name, Obj>, loads: seq<Item>, waiting: set<Item>) {
    // One proposition, so that a proof that ends in it is checked as a whole.
    HasLoaded(items, start, loads, waiting) == true
  }

  ghost predicate HasLoaded(items: set<Item>, start: map<Name, Obj>, loads: seq<Item>, waiting: set<Item>) {
    && Enabled(start, loads) && Range(loads) <= items
    && forall x :: x in items && x !in waiting ==> x in loads
  }

  /** No bound name of `prot` changed. */
  ghost predicate Spares(before: map<Name, Obj>, after: map<Name, Obj>, prot: set<Name>) {
    forall n :: n in prot ==> (n in after <==> n in before) && (n in before ==> after[n] == before[n])
  }

  ghost predicate Safe(items: set<Item>, prot: set<Name>) {
    forall x, n :: x in items && n in prot ==> n !in x.Gives()
  }

  lemma PlaySpares(items: set<Item>, start: map<Name, Obj>, loads: seq<Item>, prot: set<Name>)
    requires Range(loads) <= items && Safe(items, prot)
    ensures Spares(start, Play(start, loads), prot)
  {
    forall n | n in prot ensures (n in Play(start, loads) <==> n in start) && (n in start ==> Play(start, loads)[n] == start[n]) {
      forall x | x in loads ensures n !in x.Gives() { assert x in Range(loads); }
      NoLoadBinds(start, loads, n);
    }
  }

  lemma Loaded(items: set<Item>, start: map<Name, Obj>, loads: seq<Item>, waiting: set<Item>, x: Item)
    requires Progressing(items, start, loads, waiting) && x in items && x.Loads(Play(start, loads).Keys)
    ensures Progressing(items, start, loads + [x], waiting)
    ensures Progressing(items, start, loads + [x], waiting - {x})
  {
    EnabledOne(start, loads, x);
  }

  /** After the first `n` statements of `kept`, all of them if none failed. */
  lemma HaveRun(items: set<Item>, start: map<Name, Obj>, loads: seq<Item>, kept: seq<Item>, n: nat, others: set<Item>)
    requires Progressing(items, start, loads, Range(kept) + others) && Range(kept) <= items
    requires n <= |kept| && Enabled(start, loads + kept[..n])
    ensures Progressing(items, start, loads + kept[..n], (if n == |kept| then {} else Range(kept)) + others)
  {
    assert kept[..|kept|] == kept;
    forall x | x in Range(loads + kept[..n]) ensures x in items { assert x in loads ==> x in Range(loads); }
  }

  /** `line` is a sequence of items that can all load as they stand; `loads` have, and `rest`
      are the next of them. */
  ghost predicate Ahead(start: map<Name, Obj>, line: seq<Item>, loads: seq<Item>, rest: seq<Item>) {
    Enabled(start, line) && loads + rest <= line
  }

  lemma NextLoads(start: map<Name, Obj>, line: seq<Item>, loads: seq<Item>, rest: seq<Item>)
    requires Ahead(start, line, loads, rest) && rest != []
    ensures rest[0].Loads(Play(start, loads).Keys) && Ahead(start, line, loads + [rest[0]], rest[1..])
  {
    var k := |loads|;
    assert LoadsAt(start, line, k);
    assert line[..k] == (loads + rest)[..k] == loads && line[k] == (loads + rest)[k];
    assert (loads + [rest[0]]) + rest[1..] == loads + rest;
  }

  /** `all` is made of `taken` and `left`, each in the order it has there. */
  predicate Merges(all: seq<Item>, taken: seq<Item>, left: seq<Item>)
    decreases |all|
  {
    if all == [] then taken == left == []
    else
      var front, x := all[..|all| - 1], all[|all| - 1];
      || (taken != [] && taken[|taken| - 1] == x && Merges(front, taken[..|taken| - 1], left))
      || (left != [] && left[|left| - 1] == x && Merges(front, taken, left[..|left| - 1]))
  }

  lemma MergesOne(all: seq<Item>, taken: seq<Item>, left: seq<Item>, x: Item)
    requires Merges(all, taken, left)
    ensures Merges(all + [x], taken + [x], left) && Merges(all + [x], taken, left + [x])
  {
    assert (all + [x])[..|all|] == all && (taken + [x])[..|taken|] == taken && (left + [x])[..|left|] == left;
  }

  /** A pass over `all` has come to where `left[at..]` is still to be tried: what it loaded since
      `first` and what it left behind are in their order. */
  ghost predicate Passing(all: seq<Item>, first: seq<Item>, loads: seq<Item>, left: seq<Item>, at: nat) {
    // One proposition, so that a proof that ends in it is checked as a whole.
    HasPassed(all, first, loads, left, at) == true
  }

  ghost predicate HasPassed(all: seq<Item>, first: seq<Item>, loads: seq<Item>, left: seq<Item>, at: nat) {
    && at <= |left| <= |all| && first <= loads && left[at..] == all[at + |all| - |left|..]
    && Merges(all[..at + |all| - |left|], loads[|first|..], left[..at])
  }

  lemma PassTakes(all: seq<Item>, first: seq<Item>, loads: seq<Item>, left: seq<Item>, at: nat)
    requires Passing(all, first, loads, left, at) && at < |left|
    ensures Passing(all, first, loads + [left[at]], Dropped(left, at), at)
  {
    var k, x, rest := at + |all| - |left|, left[at], Dropped(left, at);
    assert x == left[at..][0] == all[k] && all[..k + 1] == all[..k] + [x];
    assert (loads + [x])[|first|..] == loads[|first|..] + [x];
    assert rest[..at] == left[..at] && rest[at..] == left[at..][1..] == all[k + 1..];
    MergesOne(all[..k], loads[|first|..], left[..at], x);
  }

  lemma PassLeaves(all: seq<Item>, first: seq<Item>, loads: seq<Item>, left: seq<Item>, at: nat)
    requires Passing(all, first, loads, left, at) && at < |left|
    ensures Passing(all, first, loads, left, at + 1)
  {
    var k, x := at + |all| - |left|, left[at];
    assert x == left[at..][0] == all[k] && all[..k + 1] == all[..k] + [x] && left[..at + 1] == left[..at] + [x];
    assert left[at + 1..] == left[at..][1..] == all[k + 1..];
    MergesOne(all[..k], loads[|first|..], left[..at], x);
  }

  lemma PassBegins(all: seq<Item>, first: seq<Item>)
    ensures Passing(all, first, first, all, 0)
  {
    assert all[..0] == [] && first[|first|..] == [];
  }

  lemma PassEnds(all: seq<Item>, first: seq<Item>, loads: seq<Item>, left: seq<Item>)
    requires Passing(all, first, loads, left, |left|)
    ensures first <= loads && Merges(all, loads[|first|..], left)
  {
    assert left[..|left|] == left && all[..|all|] == all;
  }

  class Namespace {
    var g: map<Name, Obj>
    var blobs: seq<Item>
    var errors: set<Name>
    /** What has loaded since the restore began in `start`, in order. */
    ghost var start: map<Name, Obj>
    ghost var loads: seq<Item>

    constructor (g: map<Name, Obj>)
      ensures this.g == g && blobs == [] && errors == {}
    {
      this.g, blobs, errors, start, loads := g, [], {}, g, [];
    }

    ghost predicate Valid()
      reads this
    {
      g == Play(start, loads)
    }

    /** Run one statement or read one value. */
    method Load(x: Item) returns (ok: bool)
      requires Valid()
      modifies `g, `loads
      ensures Valid() && ok == x.Loads(old(g.Keys))
      ensures loads == if ok then old(loads) + [x] else old(loads)
    {
      ok := x.needs <= g.Keys;
      if ok {
        PlayOne(start, loads, x);
        g, loads := g + x.Makes(g), loads + [x];
      }
    }

    /** Run statements in order until one fails, the one after the first `n`. */
    method RunAll(kept: seq<Item>, ghost items: set<Item>) returns (ok: bool, ghost n: nat)
      requires Valid() && Range(kept) <= items && Progressing(items, start, loads, Range(kept) + Range(blobs))
      modifies `g, `loads
      ensures Valid() && n <= |kept| && loads == old(loads) + kept[..n]
      ensures if ok then n == |kept| else n < |kept| && !kept[n].Loads(g.Keys)
      ensures Progressing(items, start, loads, (if ok then {} else Range(kept)) + Range(blobs))
    {
      ok, n := true, 0;
      ghost var first := loads;
      var i := 0;
      while ok && i < |kept|
        invariant Valid() && 0 <= n <= i <= |kept| && loads == first + kept[..n] && Enabled(start, loads)
        invariant if ok then n == i else n < |kept| && !kept[n].Loads(g.Keys)
      {
        ghost var before := loads;
        ok := Load(kept[i]);
        if ok {
          EnabledOne(start, before, kept[i]);
          assert first + kept[..i + 1] == (first + kept[..i]) + [kept[i]];
          n := n + 1;
        }
        i := i + 1;
      }
      HaveRun(items, start, first, kept, n, Range(blobs));
    }

    /** Try the value at `at`; if it loads it waits no more. */
    method TryValue(at: nat, ghost items: set<Item>, ghost others: set<Item>) returns (ok: bool)
      requires Valid() && at < |blobs| && Range(blobs) <= items && Progressing(items, start, loads, others + Range(blobs))
      modifies `g, `loads, `blobs, `errors
      ensures Valid() && Progressing(items, start, loads, others + Range(blobs)) && ok == old(blobs[at].Loads(g.Keys))
      ensures if ok then loads == old(loads) + [old(blobs)[at]] && blobs == Dropped(old(blobs), at) && errors == old(errors)
              else loads == old(loads) && g == old(g) && blobs == old(blobs) && errors == old(errors) + blobs[at].Scanned()
    {
      ghost var before := loads;
      var x := blobs[at];
      ok := Load(x);
      if ok {
        assert x in Range(blobs);
        Loaded(items, start, before, others + Range(blobs), x);
        blobs := Dropped(blobs, at);
      } else {
        errors := errors + x.Scanned();
      }
    }

    /** Try every value that has not loaded yet. */
    method LoadValues(ghost items: set<Item>, ghost others: set<Item>, ghost line: seq<Item>) returns (loaded: bool)
      requires Valid() && Range(blobs) <= items && Progressing(items, start, loads, others + Range(blobs))
      modifies `g, `loads, `blobs, `errors
      ensures Valid() && Range(blobs) <= old(Range(blobs)) && |blobs| <= |old(blobs)|
      ensures Progressing(items, start, loads, others + Range(blobs))
      ensures loaded ==> |blobs| < |old(blobs)|
      ensures !loaded ==> loads == old(loads) && blobs == old(blobs) && forall x :: x in blobs ==> !x.Loads(g.Keys)
      ensures old(errors) <= errors && forall x :: x in blobs ==> x.Scanned() <= errors
      ensures old(loads) <= loads && Merges(old(blobs), loads[|old(loads)|..], blobs)
      ensures old(Ahead(start, line, loads, blobs)) ==> blobs == [] && loads <= line && |loads| == |old(loads)| + |old(blobs)|
    {
      loaded := false;
      ghost var first, waiting, straight := loads, blobs, Ahead(start, line, loads, blobs);
      PassBegins(waiting, first);
      var at := 0;
      while at < |blobs|
        invariant Valid() && 0 <= at <= |blobs| <= |waiting| && Range(blobs) <= Range(waiting)
        invariant Progressing(items, start, loads, others + Range(blobs))
        invariant loaded ==> |blobs| < |waiting|
        invariant !loaded ==> loads == first && blobs == waiting && forall i :: 0 <= i < at ==> !blobs[i].Loads(g.Keys)
        invariant old(errors) <= errors && forall i :: 0 <= i < at ==> blobs[i].Scanned() <= errors
        invariant Passing(waiting, first, loads, blobs, at)
        invariant straight ==> at == 0 && Ahead(start, line, loads, blobs) && |loads| + |blobs| == |first| + |waiting|
        decreases |blobs| - at
      {
        if straight { NextLoads(start, line, loads, blobs); }
        ghost var before, left := loads, blobs;
        var ok := TryValue(at, items, others);
        if ok {
          PassTakes(waiting, first, before, left, at);
          loaded := true;
        } else {
          PassLeaves(waiting, first, before, left, at);
          at := at + 1;
        }
      }
      PassEnds(waiting, first, loads, blobs);
    }

    /** One pass over the statements that still wait. */
    method Replay(pending: seq<Item>, ghost items: set<Item>) returns (rest: seq<Item>)
      requires Valid() && Range(pending) <= items && Progressing(items, start, loads, Range(pending) + Range(blobs))
      modifies `g, `loads, `errors
      ensures Valid() && Range(rest) <= Range(pending) && |rest| <= |pending|
      ensures Progressing(items, start, loads, Range(rest) + Range(blobs))
      ensures |rest| == |pending| ==> rest == pending && loads == old(loads) && forall x :: x in rest ==> !x.Loads(g.Keys)
      ensures old(loads) <= loads && Merges(pending, loads[|old(loads)|..], rest)
      ensures old(errors) <= errors && forall x :: x in rest ==> x.Scanned() <= errors
    {
      rest := pending;
      PassBegins(pending, loads);
      var at := 0;
      while at < |rest|
        invariant Valid() && 0 <= at <= |rest| <= |pending| && Range(rest) <= Range(pending)
        invariant Progressing(items, start, loads, Range(rest) + Range(blobs))
        invariant Passing(pending, old(loads), loads, rest, at)
        invariant |rest| == |pending| ==> rest == pending && loads == old(loads) && forall i :: 0 <= i < at ==> !rest[i].Loads(g.Keys)
        invariant old(errors) <= errors && forall i :: 0 <= i < at ==> rest[i].Scanned() <= errors
        decreases |rest| - at
      {
        ghost var before := loads;
        var x := rest[at];
        var ok := Load(x);
        if ok {
          assert x in Range(rest);
          Loaded(items, start, before, Range(rest) + Range(blobs), x);
          PassTakes(pending, old(loads), before, rest, at);
          rest := Dropped(rest, at);
        } else {
          errors := errors + x.Scanned();
          PassLeaves(pending, old(loads), before, rest, at);
          at := at + 1;
        }
      }
      PassEnds(pending, old(loads), loads, rest);
    }

    /** Replay statement by statement, and values with them, until nothing more loads. */
    method UntilStuck(waiting: seq<Item>, ghost items: set<Item>) returns (pending: seq<Item>)
      requires Valid() && Range(waiting) + Range(blobs) <= items
      requires Progressing(items, start, loads, Range(waiting) + Range(blobs))
      modifies `g, `loads, `blobs, `errors
      ensures Valid() && Range(pending) + Range(blobs) <= items
      ensures Progressing(items, start, loads, Range(pending) + Range(blobs))
      ensures forall x :: x in pending || x in blobs ==> !x.Loads(g.Keys) && x.Scanned() <= errors
      ensures waiting == old(blobs) == [] ==> pending == blobs == [] && loads == old(loads)
    {
      pending := waiting;
      var more := true;
      while more && (pending != [] || blobs != [])
        invariant Valid() && Range(pending) + Range(blobs) <= items
        invariant Progressing(items, start, loads, Range(pending) + Range(blobs))
        invariant !more ==> forall x :: x in pending || x in blobs ==> !x.Loads(g.Keys) && x.Scanned() <= errors
        invariant waiting == old(blobs) == [] ==> pending == blobs == [] && loads == old(loads)
        decreases |pending| + |blobs|, more
      {
        var rest := Replay(pending, items);
        more := |rest| < |pending|;
        pending := rest;
        var loaded := LoadValues(items, Range(pending), []);
        if loaded { more := true; }
      }
    }

    /** Bring back the values and statements that clash with no protected name; answers
        the statements that could not be, and leaves the values that could not in `blobs`.
        If the values and then the statements can all load as they stand, they load so. */
    method Restore(values: seq<Item>, body: seq<Item>, prot: set<Name>) returns (pending: seq<Item>)
      requires forall x :: x in values ==> x.Value?
      requires forall x :: x in body ==> x.Statement? && x.Sound()
      modifies this
      ensures start == old(g) && Valid()
      ensures Outcome(Items(values, body, prot), start, loads, Range(pending) + Range(blobs))
      ensures Enabled(start, Kept(values, prot) + Kept(body, prot)) ==> loads == Kept(values, prot) + Kept(body, prot)
      ensures InLine(values + body, prot, start) ==> loads == values + body && MadeLast(values + body, start, g)
      ensures Spares(old(g), g, prot)
      ensures forall x :: x in pending || x in blobs ==> x.Scanned() <= errors
    {
      var kept := Filter(body, prot);
      blobs := Filter(values, prot);
      errors := {};
      start, loads := g, [];
      ghost var items, line := Items(values, body, prot), blobs + kept;
      RestoreBegins(values, body, prot, g);
      var loaded := LoadValues(items, Range(kept), line);
      pending := [];
      ghost var first := loads;
      var ok, n := RunAll(kept, items);
      if Enabled(start, line) { StraightOn(start, line, first, Kept(values, prot), kept, n); }
      if !ok { pending := kept; }
      pending := UntilStuck(pending, items);
      RestoreEnds(values, body, prot, start, loads, Range(pending) + Range(blobs));
      if InLine(values + body, prot, start) { StraightLine(values, body, prot, start); }
    }
  }

  /** What a restore comes to: everything derivable is bound and nothing else, what is `left`
      are the items whose needs were not met, and if the order cannot matter, the namespace is
      what the items mean together. */
  ghost predicate Outcome(items: set<Item>, start: map<Name, Obj>, loads: seq<Item>, left: set<Item>) {
    // One proposition, so that a proof that ends in it is checked as a whole.
    ComesTo(items, start, loads, Play(start, loads), left) == true
  }

  ghost predicate ComesTo(items: set<Item>, start: map<Name, Obj>, loads: seq<Item>, g: map<Name, Obj>, left: set<Item>) {
    && Complete(items, start, loads) && Least(items, start.Keys, g.Keys)
    && (forall x :: x in left <==> x in items && !x.Loads(g.Keys))
    && (Apart(items, g.Keys) && Independent(items, start.Keys, g.Keys) ==> Restored(items, start, g))
  }

  /** Nothing clashes, and all items can load as they stand, in the order of the snapshot. */
  ghost predicate InLine(line: seq<Item>, prot: set<Name>, start: map<Name, Obj>) {
    (forall x :: x in line ==> x.Scanned() !! prot) && Enabled(start, line)
  }

  /** A name that items of `line` bind means what the last of them made, of what its needs meant
      after those before it. */
  ghost predicate MadeLast(line: seq<Item>, start: map<Name, Obj>, g: map<Name, Obj>) {
    forall n, k: nat :: LastBinder(line, n, k) ==>
      n in g && g[n] == Made(line[k], n, Part(Play(start, line[..k]), line[k].needs))
  }

  lemma StraightLine(values: seq<Item>, body: seq<Item>, prot: set<Name>, start: map<Name, Obj>)
    requires InLine(values + body, prot, start)
    ensures Kept(values, prot) + Kept(body, prot) == values + body
    ensures MadeLast(values + body, start, Play(start, values + body))
  {
    var line := values + body;
    KeptInOrder(values, body, prot);
    KeptAll(line, prot);
    forall n, k: nat | LastBinder(line, n, k)
      ensures n in Play(start, line) && Play(start, line)[n] == Made(line[k], n, Part(Play(start, line[..k]), line[k].needs))
    {
      LastLoadWins(start, line, n, k);
    }
  }

  lemma RestoreBegins(values: seq<Item>, body: seq<Item>, prot: set<Name>, start: map<Name, Obj>)
    ensures Range(Kept(values, prot)) <= Items(values, body, prot) && Range(Kept(body, prot)) <= Items(values, body, prot)
    ensures Progressing(Items(values, body, prot), start, [], Range(Kept(body, prot)) + Range(Kept(values, prot)))
    ensures Enabled(start, Kept(values, prot) + Kept(body, prot)) ==>
              Ahead(start, Kept(values, prot) + Kept(body, prot), [], Kept(values, prot))
  {
    assert [] + Kept(values, prot) == Kept(values, prot);
  }

  /** After the values it is the statements' turn, and they all load. */
  lemma StraightOn(start: map<Name, Obj>, line: seq<Item>, loads: seq<Item>, values: seq<Item>, kept: seq<Item>, n: nat)
    requires line == values + kept && Enabled(start, line) && loads <= line && |loads| == |values| && n <= |kept|
    requires n < |kept| ==> !kept[n].Loads(Play(start, loads + kept[..n]).Keys)
    ensures n == |kept| && loads + kept[..n] == line
  {
    assert loads == line[..|values|] == values;
    if n < |kept| { StraightThrough(start, line, loads, kept, n); }
  }

  lemma StraightThrough(start: map<Name, Obj>, line: seq<Item>, loads: seq<Item>, kept: seq<Item>, n: nat)
    requires line == loads + kept && Enabled(start, line) && n < |kept|
    ensures kept[n].Loads(Play(start, loads + kept[..n]).Keys)
  {
    assert LoadsAt(start, line, |loads| + n);
    assert line[..|loads| + n] == loads + kept[..n];
  }

  lemma RestoreEnds(values: seq<Item>, body: seq<Item>, prot: set<Name>, start: map<Name, Obj>, loads: seq<Item>, left: set<Item>)
    requires forall x :: x in values ==> x.Value?
    requires forall x :: x in body ==> x.Sound()
    requires Progressing(Items(values, body, prot), start, loads, left) && left <= Items(values, body, prot)
    requires forall x :: x in left ==> !x.Loads(Play(start, loads).Keys)
    ensures Outcome(Items(values, body, prot), start, loads, left) && Spares(start, Play(start, loads), prot)
  {
    var items, g := Items(values, body, prot), Play(start, loads);
    KeptIsSafe(values, body, prot);
    CompleteIsLeast(items, start, loads);
    PlaySpares(items, start, loads, prot);
    if Apart(items, g.Keys) && Independent(items, start.Keys, g.Keys) { MeanTogether(items, start, loads); }
  }

  ghost function Items(values: seq<Item>, body: seq<Item>, prot: set<Name>): set<Item> {
    Range(Kept(values, prot) + Kept(body, prot))
  }

  /** The items of a snapshot that clash with no protected name. */
  function Kept(xs: seq<Item>, prot: set<Name>): (r: seq<Item>)
    ensures forall x :: x in r <==> x in xs && !x.Clashes(prot)
  {
    if xs == [] then []
    else
      var k := |xs| - 1;
      assert xs == xs[..k] + [xs[k]];
      Kept(xs[..k], prot) + if xs[k].Clashes(prot) then [] else [xs[k]]
  }

  /** Leaving out what clashes reorders nothing ... */
  lemma {:induction false} KeptInOrder(a: seq<Item>, b: seq<Item>, prot: set<Name>)
    ensures Kept(a + b, prot) == Kept(a, prot) + Kept(b, prot)
    decreases |b|
  {
    if b == [] {
      assert a + b == a;
    } else {
      var k := |b| - 1;
      KeptInOrder(a, b[..k], prot);
      assert b == b[..k] + [b[k]];
      KeptJoinsOne(a, b[..k], b[k], prot);
    }
  }

  lemma KeptJoinsOne(a: seq<Item>, b: seq<Item>, x: Item, prot: set<Name>)
    requires Kept(a + b, prot) == Kept(a, prot) + Kept(b, prot)
    ensures Kept(a + (b + [x]), prot) == Kept(a, prot) + Kept(b + [x], prot)
  {
    KeptOneMore(a + b, x, prot);
    KeptOneMore(b, x, prot);
    Assoc(a, b, [x]);
    Assoc(Kept(a, prot), Kept(b, prot), if x.Clashes(prot) then [] else [x]);
  }

  lemma Assoc(a: seq<Item>, b: seq<Item>, c: seq<Item>)
    ensures a + (b + c) == (a + b) + c
  {
  }

  lemma KeptOneMore(xs: seq<Item>, x: Item, prot: set<Name>)
    ensures Kept(xs + [x], prot) == Kept(xs, prot) + if x.Clashes(prot) then [] else [x]
  {
    assert (xs + [x])[..|xs|] == xs;
  }

  /** ... and leaves out nothing else. */
  lemma {:induction false} KeptAll(xs: seq<Item>, prot: set<Name>)
    requires forall x :: x in xs ==> x.Scanned() !! prot
    ensures Kept(xs, prot) == xs
  {
    if xs != [] {
      var k := |xs| - 1;
      assert xs == xs[..k] + [xs[k]];
      KeptAll(xs[..k], prot);
    }
  }

  /** Two snapshots with the same values and statements, in any order, restore to the same
      names and objects, given that the items stay apart and independent. */
  lemma SameInAnyOrder(values: seq<Item>, body: seq<Item>, values2: seq<Item>, body2: seq<Item>, prot: set<Name>,
                       start: map<Name, Obj>, a: seq<Item>, b: seq<Item>)
    requires multiset(values) == multiset(values2) && multiset(body) == multiset(body2)
    requires Complete(Items(values, body, prot), start, a)
    requires Complete(Items(values2, body2, prot), start, b)
    requires var items, bound := Items(values, body, prot), Play(start, a).Keys;
             Apart(items, bound) && Independent(items, start.Keys, bound)
    ensures Play(start, a) == Play(start, b)
  {
    SameItems(values, body, values2, body2, prot);
    RunsAgree(Items(values, body, prot), start, a, b);
  }

  lemma SameItems(values: seq<Item>, body: seq<Item>, values2: seq<Item>, body2: seq<Item>, prot: set<Name>)
    requires multiset(values) == multiset(values2) && multiset(body) == multiset(body2)
    ensures Items(values, body, prot) == Items(values2, body2, prot)
  {
    forall x ensures x in Items(values, body, prot) <==> x in Items(values2, body2, prot) {
      assert x in values <==> x in multiset(values2);
      assert x in body <==> x in multiset(body2);
    }
  }

  method Filter(xs: seq<Item>, prot: set<Name>) returns (kept: seq<Item>)
    ensures kept == Kept(xs, prot)
  {
    kept := [];
    for i := 0 to |xs|
      invariant kept == Kept(xs[..i], prot)
    {
      assert xs[..i + 1][..i] == xs[..i];
      if xs[i].Scanned() * prot == {} { kept := kept + [xs[i]]; }
    }
    assert xs[..|xs|] == xs;
  }

  lemma KeptIsSafe(values: seq<Item>, body: seq<Item>, prot: set<Name>)
    requires forall x :: x in values ==> x.Value?
    requires forall x :: x in body ==> x.Sound()
    ensures Safe(Items(values, body, prot), prot)
  {
    forall x, n | x in Items(values, body, prot) && n in prot ensures n !in x.Gives() {
      assert x in Kept(values, prot) || x in Kept(body, prot);
      assert x.Sound() && !x.Clashes(prot);
      assert n !in x.Scanned() * prot;
    }
  }

  function Dropped(xs: seq<Item>, k: nat): (r: seq<Item>)
    requires k < |xs|
    ensures |r| == |xs| - 1 && (forall i :: 0 <= i < k ==> r[i] == xs[i])
    ensures Range(r) <= Range(xs) <= Range(r) + {xs[k]}
    ensures k == 0 ==> r == xs[1..]
  {
    xs[..k] + xs[k + 1..]
  }
}
