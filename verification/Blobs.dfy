/** String lists as blobs of NUL-terminated strings: the host's encoder and the POSIX and
    Windows decoders. */
module Blobs {
  import opened Basics

  newtype Byte = x: int | 0 <= x < 256

  /** Where the first NUL is, or the length. */
  function Zero(b: seq<Byte>): (e: nat)
    ensures e <= |b| && 0 !in b[..e] && (e < |b| ==> b[e] == 0)
  {
    if b == [] || b[0] == 0 then 0
    else
      var e := Zero(b[1..]);
      assert b[..e + 1] == [b[0]] + b[1..][..e];
      e + 1
  }

  function Split(b: seq<Byte>): seq<seq<Byte>> {
    var e := Zero(b);
    if e == |b| then [] else [b[..e]] + Split(b[e + 1..])
  }

  function Join(xs: seq<seq<Byte>>): seq<Byte> {
    if xs == [] then [] else xs[0] + [0] + Join(xs[1..])
  }

  predicate NoZeros(xs: seq<seq<Byte>>) { forall i :: 0 <= i < |xs| ==> 0 !in xs[i] }

  predicate Terminated(b: seq<Byte>) { b != [] && b[|b| - 1] == 0 }

  /** What the host sends for a list: its joining, or a single NUL for none. */
  function Blob(xs: seq<seq<Byte>>): seq<Byte> { if xs == [] then [0] else Join(xs) }

  // ----- the decoders' answers

  function Windows(b: seq<Byte>): Option<seq<seq<Byte>>> { if Terminated(b) then Some(Split(b)) else None }

  function Posix(b: seq<Byte>): Option<seq<seq<Byte>>> {
    if !Terminated(b) then None else if |b| == 1 then Some([]) else Some(Split(b))
  }

  /** What a Windows spawn makes of a lone empty environment entry. */
  function Normal(items: Option<seq<seq<Byte>>>): Option<seq<seq<Byte>>> {
    if items == Some([[]]) then Some([]) else items
  }

  lemma {:induction false} ZeroAt(x: seq<Byte>, t: seq<Byte>)
    requires 0 !in x
    ensures Zero(x + [0] + t) == |x|
  {
    if x != [] {
      assert (x + [0] + t)[1..] == x[1..] + [0] + t;
      ZeroAt(x[1..], t);
    }
  }

  lemma {:induction false} SplitJoin(xs: seq<seq<Byte>>)
    requires NoZeros(xs)
    ensures Split(Join(xs)) == xs
  {
    if xs != [] {
      var t := Join(xs[1..]);
      var b := xs[0] + [0] + t;
      ZeroAt(xs[0], t);
      assert b[..|xs[0]|] == xs[0] && b[|xs[0]| + 1..] == t;
      SplitJoin(xs[1..]);
    }
  }

  /** A blob that has a NUL, cut at the first. */
  lemma Cut(b: seq<Byte>) returns (head: seq<Byte>, rest: seq<Byte>)
    requires Zero(b) < |b|
    ensures b == head + [0] + rest && 0 !in head && Split(b) == [head] + Split(rest) && |rest| < |b|
  {
    head, rest := b[..Zero(b)], b[Zero(b) + 1..];
  }

  lemma RestEnds(head: seq<Byte>, rest: seq<Byte>)
    requires Terminated(head + [0] + rest)
    ensures rest == [] || Terminated(rest)
  {
  }

  lemma {:induction false} JoinSplit(b: seq<Byte>)
    requires b == [] || Terminated(b)
    ensures Join(Split(b)) == b
    decreases |b|
  {
    if b != [] {
      assert b[|b| - 1] in b;
      var head, rest := Cut(b);
      RestEnds(head, rest);
      JoinSplit(rest);
      JoinCons(head, Split(rest));
    }
  }

  lemma JoinCons(x: seq<Byte>, xs: seq<seq<Byte>>)
    ensures Join([x] + xs) == x + [0] + Join(xs)
  {
    assert ([x] + xs)[1..] == xs;
  }

  lemma {:induction false} JoinEnds(xs: seq<seq<Byte>>)
    requires xs != []
    ensures Terminated(Join(xs)) && (|Join(xs)| == 1 ==> xs == [[]])
  {
    if |xs| > 1 { JoinEnds(xs[1..]); } else { assert xs[1..] == []; }
  }

  /** The POSIX decoder gives back every list but the lone empty string. */
  lemma PosixInverts(xs: seq<seq<Byte>>)
    requires NoZeros(xs)
    ensures Posix(Blob(xs)) == Some(xs) <==> xs != [[]]
  {
    if xs != [] {
      SplitJoin(xs);
      JoinEnds(xs);
      if xs == [[]] { assert xs[0] + [0] + Join(xs[1..]) == [0]; }
    }
  }

  /** The Windows decoder gives back every list but the empty one. */
  lemma WindowsInverts(xs: seq<seq<Byte>>)
    requires NoZeros(xs)
    ensures Windows(Blob(xs)) == Some(xs) <==> xs != []
  {
    if xs != [] {
      SplitJoin(xs);
      JoinEnds(xs);
    } else {
      assert Zero([0]) == 0;
    }
  }

  /** What is accepted: a blob that ends in a NUL, and of it the strings it is made of. */
  lemma Accepts(b: seq<Byte>)
    ensures Windows(b).Some? <==> b != [] && b[|b| - 1] == 0
    ensures Windows(b).Some? ==> NoZeros(Windows(b).value) && Join(Windows(b).value) == b
    ensures Posix(b).Some? <==> Windows(b).Some?
  {
    if Terminated(b) {
      JoinSplit(b);
      SplitHasNoZeros(b);
    }
  }

  lemma {:induction false} SplitHasNoZeros(b: seq<Byte>)
    ensures NoZeros(Split(b))
    decreases |b|
  {
    if Zero(b) < |b| {
      var head, rest := Cut(b);
      SplitHasNoZeros(rest);
    }
  }

  lemma LoneEmpty()
    ensures Join([[]]) == [0] && Split([0]) == [[]]
  {
    var xs: seq<seq<Byte>> := [[]];
    assert xs[1..] == [] && Join(xs) == [] + [0] + [];
    assert Zero([0]) == 0 && [0][1..] == [] && Zero([]) == 0;
  }

  /** On every blob the two agree once the lone empty entry is normalised away. */
  lemma DecodersAgree(b: seq<Byte>)
    ensures Normal(Windows(b)) == Posix(b)
  {
    if Terminated(b) {
      JoinSplit(b);
      LoneEmpty();
      assert Split(b) == [[]] ==> b == [0];
      assert |b| == 1 ==> b == [0];
    }
  }

  // ----- the decoders

  lemma SplitFrom(b: seq<Byte>, at: nat, end: nat)
    requires at <= end < |b| && 0 !in b[at..end] && b[end] == 0
    ensures Split(b[at..]) == [b[at..end]] + Split(b[end + 1..])
  {
    var t := b[at..];
    assert t == b[at..end] + [0] + b[end + 1..];
    ZeroAt(b[at..end], b[end + 1..]);
    assert t[..end - at] == b[at..end] && t[end - at + 1..] == b[end + 1..];
  }

  /** `strlen` or `memchr`: the next NUL, which a terminated blob always has. */
  method Find(blob: seq<Byte>, from: nat) returns (end: nat)
    requires from < |blob| && Terminated(blob)
    ensures from <= end < |blob| && 0 !in blob[from..end] && blob[end] == 0
  {
    end := from;
    while blob[end] != 0
      invariant from <= end < |blob| && 0 !in blob[from..end]
      decreases |blob| - end
    {
      assert blob[from..end + 1] == blob[from..end] + [blob[end]];
      end := end + 1;
    }
  }

  /** `n` strings are in the table, and what is left of the blob has the others. The latter is
      one proposition, so that a proof that ends in it is checked as a whole. */
  ghost predicate Decoding(table: seq<seq<Byte>>, n: nat, blob: seq<Byte>, at: nat) {
    n <= |table| && at <= |blob| && Remains(table[..n], blob, blob[at..]) == true
  }

  ghost predicate Remains(done: seq<seq<Byte>>, blob: seq<Byte>, rest: seq<Byte>) { Split(blob) == done + Split(rest) }

  lemma DecodeNext(table: seq<seq<Byte>>, n: nat, blob: seq<Byte>, at: nat, end: nat)
    requires Decoding(table, n, blob, at) && n < |table|
    requires at <= end < |blob| && 0 !in blob[at..end] && blob[end] == 0
    ensures Decoding(table[n := blob[at..end]], n + 1, blob, end + 1)
  {
    SplitFrom(blob, at, end);
    var x := blob[at..end];
    assert table[n := x][..n + 1] == table[..n] + [x];
    Regroup(table[..n], x, Split(blob[end + 1..]));
  }

  lemma Regroup(a: seq<seq<Byte>>, x: seq<Byte>, s: seq<seq<Byte>>)
    ensures a + ([x] + s) == a + [x] + s
  {
  }

  lemma DecodeDone(table: seq<seq<Byte>>, n: nat, blob: seq<Byte>, at: nat)
    requires Decoding(table, n, blob, at)
    ensures at == |blob| ==> Split(blob) == table[..n]
    ensures |Split(blob)| == n ==> Split(blob) == table[..n]
    ensures n < |Split(blob)| ==> at < |blob|
  {
    assert Zero([]) == 0;
  }

  method DecodeWindows(blob: seq<Byte>) returns (items: Option<seq<seq<Byte>>>)
    ensures items == Windows(blob)
  {
    if |blob| < 1 || blob[|blob| - 1] != 0 { return None; }
    var table := new seq<Byte>[|blob| + 1](_ => []);
    var offset, n := 0, 0;
    assert blob[0..] == blob;
    while offset < |blob|
      invariant n <= offset <= |blob| && Decoding(table[..], n, blob, offset)
    {
      var end := Find(blob, offset);
      DecodeNext(table[..], n, blob, offset, end);
      ghost var before := table[..];
      table[n] := blob[offset..end];
      assert table[..] == before[n := blob[offset..end]];
      n := n + 1;
      offset := end + 1;
    }
    DecodeDone(table[..], n, blob, offset);
    assert table[..][..n] == table[..n];
    return Some(table[..n]);
  }

  function Zeros(b: seq<Byte>): nat { if b == [] then 0 else Zeros(b[..|b| - 1]) + if b[|b| - 1] == 0 then 1 else 0 }

  lemma {:induction false} ZerosJoin(a: seq<Byte>, b: seq<Byte>)
    ensures Zeros(a + b) == Zeros(a) + Zeros(b)
  {
    if b == [] {
      assert a + b == a;
    } else {
      assert (a + b)[..|a + b| - 1] == a + b[..|b| - 1];
      ZerosJoin(a, b[..|b| - 1]);
    }
  }

  lemma {:induction false} NoZerosIn(a: seq<Byte>)
    requires 0 !in a
    ensures Zeros(a) == 0
  {
    if a != [] { NoZerosIn(a[..|a| - 1]); }
  }

  /** Counting the NULs first gives the number of strings. */
  lemma {:induction false} SplitCount(b: seq<Byte>)
    ensures |Split(b)| == Zeros(b)
    decreases |b|
  {
    if Zero(b) < |b| {
      var head, rest := Cut(b);
      SplitCount(rest);
      NoZerosIn(head);
      ZerosJoin(head, [0]);
      ZerosJoin(head + [0], rest);
      assert [0][..0] == [];
    } else {
      assert b[..|b|] == b;
      NoZerosIn(b);
    }
  }

  method CountZeros(blob: seq<Byte>) returns (n: nat)
    ensures n == |Split(blob)|
  {
    n := 0;
    for i := 0 to |blob|
      invariant n == Zeros(blob[..i])
    {
      assert blob[..i + 1][..i] == blob[..i];
      if blob[i] == 0 { n := n + 1; }
    }
    assert blob[..|blob|] == blob;
    SplitCount(blob);
  }

  method DecodePosix(blob: seq<Byte>) returns (items: Option<seq<seq<Byte>>>)
    ensures items == Posix(blob)
  {
    if |blob| <= 0 || blob[|blob| - 1] != 0 { return None; }
    if |blob| == 1 { return Some([]); }
    var n := CountZeros(blob);
    var table := new seq<Byte>[n + 1](_ => []);
    var at := 0;
    assert blob[0..] == blob;
    for i := 0 to n
      invariant Decoding(table[..], i, blob, at)
    {
      DecodeDone(table[..], i, blob, at);
      var end := Find(blob, at);
      DecodeNext(table[..], i, blob, at, end);
      ghost var before := table[..];
      table[i] := blob[at..end];
      assert table[..] == before[i := blob[at..end]];
      at := end + 1;
    }
    DecodeDone(table[..], n, blob, at);
    assert table[..][..n] == table[..n];
    return Some(table[..n]);
  }
}
