/** The one-byte lookahead of `read_ready`, `visjail_poll` and `visjail_read`: a poll waits
    by reading a byte ahead, which the next read must return first. */
module Lookahead {
  type Byte = bv8

  const ABORTED := 995
  const INVALID_PARAMETER := 87

  /** The system's pipe: all that the child writes before it closes its end, the places where
      it also wrote nothing at all, and how much has been taken out. */
  class Pipe {
    const child: seq<Byte>
    const empties: set<nat>
    var taken: nat

    ghost predicate Valid()
      reads this
    {
      taken <= |child|
    }

    constructor (child: seq<Byte>, empties: set<nat>)
      ensures Valid() && this.child == child && this.empties == empties && taken == 0
    {
      this.child, this.empties := child, empties;
      taken := 0;
    }

    /** A read that finishes: the next bytes, `n` of them or as many as are left. */
    method Take(n: nat) returns (bytes: seq<Byte>)
      requires Valid()
      modifies this
      ensures Valid() && taken == if old(taken) + n <= |child| then old(taken) + n else |child|
      ensures old(taken) <= taken && bytes == child[old(taken)..taken]
    {
      var to := if taken + n <= |child| then taken + n else |child|;
      bytes := child[taken..to];
      taken := to;
    }
  }

  /** What a read of one byte comes to: it finishes with the next byte, or with nothing at the
      end; it finishes with nothing where the child wrote nothing; it finds the pipe broken, at
      the end too; it fails; or it is left pending. */
  datatype Attempt = Finished | Empty | Broken | Failed(code: int) | Pended

  /** What waiting for a pending read comes to. */
  datatype Wait = TimedOut | Canceled | Ended(result: Attempt)

  /** What the system answers to one look ahead: whether the stream is canceled by now, and
      the outcomes above. */
  datatype Look = Look(canceled: bool, attempt: Attempt, wait: Wait)

  // ----- what one look ahead comes to

  /** The reader's flags, and how much has been taken out of the pipe. */
  datatype View = View(taken: nat, cached: bool, pending: bool, eof: bool) {
    /** How many bytes the callers were given. */
    function Given(): int { if cached then taken - 1 else taken }

    /** A byte is read ahead, the end was seen, or a read is under way: one of them at most. */
    predicate Valid(n: nat) {
      taken <= n && (cached ==> taken > 0) && !(cached && eof) && !(pending && (cached || eof))
    }
  }

  const Start := View(0, false, false, false)

  /** What the system may answer when `taken` of `n` bytes are out and the child also wrote
      nothing at the places `empties`. */
  predicate Honest(n: nat, empties: set<nat>, taken: nat, a: Attempt) {
    && (a.Broken? ==> taken == n) && (a.Empty? ==> taken in empties) && (a.Failed? ==> a.code > 0)
  }

  predicate HonestLook(n: nat, empties: set<nat>, taken: nat, l: Look) {
    && Honest(n, empties, taken, l.attempt)
    && (l.wait.Ended? ==> Honest(n, empties, taken, l.wait.result) && !l.wait.result.Pended?)
  }

  /** How the read of one byte ends: what was attempted, unless that was left pending. */
  function Outcome(v: View, l: Look): Wait {
    if !v.pending && !l.attempt.Pended? then Ended(l.attempt) else l.wait
  }

  /** A byte is there: one was read ahead, or the read of one brings it. */
  predicate Delivers(n: nat, v: View, l: Look) {
    !l.canceled && (v.cached || (!v.eof && Outcome(v, l) == Ended(Finished) && v.taken < n))
  }

  /** The stream has ended for all that the reader can tell. */
  predicate Ends(n: nat, v: View, l: Look) {
    && !l.canceled && !v.cached
    && (v.eof || (Outcome(v, l).Ended? && var a := Outcome(v, l).result; a.Empty? || a.Broken? || (a.Finished? && v.taken == n)))
  }

  predicate Waits(v: View, l: Look) { !l.canceled && !v.cached && !v.eof && Outcome(v, l).TimedOut? }

  /** Why a look ahead fails: canceled, before or during the wait, or an error of the read. */
  function Refusal(v: View, l: Look): int {
    if l.canceled || !Outcome(v, l).Ended? || !Outcome(v, l).result.Failed? then -ABORTED else -Outcome(v, l).result.code
  }

  /** The flags after a look ahead. */
  function Looked(n: nat, v: View, l: Look): View {
    if l.canceled || v.cached || v.eof then v
    else if Delivers(n, v, l) then View(v.taken + 1, true, false, false)
    else if Ends(n, v, l) then View(v.taken, false, false, true)
    else v.(pending := !Outcome(v, l).Ended?)
  }

  // ----- every run

  datatype Call = Poll(look: Look) | Read(length: int, look: Look, available: nat, extra: nat)

  /** What a second read brings behind the first byte: as much as asked for and peeked at,
      and as is there. */
  function Second(n: nat, taken: nat, length: int, available: nat, extra: nat): nat
    requires taken <= n && length > 0
  {
    var requested := if available < length - 1 then available else length - 1;
    var count := if extra < requested then extra else requested;
    if taken + count <= n then count else n - taken
  }

  function After(n: nat, v: View, c: Call): View
    requires v.Valid(n)
  {
    match c
    case Poll(l) => Looked(n, v, l)
    case Read(length, l, available, extra) =>
      var w := Looked(n, v, l);
      if length <= 0 then v
      else if Delivers(n, v, l) then w.(cached := false, taken := w.taken + Second(n, w.taken, length, available, extra))
      else w
  }

  /** A read waits for as long as it takes. */
  predicate Possible(n: nat, empties: set<nat>, v: View, c: Call) {
    HonestLook(n, empties, v.taken, c.look) && (c.Read? ==> !c.look.wait.TimedOut?)
  }

  lemma AfterValid(n: nat, v: View, c: Call)
    requires v.Valid(n)
    ensures After(n, v, c).Valid(n)
  {
  }

  ghost predicate CanRun(n: nat, empties: set<nat>, v: View, calls: seq<Call>)
    requires v.Valid(n)
    decreases |calls|
  {
    calls != [] ==> Possible(n, empties, v, calls[0]) && (AfterValid(n, v, calls[0]); CanRun(n, empties, After(n, v, calls[0]), calls[1..]))
  }

  ghost function Run(n: nat, v: View, calls: seq<Call>): (w: View)
    requires v.Valid(n)
    ensures w.Valid(n)
    decreases |calls|
  {
    if calls == [] then v else AfterValid(n, v, calls[0]); Run(n, After(n, v, calls[0]), calls[1..])
  }

  /** The read answers 0, for a length that asks for something. */
  predicate AnswersZero(n: nat, v: View, c: Call) { c.Read? && c.length > 0 && Ends(n, v, c.look) }

  /** However the reader has been used before, a 0 means that all the child wrote was given. */
  ghost predicate ZeroMeansEnd(n: nat, empties: set<nat>) {
    forall calls, c :: ComesToZero(n, empties, calls, c) ==> Run(n, Start, calls).Given() == n
  }

  ghost predicate ComesToZero(n: nat, empties: set<nat>, calls: seq<Call>, c: Call) {
    && CanRun(n, empties, Start, calls)
    && Possible(n, empties, Run(n, Start, calls), c) && AnswersZero(n, Run(n, Start, calls), c)
  }

  /** Empty writes lie behind all bytes, if there are any. */
  predicate Trailing(n: nat, empties: set<nat>) { forall p :: p in empties ==> p >= n }

  /** Exactly when that can be relied on: the child makes no empty write before its last byte. */
  lemma ZeroMeansEndWhen(n: nat, empties: set<nat>)
    ensures ZeroMeansEnd(n, empties) <==> Trailing(n, empties)
  {
    if Trailing(n, empties) {
      forall calls, c | ComesToZero(n, empties, calls, c) ensures Run(n, Start, calls).Given() == n {
        EndIsEnd(n, empties, Start, calls);
      }
    } else {
      var p :| p in empties && p < n;
      ReadByOne(n, empties, 0, p);
      var c := Read(1, Look(false, Empty, Canceled), 0, 0);
      assert ComesToZero(n, empties, Singles(p), c);
    }
  }

  lemma {:induction false} EndIsEnd(n: nat, empties: set<nat>, v: View, calls: seq<Call>)
    requires v.Valid(n) && Trailing(n, empties) && (v.eof ==> v.taken == n) && CanRun(n, empties, v, calls)
    ensures Run(n, v, calls).eof ==> Run(n, v, calls).taken == n
    decreases |calls|
  {
    if calls != [] {
      AfterValid(n, v, calls[0]);
      EndIsEnd(n, empties, After(n, v, calls[0]), calls[1..]);
    }
  }

  /** Reads of one byte each, which all finish. */
  function Singles(p: nat): seq<Call> { seq(p, _ => Read(1, Look(false, Finished, Canceled), 0, 0)) }

  lemma {:induction false} ReadByOne(n: nat, empties: set<nat>, from: nat, p: nat)
    requires from + p <= n
    ensures var v := View(from, false, false, false);
            CanRun(n, empties, v, Singles(p)) && Run(n, v, Singles(p)) == View(from + p, false, false, false)
    decreases p
  {
    if p > 0 {
      assert Singles(p)[1..] == Singles(p - 1);
      ReadByOne(n, empties, from + 1, p - 1);
    }
  }

  /** A reader that takes an empty write for the end never gets over it: wherever the child wrote
      nothing before its last byte, some run leads to a state that no further call leaves, in
      which every read answers 0 until the stream is canceled. */
  lemma FooledForGood(n: nat, empties: set<nat>, p: nat) returns (calls: seq<Call>)
    requires p in empties && p < n
    ensures CanRun(n, empties, Start, calls) && Run(n, Start, calls) == View(p, false, false, true)
    ensures forall more: seq<Call> :: Run(n, Run(n, Start, calls), more) == View(p, false, false, true)
    ensures forall c: Call :: c.Read? && c.length > 0 && !c.look.canceled ==> AnswersZero(n, View(p, false, false, true), c)
  {
    ReadByOne(n, empties, 0, p);
    var c := Read(1, Look(false, Empty, Canceled), 0, 0);
    calls := Singles(p) + [c];
    RunOneMore(n, empties, Start, Singles(p), c);
    forall more: seq<Call> ensures Run(n, Run(n, Start, calls), more) == View(p, false, false, true) {
      EndStays(n, View(p, false, false, true), more);
    }
  }

  lemma {:induction false} EndStays(n: nat, v: View, calls: seq<Call>)
    requires v.Valid(n) && v.eof
    ensures Run(n, v, calls) == v
    decreases |calls|
  {
    if calls != [] { EndStays(n, v, calls[1..]); }
  }

  lemma {:induction false} RunOneMore(n: nat, empties: set<nat>, v: View, calls: seq<Call>, c: Call)
    requires v.Valid(n) && CanRun(n, empties, v, calls) && Possible(n, empties, Run(n, v, calls), c)
    ensures CanRun(n, empties, v, calls + [c]) && Run(n, v, calls + [c]) == After(n, Run(n, v, calls), c)
    decreases |calls|
  {
    AfterValid(n, Run(n, v, calls), c);
    if calls == [] {
      assert [] + [c] == [c] && [c][1..] == [];
    } else {
      AfterValid(n, v, calls[0]);
      assert (calls + [c])[0] == calls[0] && (calls + [c])[1..] == calls[1..] + [c];
      RunOneMore(n, empties, After(n, v, calls[0]), calls[1..], c);
    }
  }

  // ----- the code

  class Reader {
    const pipe: Pipe
    var byte: Byte
    var pending: bool
    var cached: bool
    var eof: bool
    /** All that the callers were given. */
    ghost var returned: seq<Byte>

    /** What was given, and then the byte read ahead, is what was taken out of the pipe. */
    ghost predicate Valid()
      reads this, pipe
    {
      && pipe.Valid() && Now().Valid(|pipe.child|)
      && returned + (if cached then [byte] else []) == pipe.child[..pipe.taken]
      && (Trailing(|pipe.child|, pipe.empties) && eof ==> pipe.taken == |pipe.child|)
    }

    function Now(): View
      reads this, pipe
    {
      View(pipe.taken, cached, pending, eof)
    }

    constructor (pipe: Pipe)
      requires pipe.Valid() && pipe.taken == 0
      ensures Valid() && this.pipe == pipe && returned == [] && Now() == Start
    {
      this.pipe := pipe;
      byte, pending, cached, eof, returned := 0, false, false, false, [];
    }

    predicate Allows(l: Look)
      reads pipe
    {
      HonestLook(|pipe.child|, pipe.empties, pipe.taken, l)
    }

    /** The byte that was read ahead, or the end, or the failure. */
    method Finish(a: Attempt) returns (r: int)
      requires Valid() && !cached && !eof && !pending && !a.Pended? && Honest(|pipe.child|, pipe.empties, pipe.taken, a)
      modifies this, pipe
      ensures Valid() && !pending && returned == old(returned)
      ensures r == if a.Failed? then -a.code else 1
      ensures cached == (a.Finished? && old(pipe.taken) < |pipe.child|) && eof == (!cached && !a.Failed?)
      ensures pipe.taken == if cached then old(pipe.taken) + 1 else old(pipe.taken)
    {
      match a
      case Finished =>
        var bytes := pipe.Take(1);
        cached, eof := bytes != [], bytes == [];
        if cached { byte := bytes[0]; }
        assert cached ==> returned + [byte] == pipe.child[..pipe.taken];
        r := 1;
      case Empty =>
        eof := true;
        r := 1;
      case Broken =>
        eof := true;
        r := 1;
      case Failed(code) =>
        r := -code;
    }

    /** Whether a byte or the end of the stream is ready: 1 if so, 0 at a timeout, and below
        that why there is no telling. */
    method ReadReady(l: Look) returns (r: int)
      requires Valid() && Allows(l)
      modifies this, pipe
      ensures Valid() && returned == old(returned) && Now() == Looked(|pipe.child|, old(Now()), l)
      ensures var n, v := |pipe.child|, old(Now());
              r == if Delivers(n, v, l) || Ends(n, v, l) then 1 else if Waits(v, l) then 0 else Refusal(v, l)
      ensures r == 1 ==> cached == Delivers(|pipe.child|, old(Now()), l) && eof == Ends(|pipe.child|, old(Now()), l)
      ensures old(cached) ==> cached && byte == old(byte)
      ensures l.canceled ==> r == -995
      ensures var idle, waits := !l.canceled && !old(cached) && !old(eof), old(pending) || l.attempt.Pended?;
              && (idle && waits && l.wait.TimedOut? ==> r == 0 && pending)
              && (idle && waits && l.wait.Canceled? ==> r == -995)
              && (idle && waits && l.wait.Ended? && l.wait.result.Failed? ==> r == -l.wait.result.code && !pending)
              && (idle && !waits && l.attempt.Failed? ==> r == -l.attempt.code)
              && (idle && !waits && l.attempt.Finished? && old(pipe.taken) < |pipe.child| ==> r == 1 && cached)
    {
      if l.canceled { return -ABORTED; }
      if cached || eof { return 1; }
      if !pending {
        if !l.attempt.Pended? {
          r := Finish(l.attempt);
          return;
        }
        pending := true;
      }
      if l.wait.TimedOut? { return 0; }
      if l.wait.Canceled? { return -ABORTED; }
      pending := false;
      r := Finish(l.wait.result);
    }

    /** A poll hands out nothing and loses nothing. */
    method Poll(l: Look) returns (r: int)
      requires Valid() && Allows(l)
      modifies this, pipe
      ensures Valid() && returned == old(returned) && Now() == After(|pipe.child|, old(Now()), Call.Poll(l))
      ensures r == 1 <==> Delivers(|pipe.child|, old(Now()), l) || Ends(|pipe.child|, old(Now()), l)
      ensures r == 0 <==> Waits(old(Now()), l)
      ensures old(cached) ==> cached && byte == old(byte)
    {
      r := ReadReady(l);
    }

    /** Up to `length` bytes: the one read ahead, then what the pipe has at hand, of which a
        peek sees `available` and a second read brings `extra`, none if it fails. It hands out
        bytes exactly when there is one, answers 0 exactly when the stream seems to have ended,
        and fails only for a cause. */
    method Read(buffer: array<Byte>, length: int, l: Look, available: nat, extra: nat) returns (r: int)
      requires Valid() && Allows(l) && !l.wait.TimedOut? && length <= buffer.Length
      modifies this, pipe, buffer
      ensures Valid() && Now() == After(|pipe.child|, old(Now()), Call.Read(length, l, available, extra))
      ensures length < 0 ==> r == -INVALID_PARAMETER
      ensures length == 0 ==> r == 0
      ensures length > 0 ==>
                var n, v := |pipe.child|, old(Now());
                r == if Delivers(n, v, l) then 1 + Second(n, Looked(n, v, l).taken, length, available, extra)
                     else if Ends(n, v, l) then 0 else Refusal(v, l)
      ensures r <= 0 ==> returned == old(returned) && buffer[..] == old(buffer[..])
      ensures r > 0 ==> r <= length && returned == old(returned) + buffer[..r] && buffer[r..] == old(buffer[r..])
      ensures old(cached) && r > 0 ==> buffer[0] == old(byte)
      ensures length > 0 && l.canceled ==> r == -995
      ensures length > 0 && !l.canceled && !old(cached) && !old(eof) && !old(pending) && l.attempt.Failed? ==> r == -l.attempt.code
      ensures r > 0 ==> r <= 1 + available
      ensures r > 0 && available >= length - 1 && extra >= length - 1 && |pipe.child| - |old(returned)| >= length ==> r == length
      ensures r == 0 && length > 0 && Trailing(|pipe.child|, pipe.empties) ==> returned == pipe.child
    {
      if length < 0 { return -INVALID_PARAMETER; }
      if length == 0 { return 0; }
      r := ReadReady(l);
      if r > 0 {
        r := 0;
        if cached { r := HandOut(buffer, length, available, extra); }
      }
    }

    /** The byte read ahead, and what is at hand behind it. */
    method HandOut(buffer: array<Byte>, length: int, available: nat, extra: nat) returns (r: int)
      requires Valid() && cached && 0 < length <= buffer.Length
      modifies this`cached, this`returned, pipe, buffer
      ensures Valid() && !cached && pipe.taken == old(pipe.taken) + r - 1
      ensures r == 1 + Second(|pipe.child|, old(pipe.taken), length, available, extra)
      ensures 0 < r <= length && returned == old(returned) + buffer[..r] && buffer[r..] == old(buffer[r..])
      ensures buffer[0] == byte
    {
      buffer[0] := byte;
      cached := false;
      returned := returned + [byte];
      r := 1;
      if length > 1 && available > 0 {
        var requested := if available < length - 1 then available else length - 1;
        var count := ReadMore(buffer, if extra < requested then extra else requested);
        r := r + count;
      }
    }

    /** The second read of a call, behind the first byte. */
    method ReadMore(buffer: array<Byte>, n: nat) returns (count: nat)
      requires Valid() && !cached && !eof && !pending && n < buffer.Length
      modifies this`returned, pipe, buffer
      ensures Valid() && count <= n && pipe.taken == old(pipe.taken) + count
      ensures count == if old(pipe.taken) + n <= |pipe.child| then n else |pipe.child| - old(pipe.taken)
      ensures returned == old(returned) + buffer[1..1 + count]
      ensures buffer[0] == old(buffer[0]) && buffer[1 + count..] == old(buffer[1 + count..])
    {
      var bytes := pipe.Take(n);
      count := |bytes|;
      for i := 0 to count
        modifies buffer
        invariant buffer[1..1 + i] == bytes[..i] && buffer[0] == old(buffer[0])
        invariant buffer[1 + i..] == old(buffer[1 + i..])
      {
        buffer[1 + i] := bytes[i];
        assert buffer[1..2 + i] == bytes[..i] + [bytes[i]];
        assert bytes[..i + 1] == bytes[..i] + [bytes[i]];
      }
      assert bytes[..count] == bytes;
      returned := returned + bytes;
    }
  }
}
