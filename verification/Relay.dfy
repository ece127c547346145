/** The loopback relay: two half-close directions over partial reads and writes. */
module Relays {
  type Byte = bv8

  const BUFFER := 16384

  /** What the system answers to `recv` and to `send`. */
  datatype Received = Bytes(bytes: seq<Byte>) | Closed | NotNow | Broken

  datatype Sent = Some(n: nat) | Later | Refused

  /** What one direction meets in one turn: the poll's answers and the sockets'. */
  datatype Input = Input(readable: bool, writable: bool, recv: Received, send: Sent)

  predicate Possible(i: Input) {
    (i.recv.Bytes? ==> 0 < |i.recv.bytes| <= BUFFER) && (i.send.Some? ==> i.send.n > 0)
  }

  // ----- what the turns say

  /** Of one direction: how many bytes it holds, and whether its source has ended. */
  datatype Side = Side(held: nat, ended: bool)

  predicate Reads(s: Side, i: Input) { !s.ended && s.held == 0 && i.readable }

  function Filled(s: Side, i: Input): nat { if Reads(s, i) && i.recv.Bytes? then |i.recv.bytes| else s.held }

  function Passed(held: nat, i: Input): nat {
    if i.writable && i.send.Some? then (if i.send.n < held then i.send.n else held) else 0
  }

  predicate Fails(s: Side, i: Input) {
    (Reads(s, i) && i.recv.Broken?) || (Filled(s, i) > 0 && i.writable && i.send.Refused?)
  }

  function Moved(s: Side, i: Input): Side {
    Side(Filled(s, i) - Passed(Filled(s, i), i), s.ended || (Reads(s, i) && i.recv.Closed?))
  }

  predicate Over(s: Side) { s.ended && s.held == 0 }

  /** The events asked of the two sockets: to read and to write, of each. */
  datatype Events = Events(read0: bool, write0: bool, read1: bool, write1: bool)

  /** One turn of the loop as the system sees it: how the poll ends, with hang-ups and
      errors whether asked for or not, and what the sockets then answer. */
  datatype Poll = Interrupted | Failed | Ready(ready: Events, hup0: bool, hup1: bool, error: bool)

  datatype Turn = Turn(poll: Poll, recv0: Received, send1: Sent, recv1: Received, send0: Sent)

  predicate Polled(t: Turn) { t.poll.Ready? && !t.poll.error }

  datatype Way = Forward | Reverse

  function In(t: Turn, way: Way): Input
    requires Polled(t)
  {
    if way.Forward? then Input(t.poll.ready.read0 || t.poll.hup0, t.poll.ready.write1, t.recv0, t.send1)
    else Input(t.poll.ready.read1 || t.poll.hup1, t.poll.ready.write0, t.recv1, t.send0)
  }

  predicate PossibleTurn(t: Turn) {
    Possible(Input(true, true, t.recv0, t.send1)) && Possible(Input(true, true, t.recv1, t.send0))
  }

  /** Both directions, the forward one first. */
  datatype Sides = Sides(forward: Side, reverse: Side) {
    function Of(way: Way): Side { if way.Forward? then forward else reverse }

    predicate BothOver() { Over(forward) && Over(reverse) }

    function Wanted(): Events {
      Events(!forward.ended && forward.held == 0, reverse.held > 0, !reverse.ended && reverse.held == 0, forward.held > 0)
    }
  }

  /** The reverse direction moves only if the forward one did not fail. */
  predicate Moves(s: Sides, t: Turn, way: Way) { Polled(t) && (way.Reverse? ==> !Fails(s.forward, In(t, Forward))) }

  function Turned(s: Sides, t: Turn): Sides {
    Sides(if Moves(s, t, Forward) then Moved(s.forward, In(t, Forward)) else s.forward,
          if Moves(s, t, Reverse) then Moved(s.reverse, In(t, Reverse)) else s.reverse)
  }

  predicate Breaks(s: Sides, t: Turn) {
    || t.poll.Failed? || (t.poll.Ready? && t.poll.error)
    || (Polled(t) && (Fails(s.forward, In(t, Forward)) || Fails(s.reverse, In(t, Reverse))))
  }

  /** How things stand after the first `n` turns. */
  function After(turns: seq<Turn>, n: nat): Sides
    requires n <= |turns|
  {
    if n == 0 then Sides(Side(0, false), Side(0, false)) else Turned(After(turns, n - 1), turns[n - 1])
  }

  /** The direction reads at turn `k`: it holds nothing, and the poll says readable or hung up. */
  predicate ReadsAt(turns: seq<Turn>, k: nat, way: Way)
    requires k < |turns|
  {
    Moves(After(turns, k), turns[k], way) && Reads(After(turns, k).Of(way), In(turns[k], way))
  }

  /** All bytes that the source answered in the first `n` turns when it was read, in order. */
  function Taken(turns: seq<Turn>, n: nat, way: Way): seq<Byte>
    requires n <= |turns|
  {
    if n == 0 then [] else Taken(turns, n - 1, way) + TakenAt(turns, n - 1, way)
  }

  function TakenAt(turns: seq<Turn>, k: nat, way: Way): seq<Byte>
    requires k < |turns|
  {
    if ReadsAt(turns, k, way) && In(turns[k], way).recv.Bytes? then In(turns[k], way).recv.bytes else []
  }

  /** A direction has ended exactly when one of its reads was answered with the end; that was
      its last read, so what it took until then is all it takes. */
  lemma {:induction false} EndsOnce(turns: seq<Turn>, n: nat, way: Way)
    requires n <= |turns|
    ensures After(turns, n).Of(way).ended <==> exists k :: 0 <= k < n && ClosedAt(turns, k, way)
    ensures forall k :: 0 <= k < n && ClosedAt(turns, k, way) ==>
              Taken(turns, n, way) == Taken(turns, k, way) && forall j :: k < j < n ==> !ReadsAt(turns, j, way)
  {
    if n > 0 {
      EndsOnce(turns, n - 1, way);
      if After(turns, n).Of(way).ended && !After(turns, n - 1).Of(way).ended {
        assert ClosedAt(turns, n - 1, way);
      }
    }
  }

  predicate ClosedAt(turns: seq<Turn>, k: nat, way: Way)
    requires k < |turns|
  {
    ReadsAt(turns, k, way) && In(turns[k], way).recv.Closed?
  }

  function Least(a: nat, b: nat): nat { if a < b then a else b }

  // ----- what it takes for a relay to deliver all

  predicate Covers(ready: Events, wanted: Events) {
    && (wanted.read0 ==> ready.read0) && (wanted.write0 ==> ready.write0)
    && (wanted.read1 ==> ready.read1) && (wanted.write1 ==> ready.write1)
  }

  /** All that was asked for is ready, and no socket puts its answer off. */
  predicate Grants(turns: seq<Turn>, k: nat)
    requires k < |turns|
  {
    var t := turns[k];
    && Polled(t) && Covers(t.poll.ready, After(turns, k).Wanted())
    && !t.recv0.NotNow? && !t.recv1.NotNow? && t.send0.Some? && t.send1.Some?
  }

  function CountGrants(turns: seq<Turn>, n: nat): nat
    requires n <= |turns|
  {
    if n == 0 then 0 else CountGrants(turns, n - 1) + if Grants(turns, n - 1) then 1 else 0
  }

  /** Neither the poll nor a socket fails. */
  predicate Harmless(t: Turn) {
    && !t.poll.Failed? && (t.poll.Ready? ==> !t.poll.error)
    && !t.recv0.Broken? && !t.recv1.Broken? && !t.send0.Refused? && !t.send1.Refused?
  }

  /** The source has `content` to give: a read gets some more of it, the end when all is taken,
      or has to wait. */
  predicate GivesAt(turns: seq<Turn>, k: nat, way: Way, content: seq<Byte>)
    requires k < |turns|
  {
    ReadsAt(turns, k, way) ==>
      match In(turns[k], way).recv
      case Bytes(bytes) => bytes != [] && Taken(turns, k, way) + bytes <= content
      case Closed => Taken(turns, k, way) == content
      case NotNow => true
      case Broken => false
  }

  predicate Gives(turns: seq<Turn>, way: Way, content: seq<Byte>) {
    forall k :: 0 <= k < |turns| ==> GivesAt(turns, k, way, content)
  }

  predicate AllHarmless(turns: seq<Turn>) { forall k :: 0 <= k < |turns| ==> Harmless(turns[k]) && PossibleTurn(turns[k]) }

  /** What is still to be read or sent, and an end to be met, weighed so that every useful turn
      counts. */
  function ToDo(s: Side, taken: nat, total: nat): int { 2 * (total - taken) + s.held + if s.ended then 0 else 1 }

  function Left(turns: seq<Turn>, n: nat, way: Way, content: seq<Byte>): int
    requires n <= |turns|
  {
    ToDo(After(turns, n).Of(way), |Taken(turns, n, way)|, |content|)
  }

  predicate OnTheWay(turns: seq<Turn>, n: nat, way: Way, content: seq<Byte>)
    requires n <= |turns|
  {
    Taken(turns, n, way) <= content && (After(turns, n).Of(way).ended ==> Taken(turns, n, way) == content)
  }

  lemma HarmlessMoves(turns: seq<Turn>, k: nat)
    requires k < |turns| && Harmless(turns[k])
    ensures !Breaks(After(turns, k), turns[k])
    ensures forall way: Way :: Moves(After(turns, k), turns[k], way) == Polled(turns[k])
  {
  }

  lemma WayStep(turns: seq<Turn>, n: nat, way: Way, content: seq<Byte>)
    requires n < |turns| && AllHarmless(turns) && Gives(turns, way, content) && OnTheWay(turns, n, way, content)
    ensures OnTheWay(turns, n + 1, way, content) && Left(turns, n + 1, way, content) <= Left(turns, n, way, content)
    ensures Grants(turns, n) && !Over(After(turns, n).Of(way)) ==>
              Left(turns, n + 1, way, content) < Left(turns, n, way, content)
    ensures Over(After(turns, n).Of(way)) ==> Over(After(turns, n + 1).Of(way))
  {
    HarmlessMoves(turns, n);
    assert GivesAt(turns, n, way, content);
  }

  /** Every granted turn brings a direction that is not over nearer to its end. */
  predicate Nearing(turns: seq<Turn>, n: nat, way: Way, content: seq<Byte>)
    requires n <= |turns|
  {
    && OnTheWay(turns, n, way, content)
    && (Over(After(turns, n).Of(way)) || Left(turns, n, way, content) + CountGrants(turns, n) <= 2 * |content| + 1)
  }

  lemma WayBegins(turns: seq<Turn>, way: Way, content: seq<Byte>)
    ensures Nearing(turns, 0, way, content)
  {
  }

  lemma WayGoesOn(turns: seq<Turn>, n: nat, way: Way, content: seq<Byte>)
    requires 0 < n <= |turns| && AllHarmless(turns) && Gives(turns, way, content) && Nearing(turns, n - 1, way, content)
    ensures Nearing(turns, n, way, content)
  {
    WayStep(turns, n - 1, way, content);
    assert CountGrants(turns, n) == CountGrants(turns, n - 1) + if Grants(turns, n - 1) then 1 else 0;
  }

  lemma {:induction false} WayRun(turns: seq<Turn>, n: nat, way: Way, content: seq<Byte>)
    requires n <= |turns| && AllHarmless(turns) && Gives(turns, way, content)
    ensures Nearing(turns, n, way, content) == true
    decreases n
  {
    if n == 0 {
      WayBegins(turns, way, content);
    } else {
      WayRun(turns, n - 1, way, content);
      WayGoesOn(turns, n, way, content);
    }
  }

  /** A relay whose turns never fail has delivered all that its sources have to give, and their
      ends, once enough turns have granted what it asked for: one for each byte read, one for
      each byte sent and one for the end, of the longer source. */
  lemma BothAreOver(turns: seq<Turn>, there: seq<Byte>, back: seq<Byte>)
    requires AllHarmless(turns) && Gives(turns, Forward, there) && Gives(turns, Reverse, back)
    requires CountGrants(turns, |turns|) > 2 * |there| && CountGrants(turns, |turns|) > 2 * |back|
    ensures After(turns, |turns|).BothOver()
  {
    WayRun(turns, |turns|, Forward, there);
    WayRun(turns, |turns|, Reverse, back);
  }

  // ----- the code

  class Direction {
    const buffer: array<Byte>
    var offset: nat
    var length: nat
    var eof: bool
    var shutdownSent: bool
    /** All that came from the source; all that went to the destination; what had gone at
        each shutdown of the destination. */
    ghost var received: seq<Byte>
    ghost var sent: seq<Byte>
    ghost var shutdowns: seq<seq<Byte>>

    /** Sent and buffered bytes are the received ones, in order; there was one shutdown at
        most, after the last byte. */
    ghost predicate Valid()
      reads this, buffer
    {
      && buffer.Length == BUFFER && offset + length <= BUFFER
      && sent + buffer[offset..offset + length] == received
      && (shutdownSent ==> eof && length == 0)
      && shutdowns == if shutdownSent then [sent] else []
    }

    function Now(): Side
      reads this
    {
      Side(length, eof)
    }

    constructor ()
      ensures Valid() && fresh(buffer) && received == [] && Now() == Side(0, false) && !shutdownSent
    {
      buffer := new Byte[BUFFER](_ => 0);
      offset, length, eof, shutdownSent := 0, 0, false, false;
      received, sent, shutdowns := [], [], [];
    }

    /** `move_direction`: receive if the buffer is empty, send what is there, pass the end
        on. */
    method Move(i: Input) returns (ok: bool)
      requires Valid() && Possible(i)
      modifies this, buffer
      ensures Valid() && (ok && Over(Now()) ==> shutdownSent)
      ensures ok == !Fails(old(Now()), i) && Now() == Moved(old(Now()), i)
      ensures received == old(received) + if Reads(old(Now()), i) && i.recv.Bytes? then i.recv.bytes else []
      ensures old(sent) <= sent <= received
      ensures ok && i.writable && i.send.Some? ==>
                |sent| == |old(sent)| + Least(i.send.n, |received| - |old(sent)|)
      ensures !(ok && i.writable && i.send.Some?) ==> sent == old(sent)
    {
      ok := Receive(i);
      if !ok { return; }
      ok := Send(i);
      if !ok { return; }
      if eof && length == 0 && !shutdownSent {
        shutdowns := shutdowns + [sent];
        shutdownSent := true;
      }
    }

    method Receive(i: Input) returns (ok: bool)
      requires Valid() && Possible(i)
      modifies this, buffer
      ensures Valid() && sent == old(sent) && shutdownSent == old(shutdownSent)
      ensures var takes := Reads(old(Now()), i);
              && received == old(received) + (if takes && i.recv.Bytes? then i.recv.bytes else [])
              && Now() == Side(Filled(old(Now()), i), old(eof) || (takes && i.recv.Closed?))
              && ok == !(takes && i.recv.Broken?)
    {
      ok := true;
      if !eof && length == 0 && i.readable {
        match i.recv
        case Bytes(bytes) => Fill(bytes);
        case Closed => eof := true;
        case Broken => ok := false;
        case NotNow =>
      }
    }

    method Send(i: Input) returns (ok: bool)
      requires Valid() && Possible(i)
      modifies `offset, `length, `sent
      ensures Valid() && length == old(length) - Passed(old(length), i) && old(sent) <= sent
      ensures ok == !(old(length) > 0 && i.writable && i.send.Refused?)
    {
      ok := true;
      if length > 0 && i.writable {
        match i.send
        case Some(n) => Advance(if n < length then n else length);
        case Refused => ok := false;
        case Later =>
      }
    }

    /** The first `count` bytes of the buffer have gone. */
    method Advance(count: nat)
      requires Valid() && count <= length && !shutdownSent
      modifies `offset, `length, `sent
      ensures Valid() && length == old(length) - count && old(sent) <= sent
    {
      ghost var head, tail := buffer[offset..offset + count], buffer[offset + count..offset + length];
      Assoc(sent, head, tail);
      assert buffer[offset..offset + length] == head + tail;
      sent := sent + head;
      offset, length := offset + count, length - count;
      assert buffer[offset..offset + length] == tail;
    }

    /** Received bytes go to the start of the empty buffer. */
    method Fill(bytes: seq<Byte>)
      requires Valid() && length == 0 && !eof && |bytes| <= BUFFER
      modifies `offset, `length, `received, buffer
      ensures Valid() && length == |bytes| && received == old(received) + bytes
    {
      for i := 0 to |bytes|
        modifies buffer
        invariant buffer[..i] == bytes[..i]
      {
        buffer[i] := bytes[i];
        assert buffer[..i + 1] == bytes[..i] + [bytes[i]] == bytes[..i + 1];
      }
      assert buffer[..|bytes|] == bytes[..|bytes|] == bytes;
      assert buffer[0..|bytes|] == buffer[..|bytes|];
      assert sent + [] == sent;
      offset, length, received := 0, |bytes|, received + bytes;
    }
  }

  lemma Assoc(a: seq<Byte>, b: seq<Byte>, c: seq<Byte>)
    ensures (a + b) + c == a + (b + c)
  {
  }

  datatype Exit = Running | Code(code: int)

  /** The relay over any turns the system makes; `Running` if they end before it does. It uses
      one turn for each `asked`, up to the first that breaks or after which both directions are
      over. Exit 0 means that each direction has passed on every byte its source answered until
      the end, and then made one shutdown. */
  method Relay(nonblocking: bool, turns: seq<Turn>) returns (exit: Exit, forward: Direction, reverse: Direction, ghost asked: seq<Events>)
    requires forall i :: 0 <= i < |turns| ==> PossibleTurn(turns[i])
    ensures forward.Valid() && reverse.Valid()
    ensures UsesTurns(turns, asked) && Stands(turns, |asked|, forward, reverse)
    ensures exit == if !nonblocking || BrokeLast(turns, |asked|) then Code(1)
                    else if After(turns, |asked|).BothOver() then Code(0) else Running
    ensures exit == Running ==> |asked| == |turns|
    ensures exit == Code(0) ==> Delivered(forward) && Delivered(reverse)
  {
    forward := new Direction();
    reverse := new Direction();
    asked := [];
    exit := Code(1);
    if nonblocking {
      exit, asked := Loop(turns, forward, reverse);
    }
  }

  /** Over turns that never fail and grant what is asked often enough, the relay exits with 0 and
      each side has sent all that its source had to give. */
  method RelayDelivers(turns: seq<Turn>, ghost there: seq<Byte>, ghost back: seq<Byte>)
    returns (exit: Exit, forward: Direction, reverse: Direction)
    requires AllHarmless(turns) && Gives(turns, Forward, there) && Gives(turns, Reverse, back)
    requires CountGrants(turns, |turns|) > 2 * |there| && CountGrants(turns, |turns|) > 2 * |back|
    ensures exit == Code(0) && forward.sent == there && reverse.sent == back
    ensures forward.shutdowns == [there] && reverse.shutdowns == [back]
  {
    ghost var asked;
    exit, forward, reverse, asked := Relay(true, turns);
    var n := |asked|;
    if n > 0 { HarmlessMoves(turns, n - 1); }
    BothAreOver(turns, there, back);
    WayRun(turns, n, Forward, there);
    WayRun(turns, n, Reverse, back);
  }

  method Loop(turns: seq<Turn>, forward: Direction, reverse: Direction) returns (exit: Exit, ghost asked: seq<Events>)
    requires forall i :: 0 <= i < |turns| ==> PossibleTurn(turns[i])
    requires Apart(forward, reverse) && Underway(turns, [], false, forward, reverse)
    modifies forward, forward.buffer, reverse, reverse.buffer
    ensures Underway(turns, asked, exit == Code(1), forward, reverse)
    ensures exit == Code(0) ==> Over(forward.Now()) && Over(reverse.Now())
    ensures exit == Running ==> !(Over(forward.Now()) && Over(reverse.Now())) && |asked| == |turns|
    ensures exit in {Running, Code(0), Code(1)}
  {
    asked := [];
    var i, broke := 0, false;
    while !broke && i < |turns| && !(forward.eof && forward.length == 0 && reverse.eof && reverse.length == 0)
      invariant 0 <= i == |asked| <= |turns| && Underway(turns, asked, broke, forward, reverse)
    {
      broke, asked := OneTurn(turns, i, asked, forward, reverse);
      i := i + 1;
    }
    exit := if broke then Code(1) else if Over(forward.Now()) && Over(reverse.Now()) then Code(0) else Running;
  }

  /** How the loop stands: what it has asked, what it has brought, and whether a turn broke it. */
  ghost predicate Underway(turns: seq<Turn>, asked: seq<Events>, broke: bool, forward: Direction, reverse: Direction)
    reads forward, forward.buffer, reverse, reverse.buffer
  {
    // One proposition, so that a proof that ends in it is checked as a whole.
    Stage(turns, asked, broke, forward, reverse) == true
  }

  ghost predicate Stage(turns: seq<Turn>, asked: seq<Events>, broke: bool, forward: Direction, reverse: Direction)
    reads forward, forward.buffer, reverse, reverse.buffer
  {
    && forward.Valid() && reverse.Valid() && UsesTurns(turns, asked) && Stands(turns, |asked|, forward, reverse)
    && broke == BrokeLast(turns, |asked|) && (!broke ==> Passes(forward) && Passes(reverse))
  }

  predicate Apart(forward: Direction, reverse: Direction) { forward != reverse && forward.buffer != reverse.buffer }

  /** Every shutdown that is due has been made. */
  ghost predicate Passes(d: Direction)
    reads d, d.buffer
  {
    d.Valid() && (Over(d.Now()) ==> d.shutdownSent)
  }

  function Requested(forward: Direction, reverse: Direction): Events
    reads forward, reverse
  {
    Events(!forward.eof && forward.length == 0, reverse.length > 0,
           !reverse.eof && reverse.length == 0, forward.length > 0)
  }

  /** The loop asks at one turn after the other for what it needs then, and always for something,
      as long as something is left to do and no turn has broken it. This is one proposition, so
      that a proof that ends in it is checked as a whole. */
  ghost predicate UsesTurns(turns: seq<Turn>, asked: seq<Events>) { |asked| <= |turns| && AsksAll(turns, asked) == true }

  ghost predicate AsksAll(turns: seq<Turn>, asked: seq<Events>)
    requires |asked| <= |turns|
  {
    forall k :: 0 <= k < |asked| ==> AsksAt(turns, k, asked[k])
  }

  predicate AsksAt(turns: seq<Turn>, k: nat, events: Events)
    requires k < |turns|
  {
    && !BrokeLast(turns, k) && !After(turns, k).BothOver()
    && events == After(turns, k).Wanted() && events != Events(false, false, false, false)
  }

  lemma UsesOne(turns: seq<Turn>, asked: seq<Events>)
    requires UsesTurns(turns, asked) && |asked| < |turns|
    requires !BrokeLast(turns, |asked|) && !After(turns, |asked|).BothOver()
    ensures UsesTurns(turns, asked + [After(turns, |asked|).Wanted()])
  {
    var more := asked + [After(turns, |asked|).Wanted()];
    forall k | 0 <= k < |more| ensures AsksAt(turns, k, more[k]) {
      if k < |asked| { assert more[k] == asked[k]; } else { assert k == |asked|; }
    }
  }

  predicate BrokeLast(turns: seq<Turn>, n: nat)
    requires n <= |turns|
  {
    n > 0 && Breaks(After(turns, n - 1), turns[n - 1])
  }

  /** The two directions are where the first `n` turns bring them, and have received exactly
      the bytes of those turns. */
  ghost predicate Stands(turns: seq<Turn>, n: nat, forward: Direction, reverse: Direction)
    requires n <= |turns|
    reads forward, reverse
  {
    && After(turns, n) == Sides(forward.Now(), reverse.Now())
    // One proposition, so that a proof that ends in it is checked as a whole.
    && (HasTaken(turns, n, Forward, forward) && HasTaken(turns, n, Reverse, reverse)) == true
  }

  ghost predicate HasTaken(turns: seq<Turn>, n: nat, way: Way, d: Direction)
    requires n <= |turns|
    reads d
  {
    d.received == Taken(turns, n, way)
  }

  method OneTurn(turns: seq<Turn>, i: nat, ghost asked: seq<Events>, forward: Direction, reverse: Direction)
    returns (broke: bool, ghost more: seq<Events>)
    requires Apart(forward, reverse) && Underway(turns, asked, false, forward, reverse)
    requires i == |asked| < |turns| && PossibleTurn(turns[i]) && !(Over(forward.Now()) && Over(reverse.Now()))
    modifies forward, forward.buffer, reverse, reverse.buffer
    ensures |more| == i + 1 && Underway(turns, more, broke, forward, reverse)
  {
    UsesOne(turns, asked);
    more := asked + [Requested(forward, reverse)];
    broke := MoveBoth(turns, i, forward, reverse);
  }

  method MoveBoth(turns: seq<Turn>, i: nat, forward: Direction, reverse: Direction) returns (broke: bool)
    requires Apart(forward, reverse) && Passes(forward) && Passes(reverse)
    requires i < |turns| && PossibleTurn(turns[i]) && Stands(turns, i, forward, reverse)
    modifies forward, forward.buffer, reverse, reverse.buffer
    ensures forward.Valid() && reverse.Valid() && Stands(turns, i + 1, forward, reverse)
    ensures broke == Breaks(After(turns, i), turns[i])
    ensures !broke ==> Passes(forward) && Passes(reverse)
  {
    var t := turns[i];
    broke := t.poll.Failed? || (t.poll.Ready? && t.poll.error);
    if !broke && t.poll.Ready? {
      var ok := forward.Move(In(t, Forward));
      if ok { ok := reverse.Move(In(t, Reverse)); }
      broke := !ok;
    }
  }

  ghost predicate Delivered(d: Direction)
    reads d, d.buffer
  {
    d.Valid() && d.eof && d.sent == d.received && d.shutdowns == [d.received]
  }
}
