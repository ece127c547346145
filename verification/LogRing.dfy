/** The diagnostic ring of `vis_py_record` and `vispython_drain_log`: a bounded
    overwrite-oldest buffer that accounts for every record it ever took. */
module LogRings {
  const SLOTS := 1024
  const LINE := 256
  const LONG := 0x7fff_ffff_ffff_ffff
  const ERR_BUFFER := -1

  // ----- what a drain writes

  function Digits(n: nat): (r: string)
    ensures r != ""
  {
    (if n < 10 then "" else Digits(n / 10)) + [Digit(n % 10)]
  }

  function Digit(d: nat): char
    requires d < 10
  {
    "0123456789"[d]
  }

  function Pow10(k: nat): nat { if k == 0 then 1 else 10 * Pow10(k - 1) }

  lemma {:induction false} DigitsFit(n: nat, k: nat)
    requires k > 0 && n < Pow10(k)
    ensures |Digits(n)| <= k
  {
    if n >= 10 {
      assert Pow10(1) == 10;
      DigitsFit(n / 10, k - 1);
    }
  }

  function DigitValue(c: char): nat { if '0' <= c <= '9' then c as int - '0' as int else 0 }

  /** What a reader makes of a decimal number. */
  function Number(s: string): nat {
    if s == "" then 0 else 10 * Number(s[..|s| - 1]) + DigitValue(s[|s| - 1])
  }

  lemma DigitRead(d: nat)
    requires d < 10
    ensures '0' <= Digit(d) <= '9' && DigitValue(Digit(d)) == d
  {
  }

  lemma NumberOneMore(s: string, c: char)
    ensures Number(s + [c]) == 10 * Number(s) + DigitValue(c)
  {
    assert (s + [c])[..|s|] == s;
  }

  lemma {:induction false} DigitsRead(n: nat)
    ensures Number(Digits(n)) == n
  {
    var q, d := n / 10, n % 10;
    assert n == 10 * q + d;
    DigitRead(d);
    NumberOneMore(if n < 10 then "" else Digits(q), Digit(d));
    if n >= 10 { DigitsRead(q); }
  }

  predicate OnlyDigits(s: string) { forall c :: c in s ==> '0' <= c <= '9' }

  lemma {:induction false} DigitsAreDigits(n: nat)
    ensures OnlyDigits(Digits(n))
  {
    DigitRead(n % 10);
    if n >= 10 { DigitsAreDigits(n / 10); }
  }

  const REPORT := "{\"level\":\"warn\",\"event\":\"log_dropped\",\"records\":"

  function Report(dropped: nat): string { REPORT + Digits(dropped) + "}\n" }

  /** The number in a report is the number of the drops. */
  lemma ReportTells(dropped: nat)
    ensures var r := Report(dropped);
            && |REPORT| < |r| - 2 && r[..|REPORT|] == REPORT && r[|r| - 2..] == "}\n"
            && Number(r[|REPORT|..|r| - 2]) == dropped
            && OnlyDigits(r[|REPORT|..|r| - 2])
  {
    DigitsRead(dropped);
    DigitsAreDigits(dropped);
    assert Report(dropped)[|REPORT|..|Report(dropped)| - 2] == Digits(dropped);
  }

  lemma ReportFits(dropped: nat)
    requires dropped <= LONG
    ensures 0 < |Report(dropped)| < LINE
  {
    assert Pow10(2) == 100 && Pow10(4) == 10_000 && Pow10(6) == 1_000_000 && Pow10(8) == 100_000_000;
    assert Pow10(10) == 10_000_000_000 && Pow10(12) == 1_000_000_000_000 && Pow10(14) == 100_000_000_000_000;
    assert Pow10(16) == 10_000_000_000_000_000 && Pow10(18) == 1_000_000_000_000_000_000;
    DigitsFit(dropped, 19);
  }

  /** Lines, each with its newline. */
  function Text(lines: seq<string>): string {
    if lines == [] then "" else lines[0] + "\n" + Text(lines[1..])
  }

  /** How many lines fit a buffer of `cap` of which `used` is taken. */
  function Fitting(lines: seq<string>, used: nat, cap: int): (k: nat)
    ensures k <= |lines|
  {
    if lines == [] || used + |lines[0]| + 2 > cap then 0 else 1 + Fitting(lines[1..], used + |lines[0]| + 1, cap)
  }

  /** What a slot of LINE bytes keeps of a line. */
  function Clip(line: string): (r: string)
    ensures |line| < 256 ==> r == line
    ensures |line| >= 256 ==> r <= line && |r| == 255
  {
    if |line| < LINE then line else line[..LINE - 1]
  }

  /** Lines added to a text one by one while they fit: the text then, and the rest. */
  function Filled(waiting: seq<string>, text: string, cap: int): (string, seq<string>)
    decreases |waiting|
  {
    if waiting == [] || |text| + |waiting[0]| + 2 > cap then (text, waiting)
    else Filled(waiting[1..], text + (waiting[0] + "\n"), cap)
  }

  lemma {:induction false} FilledIs(waiting: seq<string>, text: string, cap: int)
    ensures var k := Fitting(waiting, |text|, cap); Filled(waiting, text, cap) == (text + Text(waiting[..k]), waiting[k..])
    decreases |waiting|
  {
    var k := Fitting(waiting, |text|, cap);
    if k == 0 {
      assert waiting[..0] == [] && text + "" == text;
    } else {
      var next := text + (waiting[0] + "\n");
      FilledIs(waiting[1..], next, cap);
      var more := waiting[1..][..k - 1];
      assert waiting[..k] == [waiting[0]] + more && waiting[..k][1..] == more;
      assert next + Text(more) == text + (waiting[0] + "\n" + Text(more));
    }
  }

  /** `d` and then `n` indices from `first` on. */
  function Onward(d: seq<nat>, first: nat, n: nat): seq<nat> {
    if n == 0 then d else Onward(d, first, n - 1) + [first + n - 1]
  }

  lemma OnwardOne(d: seq<nat>, first: nat, n: nat)
    ensures Onward(d, first, n + 1) == Onward(d, first, n) + [first + n]
  {
  }

  // ----- the ring

  function Wrap(k: nat): nat { if k < SLOTS then k else k - SLOTS }

  lemma WrapIsMod(k: nat)
    requires k < 2 * SLOTS
    ensures k % SLOTS == Wrap(k)
  {
  }

  /** The slots from `head` on, going round at the end, hold the records `waiting`. */
  ghost predicate Shows(slots: seq<string>, head: nat, waiting: seq<string>) {
    |slots| == SLOTS && head < SLOTS && |waiting| <= SLOTS && forall i: nat :: ShowsAt(slots, head, waiting, i)
  }

  predicate ShowsAt(slots: seq<string>, head: nat, waiting: seq<string>, i: nat)
    requires |slots| == SLOTS && head < SLOTS && |waiting| <= SLOTS
  {
    i < |waiting| ==> waiting[i] == slots[Wrap(head + i)]
  }

  /** What is left of the waiting records when one more must fit. */
  function Newest(waiting: seq<string>): seq<string> { if |waiting| == SLOTS then waiting[1..] else waiting }

  function NextHead(head: nat, count: nat): nat { if count == SLOTS then (head + 1) % SLOTS else head }

  /** Writing one more record, after the newest or over the oldest. */
  lemma ShowsOneMore(slots: seq<string>, head: nat, waiting: seq<string>, line: string) returns (more: seq<string>)
    requires Shows(slots, head, waiting)
    ensures more == Newest(waiting) + [line] && |more| == if |waiting| == SLOTS then SLOTS else |waiting| + 1
    ensures Shows(slots[(head + |waiting|) % SLOTS := line], NextHead(head, |waiting|), more)
  {
    WrapIsMod(head + |waiting|);
    WrapIsMod(head + 1);
    more := Newest(waiting) + [line];
    var slots' := slots[(head + |waiting|) % SLOTS := line];
    forall i: nat ensures ShowsAt(slots', NextHead(head, |waiting|), more, i) {
      var j := if |waiting| == SLOTS then i + 1 else i;
      assert i < |more| - 1 ==> more[i] == waiting[j] && ShowsAt(slots, head, waiting, j);
    }
  }

  lemma ShowsLess(slots: seq<string>, head: nat, waiting: seq<string>)
    requires Shows(slots, head, waiting) && waiting != []
    ensures Shows(slots, (head + 1) % SLOTS, waiting[1..]) && waiting[0] == slots[head]
  {
    WrapIsMod(head + 1);
    var next, rest := (head + 1) % SLOTS, waiting[1..];
    assert ShowsAt(slots, head, waiting, 0);
    forall i: nat ensures ShowsAt(slots, next, rest, i) {
      assert ShowsAt(slots, head, waiting, i + 1);
    }
  }

  /** What waits is the newest part of what was recorded; the rest was drained, in order
      and once each, or dropped, and the drops are reported or still to be. */
  ghost predicate Ledger(waiting: seq<string>, recorded: seq<string>, drained: seq<nat>, reported: nat, dropped: nat) {
    && |waiting| <= |recorded| && waiting == recorded[|recorded| - |waiting|..]
    && (forall i: nat :: IsLine(recorded, i))
    && |recorded| == |drained| + reported + dropped + |waiting|
    && (forall i: nat, j: nat :: InOrder(drained, i, j))
    && AllGone(drained, |recorded| - |waiting|)
  }

  ghost predicate AllGone(drained: seq<nat>, first: int) { forall i: nat :: IsGone(drained, first, i) }

  predicate IsLine(recorded: seq<string>, i: nat) { i < |recorded| ==> |recorded[i]| < LINE }

  predicate InOrder(drained: seq<nat>, i: nat, j: nat) { i < j < |drained| ==> drained[i] < drained[j] }

  predicate IsGone(drained: seq<nat>, first: int, i: nat) { i < |drained| ==> drained[i] < first }

  lemma LedgerAdds(waiting: seq<string>, recorded: seq<string>, drained: seq<nat>, reported: nat, dropped: nat, line: string)
    requires Ledger(waiting, recorded, drained, reported, dropped) && |line| < LINE
    ensures Ledger(Newest(waiting) + [line], recorded + [line], drained, reported, if |waiting| == SLOTS then dropped + 1 else dropped)
  {
    var more, left := recorded + [line], Newest(waiting) + [line];
    var first := |more| - |left|;
    assert waiting != [] ==> waiting[1..] == recorded[|recorded| - |waiting| + 1..];
    assert left == more[first..];
    forall i: nat ensures IsLine(more, i) { assert IsLine(recorded, i); }
    forall i: nat ensures IsGone(drained, first, i) { assert IsGone(drained, |recorded| - |waiting|, i); }
  }

  lemma LedgerTakes(waiting: seq<string>, recorded: seq<string>, drained: seq<nat>, reported: nat, dropped: nat)
    requires Ledger(waiting, recorded, drained, reported, dropped) && waiting != []
    ensures Ledger(waiting[1..], recorded, drained + [|recorded| - |waiting|], reported, dropped)
  {
    var first, next := |recorded| - |waiting|, |recorded| - |waiting| + 1;
    var more := drained + [first];
    assert waiting[1..] == recorded[next..];
    forall i: nat, j: nat ensures InOrder(more, i, j) { assert InOrder(drained, i, j) && IsGone(drained, first, i); }
    forall i: nat ensures IsGone(more, next, i) { assert IsGone(drained, first, i); }
  }

  class LogRing {
    const slot: array<string>
    var head: nat
    var count: nat
    var level: nat
    var dropped: nat
    /** What waits, oldest first; every record ever taken; which of them were drained; how
        many drops were reported. */
    ghost var waiting: seq<string>
    ghost var recorded: seq<string>
    ghost var drained: seq<nat>
    ghost var reported: nat

    ghost predicate Valid()
      reads this, slot
    {
      && slot.Length == SLOTS && head < SLOTS && count == |waiting| <= SLOTS && dropped <= LONG
      // Each of these is one proposition, so that a proof that ends in it is checked as a whole.
      && Shows(slot[..], head, waiting) == true
      && Ledger(waiting, recorded, drained, reported, dropped) == true
    }

    constructor ()
      ensures Valid() && fresh(slot) && recorded == [] && count == 0 && dropped == 0 && level == 0
    {
      slot := new string[SLOTS](_ => "");
      head, count, level, dropped := 0, 0, 0, 0;
      waiting, recorded, drained, reported := [], [], [], 0;
    }

    /** Take one record, in place of the oldest if the ring is full. */
    method Record(at: nat, line: string)
      requires Valid() && dropped < LONG
      modifies this, slot
      ensures Valid() && drained == old(drained) && reported == old(reported) && level == old(level)
      ensures at > level ==> recorded == old(recorded) && waiting == old(waiting) && dropped == old(dropped)
      ensures at <= level ==> recorded == old(recorded) + [Clip(line)]
      ensures at <= level && old(count) < 1024 ==> waiting == old(waiting) + [Clip(line)] && dropped == old(dropped)
      ensures at <= level && old(count) == 1024 ==>
                waiting == old(waiting)[1..] + [Clip(line)] && dropped == old(dropped) + 1
    {
      if at > level { return; }
      Push(Clip(line));
    }

    method Push(line: string)
      requires Valid() && dropped < LONG && |line| < LINE
      modifies this, slot
      ensures Valid() && drained == old(drained) && reported == old(reported) && level == old(level)
      ensures recorded == old(recorded) + [line]
      ensures waiting == Newest(old(waiting)) + [line] && |old(waiting)| == old(count)
      ensures dropped == old(dropped) + (if old(count) < SLOTS then 0 else 1)
      ensures count == if old(count) < SLOTS then old(count) + 1 else SLOTS
    {
      ghost var slots := slot[..];
      ghost var more := ShowsOneMore(slots, head, waiting, line);
      LedgerAdds(waiting, recorded, drained, reported, dropped, line);
      var k := Claim();
      slot[k] := line;
      waiting, recorded := more, recorded + [line];
      assert slot[..] == slots[k := line];
    }

    /** The slot for one more record: the next free one, or the oldest, which is lost. */
    method Claim() returns (k: nat)
      requires slot.Length == SLOTS && head < SLOTS && count <= SLOTS
      modifies `head, `count, `dropped
      ensures k == (old(head) + old(count)) % SLOTS
      ensures head == NextHead(old(head), old(count))
      ensures count == if old(count) == SLOTS then old(count) else old(count) + 1
      ensures dropped == if old(count) == SLOTS then old(dropped) + 1 else old(dropped)
    {
      k := (head + count) % SLOTS;
      if count == SLOTS {
        head := (head + 1) % SLOTS;
        dropped := dropped + 1;
      } else {
        count := count + 1;
      }
    }

    method Oldest() returns (line: string)
      requires Valid() && count > 0
      ensures line == waiting[0]
    {
      ShowsLess(slot[..], head, waiting);
      line := slot[head];
    }

    method Remove()
      requires Valid() && count > 0
      modifies this
      ensures Valid() && waiting == old(waiting)[1..] && recorded == old(recorded) && level == old(level)
      ensures drained == old(drained) + [|recorded| - old(count)]
      ensures reported == old(reported) && dropped == old(dropped)
    {
      ShowsLess(slot[..], head, waiting);
      LedgerTakes(waiting, recorded, drained, reported, dropped);
      waiting, drained := waiting[1..], drained + [|recorded| - |waiting|];
      head := (head + 1) % SLOTS;
      count := count - 1;
    }

    /** The lines waiting that fit, after a report of the drops not yet reported. */
    method Drain(out: array<char>, cap: int) returns (r: int)
      requires Valid() && cap <= out.Length
      modifies this, out
      ensures Valid() && recorded == old(recorded) && level == old(level)
      ensures cap <= 0 ==> r == ERR_BUFFER && out[..] == old(out[..]) && waiting == old(waiting)
                           && dropped == old(dropped) && drained == old(drained) && reported == old(reported)
      ensures cap > 0 ==> 0 <= r < cap && out[..r] == Answer(old(waiting), old(dropped), cap) && out[r] == '\0'
      ensures cap > 0 ==> out[cap..] == old(out[cap..])
      ensures cap > 0 ==> var k := Taken(old(waiting), old(dropped), cap);
                          waiting == old(waiting)[k..] && drained == Onward(old(drained), |recorded| - old(count), k)
      ensures cap > 0 ==> dropped == (if Reports(old(dropped), cap) then 0 else old(dropped))
                          && reported + dropped == old(reported) + old(dropped)
    {
      if cap <= 0 { return ERR_BUFFER; }
      var written := ReportDrops(out, cap);
      FilledIs(waiting, out[..written], cap);
      written := DrainLines(out, cap, written);
      out[written] := '\0';
      return written;
    }

    method ReportDrops(out: array<char>, cap: int) returns (written: nat)
      requires Valid() && 0 < cap <= out.Length
      modifies this, out
      ensures Valid() && recorded == old(recorded) && level == old(level)
      ensures waiting == old(waiting) && drained == old(drained) && count == old(count)
      ensures dropped == (if Reports(old(dropped), cap) then 0 else old(dropped))
      ensures reported + dropped == old(reported) + old(dropped)
      ensures written < cap && out[..written] == Head(old(dropped), cap) && out[cap..] == old(out[cap..])
    {
      written := 0;
      if dropped > 0 && cap > LINE {
        ReportFits(dropped);
        written := CopyWithin(out, 0, Report(dropped), cap);
        reported, dropped := reported + dropped, 0;
      }
    }

    method DrainLines(out: array<char>, cap: int, from: nat) returns (written: nat)
      requires Valid() && from < cap <= out.Length
      modifies this, out
      ensures Valid() && recorded == old(recorded) && level == old(level)
      ensures reported == old(reported) && dropped == old(dropped)
      ensures written < cap && out[cap..] == old(out[cap..])
      ensures (out[..written], waiting) == Filled(old(waiting), old(out[..from]), cap)
      ensures count <= old(count) && drained == Onward(old(drained), |recorded| - old(count), old(count) - count)
    {
      written := from;
      while count > 0
        invariant Valid() && recorded == old(recorded) && level == old(level)
        invariant reported == old(reported) && dropped == old(dropped)
        invariant written < cap && out[cap..] == old(out[cap..])
        invariant Filled(waiting, out[..written], cap) == Filled(old(waiting), old(out[..from]), cap)
        invariant count <= old(count) && drained == Onward(old(drained), |recorded| - old(count), old(count) - count)
        decreases count
      {
        OnwardOne(old(drained), |recorded| - old(count), old(count) - count);
        var took;
        took, written := DrainLine(out, cap, written);
        if !took { return; }
      }
    }

    /** The oldest line, if it fits with its newline and a terminator. */
    method DrainLine(out: array<char>, cap: int, at: nat) returns (took: bool, next: nat)
      requires Valid() && count > 0 && at < cap <= out.Length
      modifies this, out
      ensures Valid() && recorded == old(recorded) && level == old(level)
      ensures reported == old(reported) && dropped == old(dropped)
      ensures took == (at + |old(waiting)[0]| + 2 <= cap) && out[cap..] == old(out[cap..])
      ensures took ==> count == old(count) - 1 && waiting == old(waiting)[1..]
                       && drained == old(drained) + [|recorded| - old(count)]
                       && next == at + |old(waiting)[0]| + 1 && out[..next] == old(out[..at]) + (old(waiting)[0] + "\n")
      ensures !took ==> next == at && waiting == old(waiting) && drained == old(drained) && out[..at] == old(out[..at])
    {
      var line := Oldest();
      if at + |line| + 2 > cap { return false, at; }
      next := CopyWithin(out, at, line + "\n", cap);
      Remove();
      took := true;
    }
  }

  // ----- what a drain answers

  predicate Reports(dropped: nat, cap: int) { dropped > 0 && cap > LINE }

  function Head(dropped: nat, cap: int): string { if Reports(dropped, cap) then Report(dropped) else "" }

  function Taken(waiting: seq<string>, dropped: nat, cap: int): nat { Fitting(waiting, |Head(dropped, cap)|, cap) }

  function Answer(waiting: seq<string>, dropped: nat, cap: int): string {
    Head(dropped, cap) + Text(waiting[..Taken(waiting, dropped, cap)])
  }

  /** A copy that stays below `cap`. */
  method CopyWithin(out: array<char>, at: nat, s: string, cap: nat) returns (next: nat)
    requires at + |s| <= cap <= out.Length
    modifies out
    ensures next == at + |s| && out[..next] == old(out[..at]) + s && out[cap..] == old(out[cap..])
  {
    next := Copy(out, at, s);
    assert out[cap..] == out[next..][cap - next..];
  }

  method Copy(out: array<char>, at: nat, s: string) returns (next: nat)
    requires at + |s| <= out.Length
    modifies out
    ensures next == at + |s| && out[..next] == old(out[..at]) + s && out[next..] == old(out[next..])
  {
    next := at;
    for i := 0 to |s|
      invariant next == at + i && out[..next] == old(out[..at]) + s[..i] && out[next..] == old(out[next..])
    {
      out[next] := s[i];
      next := next + 1;
      assert out[..next] == out[..next - 1] + [s[i]] && s[..i + 1] == s[..i] + [s[i]];
    }
    assert s[..|s|] == s;
  }

  // ----- what the host's loop relies on

  /** With room for more than one line, an empty answer means that nothing waits and no
      drop is unreported. With less it need not: exactly when it says so is the guard. */
  lemma EmptyAnswer(waiting: seq<string>, dropped: nat, cap: int)
    requires cap > 0 && dropped <= LONG
    requires forall i :: 0 <= i < |waiting| ==> |waiting[i]| < LINE
    ensures Answer(waiting, dropped, cap) == "" <==>
              (dropped == 0 || cap <= LINE) && (waiting == [] || |waiting[0]| + 2 > cap)
    ensures cap > 256 ==> (Answer(waiting, dropped, cap) == "" <==> waiting == [] && dropped == 0)
  {
    if Reports(dropped, cap) { ReportFits(dropped); }
  }

  /** With 256 bytes or fewer it need not: a first line that does not fit stays behind an
      empty answer, however many times the ring is drained, and so does any number of drops. */
  lemma SmallBufferStalls(waiting: seq<string>, dropped: nat, cap: int)
    requires 0 < cap <= 256 && waiting != [] && |waiting[0]| + 2 > cap
    ensures Answer(waiting, dropped, cap) == "" && Taken(waiting, dropped, cap) == 0 && !Reports(dropped, cap)
  {
    assert waiting[..0] == [];
  }

  /** A ring that comes to that: 1025 records of one such line, and then no drain of `cap`
      bytes changes anything. */
  method StalledRing(line: string, out: array<char>, cap: nat) returns (ring: LogRing, first: int, second: int)
    requires 0 < cap <= 256 && cap <= out.Length && cap - 2 < |line| < 256
    modifies out
    ensures ring.Valid() && |ring.recorded| == 1025 && ring.drained == [] && ring.reported == 0
    ensures first == second == 0 && ring.dropped == 1 && |ring.waiting| == 1024
  {
    ring := Overfilled(line);
    SmallBufferStalls(ring.waiting, ring.dropped, cap);
    first := ring.Drain(out, cap);
    second := ring.Drain(out, cap);
  }

  method Overfilled(line: string) returns (ring: LogRing)
    requires |line| < LINE
    ensures fresh(ring) && fresh(ring.slot) && ring.Valid() && |ring.recorded| == SLOTS + 1 && ring.drained == []
    ensures ring.reported == 0 && ring.dropped == 1 && ring.count == SLOTS && Repeats(ring.waiting, line, SLOTS)
  {
    ring := new LogRing();
    for i := 0 to SLOTS + 1
      invariant fresh(ring) && fresh(ring.slot) && ring.Valid() && |ring.recorded| == i && ring.drained == []
      invariant ring.reported == 0 && ring.level == 0 && ring.dropped == if i <= SLOTS then 0 else 1
      invariant ring.count == (if i <= SLOTS then i else SLOTS) && Repeats(ring.waiting, line, ring.count)
    {
      RepeatsOn(ring.waiting, line, ring.count);
      ring.Push(line);
    }
  }

  predicate Repeats(waiting: seq<string>, line: string, n: nat) {
    |waiting| == n && forall i :: 0 <= i < n ==> waiting[i] == line
  }

  lemma RepeatsOn(waiting: seq<string>, line: string, n: nat)
    requires Repeats(waiting, line, n) && n <= SLOTS
    ensures Repeats(Newest(waiting) + [line], line, if n < SLOTS then n + 1 else SLOTS)
  {
  }

  // ----- from the record to the host

  /** Where the first newline is, or the length. */
  function Newline(s: string): (k: nat)
    ensures k <= |s| && '\n' !in s[..k] && (k < |s| ==> s[k] == '\n')
  {
    if s == "" || s[0] == '\n' then 0
    else
      var k := Newline(s[1..]);
      assert s[..k + 1] == [s[0]] + s[1..][..k];
      k + 1
  }

  /** The lines of a text as its reader cuts them. */
  function Lines(s: string): seq<string> {
    var k := Newline(s);
    if k == |s| then [] else [s[..k]] + Lines(s[k + 1..])
  }

  predicate Singles(lines: seq<string>) { forall i :: 0 <= i < |lines| ==> '\n' !in lines[i] }

  lemma {:induction false} NewlineAt(line: string, rest: string)
    requires '\n' !in line
    ensures Newline(line + "\n" + rest) == |line|
  {
    if line != "" {
      assert (line + "\n" + rest)[1..] == line[1..] + "\n" + rest;
      NewlineAt(line[1..], rest);
    }
  }

  lemma {:induction false} LinesOfText(lines: seq<string>)
    requires Singles(lines)
    ensures Lines(Text(lines)) == lines
  {
    if lines != [] {
      var rest := Text(lines[1..]);
      var s := lines[0] + "\n" + rest;
      NewlineAt(lines[0], rest);
      assert s[..|lines[0]|] == lines[0] && s[|lines[0]| + 1..] == rest;
      LinesOfText(lines[1..]);
    }
  }

  lemma {:induction false} AllFit(lines: seq<string>, used: nat, cap: int)
    requires used + |Text(lines)| < cap
    ensures Fitting(lines, used, cap) == |lines|
  {
    if lines != [] { AllFit(lines[1..], used + |lines[0]| + 1, cap); }
  }

  /** Lines recorded at an enabled level into an empty ring that has dropped nothing are what
      the next drain with room for them hands to the host, each as it was, in their order. */
  method RecordAndDrain(ring: LogRing, at: nat, lines: seq<string>, out: array<char>, cap: int) returns (r: int)
    requires ring.Valid() && ring.count == 0 && ring.dropped == 0 && at <= ring.level
    requires |lines| <= 1024 && forall i :: 0 <= i < |lines| ==> |lines[i]| < 256
    requires |Text(lines)| < cap <= out.Length
    modifies ring, ring.slot, out
    ensures ring.Valid() && ring.count == 0 && ring.dropped == 0
    ensures 0 <= r < cap && out[..r] == Text(lines)
    ensures Singles(lines) ==> Lines(out[..r]) == lines
    ensures |lines| == 1 ==> out[..r] == lines[0] + "\n"
  {
    for i := 0 to |lines|
      invariant ring.Valid() && ring.dropped == 0 && at <= ring.level && ring.waiting == lines[..i]
    {
      ring.Record(at, lines[i]);
      assert lines[..i + 1] == lines[..i] + [lines[i]];
    }
    assert lines[..|lines|] == lines;
    AllFit(lines, 0, cap);
    r := ring.Drain(out, cap);
    if Singles(lines) { LinesOfText(lines); }
    assert |lines| == 1 ==> lines[1..] == [];
  }
}
