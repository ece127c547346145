/** The Windows command line: `command_line` against the documented rules by which the C
    runtime of the child parses it back. */
module CommandLines {

  const LIMIT := 32767

  // ----- writing

  /** Whether `p` is at the end, at a quote, or in a run of backslashes before one. */
  predicate EndsRun(s: string, p: nat)
    requires p <= |s|
    decreases |s| - p
  {
    p == |s| || s[p] == '"' || (s[p] == '\\' && EndsRun(s, p + 1))
  }

  /** An argument from `p` on as it stands between its quotes, before `rest`: backslashes
      are doubled before a quote and at the end, and quotes are escaped. */
  function Written(s: string, p: nat, rest: string): string
    requires p <= |s|
    decreases |s| - p
  {
    if p == |s| then rest
    else if s[p] == '"' || (s[p] == '\\' && EndsRun(s, p)) then ['\\'] + ([s[p]] + Written(s, p + 1, rest))
    else [s[p]] + Written(s, p + 1, rest)
  }

  function Quoted(s: string, rest: string): string { ['"'] + Written(s, 0, ['"'] + rest) }

  function Following(args: seq<string>): string {
    if args == [] then "" else [' '] + Quoted(args[0], Following(args[1..]))
  }

  function Line(args: seq<string>): string {
    if args == [] then "" else Quoted(args[0], Following(args[1..]))
  }

  // ----- reading

  predicate Blank(c: char) { c == ' ' || c == '\t' }

  /** The program name: quotes only keep blanks together, backslashes mean themselves. */
  function Program(s: string, quoted: bool): (string, string) {
    if s == "" then ("", "")
    else if s[0] == '"' then Program(s[1..], !quoted)
    else if Blank(s[0]) && !quoted then ("", s[1..])
    else var r := Program(s[1..], quoted); ([s[0]] + r.0, r.1)
  }

  predicate BeforeQuote(s: string): (r: bool)
    ensures r ==> s != "" && (s[0] == '\\' ==> |s| > 1)
  {
    s != "" && (s[0] == '"' || (s[0] == '\\' && BeforeQuote(s[1..])))
  }

  /** An argument. Of backslashes that run up to a quote each pair stands for one, and a
      last odd one makes the quote stand for itself; so does a doubled quote in quotes. */
  function Argument(s: string, quoted: bool): (r: (string, string))
    ensures |r.1| < |s| || s == r.1 == ""
    decreases |s|
  {
    if s == "" then ("", "")
    else if s[0] == '\\' && BeforeQuote(s) then var r := Argument(s[2..], quoted); ([s[1]] + r.0, r.1)
    else if s[0] == '"' then
      if quoted && |s| > 1 && s[1] == '"' then var r := Argument(s[2..], quoted); (['"'] + r.0, r.1)
      else Argument(s[1..], !quoted)
    else if Blank(s[0]) && !quoted then ("", s[1..])
    else var r := Argument(s[1..], quoted); ([s[0]] + r.0, r.1)
  }

  function Arguments(s: string): seq<string>
    decreases |s|
  {
    if s == "" then []
    else if Blank(s[0]) then Arguments(s[1..])
    else var r := Argument(s, false); [r.0] + Arguments(r.1)
  }

  function Parse(line: string): seq<string> {
    var r := Program(line, false);
    [r.0] + Arguments(r.1)
  }

  // ----- the published rules for backslashes

  /** `n` backslashes, then `t`. */
  function Run(n: nat, t: string): (r: string)
    ensures |r| == n + |t|
  {
    if n == 0 then t else ['\\'] + Run(n - 1, t)
  }

  lemma {:induction false} RunBeforeQuote(n: nat, t: string)
    ensures BeforeQuote(Run(n, t)) == BeforeQuote(t)
  {
    if n > 0 {
      RunBeforeQuote(n - 1, t);
      assert Run(n, t)[1..] == Run(n - 1, t);
    }
  }

  /** An even number of them before a quote: one for every pair, and the quote delimits. */
  lemma {:induction false} EvenRule(n: nat, t: string, quoted: bool)
    requires t != "" && t[0] == '"'
    ensures Argument(Run(2 * n, t), quoted) == (Run(n, Argument(t, quoted).0), Argument(t, quoted).1)
  {
    if n > 0 {
      var s := Run(2 * n, t);
      RunBeforeQuote(2 * n, t);
      assert s[1..] == Run(2 * n - 1, t) && s[1..][1..] == Run(2 * (n - 1), t);
      assert s[2..] == s[1..][1..] && s[1] == s[1..][0];
      EvenRule(n - 1, t, quoted);
    }
  }

  /** An odd number: one for every pair, and the quote stands for itself. */
  lemma {:induction false} OddRule(n: nat, t: string, quoted: bool)
    ensures Argument(Run(2 * n + 1, ['"'] + t), quoted) == (Run(n, ['"'] + Argument(t, quoted).0), Argument(t, quoted).1)
  {
    var s := Run(2 * n + 1, ['"'] + t);
    RunBeforeQuote(2 * n + 1, ['"'] + t);
    assert s[1..] == Run(2 * n, ['"'] + t) && s[2..] == s[1..][1..] && s[1] == s[1..][0];
    if n > 0 {
      assert s[2..] == Run(2 * (n - 1) + 1, ['"'] + t);
      OddRule(n - 1, t, quoted);
    } else {
      assert s[2..] == t;
    }
  }

  /** Before anything else they mean themselves. */
  lemma {:induction false} PlainRule(n: nat, t: string, quoted: bool)
    requires t == "" || (t[0] != '\\' && t[0] != '"')
    ensures Argument(Run(n, t), quoted) == (Run(n, Argument(t, quoted).0), Argument(t, quoted).1)
  {
    if n > 0 {
      RunBeforeQuote(n, t);
      assert Run(n, t)[1..] == Run(n - 1, t);
      PlainRule(n - 1, t, quoted);
    }
  }

  /** Characters without a meaning of their own. */
  predicate Ordinary(w: string) {
    forall i :: 0 <= i < |w| ==> w[i] != ' ' && w[i] != '\t' && w[i] != '"' && w[i] != '\\'
  }

  /** Such a word ends at the first blank or tab outside of quotes, and in quotes it goes on. */
  lemma {:induction false} WordRule(w: string, c: char, t: string)
    requires Ordinary(w) && (c == ' ' || c == '\t')
    ensures Argument(w + [c] + t, false) == (w, t)
    ensures Argument(w + [c] + t, true) == (w + [c] + Argument(t, true).0, Argument(t, true).1)
  {
    var s, r := w + [c] + t, Argument(t, true).0;
    if w == "" {
      assert s[1..] == t && w + [c] + r == [c] + r;
    } else {
      assert s[1..] == w[1..] + [c] + t && s[0] == w[0];
      WordRule(w[1..], c, t);
      assert w == [w[0]] + w[1..] && w + [c] + r == [w[0]] + (w[1..] + [c] + r);
    }
  }

  /** Blanks and tabs between the arguments count for nothing. */
  lemma BlanksRule(c: char, s: string)
    requires c == ' ' || c == '\t'
    ensures Arguments([c] + s) == Arguments(s)
  {
    assert ([c] + s)[1..] == s;
  }

  /** A quote opens and closes, but two of them within quotes stand for one. */
  lemma QuoteRule(t: string)
    ensures Argument(['"'] + t, false) == Argument(t, true)
    ensures (t == "" || t[0] != '"') ==> Argument(['"'] + t, true) == Argument(t, false)
    ensures Argument("\"\"" + t, true) == (['"'] + Argument(t, true).0, Argument(t, true).1)
  {
    assert (['"'] + t)[1..] == t && ("\"\"" + t)[2..] == t;
  }

  // ----- one argument

  predicate Ends(tail: string) { tail == "" || tail[0] == ' ' }

  function After(tail: string): string { if tail == "" then "" else tail[1..] }

  lemma {:induction false} WrittenBeforeQuote(a: string, p: nat, tail: string)
    requires p <= |a|
    ensures BeforeQuote(Written(a, p, ['"'] + tail)) == EndsRun(a, p)
    decreases |a| - p
  {
    if p < |a| {
      var t := Written(a, p + 1, ['"'] + tail);
      WrittenBeforeQuote(a, p + 1, tail);
      assert ([a[p]] + t)[1..] == t && (['\\'] + ([a[p]] + t))[1..] == [a[p]] + t;
    }
  }

  lemma ClosingRead(tail: string)
    requires Ends(tail)
    ensures Argument(['"'] + tail, true) == ("", After(tail))
  {
    assert (['"'] + tail)[1..] == tail;
  }

  /** An escaped quote or a doubled backslash. */
  lemma EscapedRead(c: char, t: string)
    requires c == '"' || (c == '\\' && BeforeQuote(t))
    ensures Argument(['\\'] + ([c] + t), true) == ([c] + Argument(t, true).0, Argument(t, true).1)
  {
    var s := ['\\'] + ([c] + t);
    assert ([c] + t)[1..] == t && BeforeQuote([c] + t);
    assert s[1..] == [c] + t && s[2..] == t && s[1] == c;
  }

  lemma CharRead(c: char, t: string)
    requires c != '"' && (c == '\\' ==> !BeforeQuote(t))
    ensures Argument([c] + t, true) == ([c] + Argument(t, true).0, Argument(t, true).1)
  {
    assert ([c] + t)[1..] == t;
  }

  lemma {:induction false} WrittenRead(a: string, p: nat, tail: string)
    requires p <= |a| && Ends(tail)
    ensures Argument(Written(a, p, ['"'] + tail), true) == (a[p..], After(tail))
    decreases |a| - p
  {
    if p == |a| {
      ClosingRead(tail);
    } else {
      var t := Written(a, p + 1, ['"'] + tail);
      WrittenRead(a, p + 1, tail);
      WrittenBeforeQuote(a, p + 1, tail);
      assert a[p..] == [a[p]] + a[p + 1..];
      if a[p] == '"' || (a[p] == '\\' && EndsRun(a, p)) { EscapedRead(a[p], t); } else { CharRead(a[p], t); }
    }
  }

  lemma QuotedRead(a: string, tail: string)
    requires Ends(tail)
    ensures Argument(Quoted(a, tail), false) == (a, After(tail))
  {
    var t := Written(a, 0, ['"'] + tail);
    WrittenRead(a, 0, tail);
    assert (['"'] + t)[1..] == t && a[0..] == a;
  }

  lemma ArgumentsNext(a: string, tail: string)
    requires Ends(tail)
    ensures Arguments(Quoted(a, tail)) == [a] + Arguments(After(tail))
  {
    QuotedRead(a, tail);
    ArgumentsStep(Quoted(a, tail));
  }

  lemma ArgumentsStep(s: string)
    requires s != "" && s[0] == '"'
    ensures Arguments(s) == [Argument(s, false).0] + Arguments(Argument(s, false).1)
  {
  }

  lemma AfterFollowing(args: seq<string>)
    ensures Ends(Following(args))
    ensures args != [] ==> After(Following(args)) == Quoted(args[0], Following(args[1..]))
    ensures args == [] ==> After(Following(args)) == ""
  {
    if args != [] {
      var q := Quoted(args[0], Following(args[1..]));
      assert ([' '] + q)[1..] == q;
    }
  }

  lemma {:induction false} ArgumentsRead(args: seq<string>)
    ensures Arguments(After(Following(args))) == args
    decreases |args|
  {
    AfterFollowing(args);
    if args != [] {
      AfterFollowing(args[1..]);
      ArgumentsNext(args[0], Following(args[1..]));
      ArgumentsRead(args[1..]);
      assert args == [args[0]] + args[1..];
    }
  }

  // ----- the program name

  /** What the program name must look like to come back. */
  predicate Nameable(a: string) { '"' !in a && (a != "" ==> a[|a| - 1] != '\\') }

  lemma {:induction false} ProgramDropsQuotes(s: string, quoted: bool)
    ensures '"' !in Program(s, quoted).0
    decreases |s|
  {
    if s != "" {
      ProgramDropsQuotes(s[1..], true);
      ProgramDropsQuotes(s[1..], false);
    }
  }

  /** Without quotes only the backslashes at the end come out doubled. */
  lemma {:induction false} ProgramWritten(a: string, p: nat, tail: string)
    requires p <= |a| && '"' !in a[p..] && Ends(tail)
    ensures var r := Program(Written(a, p, ['"'] + tail), true);
            && r.1 == After(tail) && |r.0| >= |a| - p
            && if p == |a| || a[|a| - 1] != '\\' then r.0 == a[p..] else |r.0| > |a| - p
    decreases |a| - p
  {
    if p == |a| {
      assert (['"'] + tail)[1..] == tail;
    } else {
      var t := Written(a, p + 1, ['"'] + tail);
      assert a[p..] == [a[p]] + a[p + 1..];
      ProgramWritten(a, p + 1, tail);
      ProgramChar(a[p], t);
      ProgramChar('\\', [a[p]] + t);
      if EndsRun(a, p) { RunToEnd(a, p); }
      assert a[p] == a[p..][0] && (p + 1 == |a| ==> EndsRun(a, p + 1));
    }
  }

  lemma ProgramChar(c: char, t: string)
    requires c != '"'
    ensures Program([c] + t, true) == ([c] + Program(t, true).0, Program(t, true).1)
  {
    assert ([c] + t)[1..] == t;
  }

  /** Without quotes a run that ends ends the argument. */
  lemma {:induction false} RunToEnd(a: string, p: nat)
    requires p < |a| && '"' !in a[p..] && EndsRun(a, p)
    ensures a[|a| - 1] == '\\'
    decreases |a| - p
  {
    assert a[p] == a[p..][0];
    if p + 1 < |a| {
      assert a[p..] == [a[p]] + a[p + 1..];
      RunToEnd(a, p + 1);
    }
  }

  lemma FirstQuoted(a: string, tail: string)
    requires Ends(tail)
    ensures Program(Quoted(a, tail), false).0 == a <==> Nameable(a)
    ensures Nameable(a) ==> Program(Quoted(a, tail), false).1 == After(tail)
  {
    var s := Quoted(a, tail);
    assert s[1..] == Written(a, 0, ['"'] + tail) && a[0..] == a;
    if '"' in a {
      ProgramDropsQuotes(s, false);
    } else {
      ProgramWritten(a, 0, tail);
    }
  }

  /** The command line parses back to the arguments exactly when the program name has no
      quote and does not end in a backslash. */
  lemma LineParsesBack(args: seq<string>)
    requires args != []
    ensures Parse(Line(args)) == args <==> Nameable(args[0])
  {
    var tail := Following(args[1..]);
    AfterFollowing(args[1..]);
    ArgumentsRead(args[1..]);
    FirstQuoted(args[0], tail);
    assert args == [args[0]] + args[1..];
    assert Parse(Line(args))[0] == Program(Quoted(args[0], tail), false).0;
  }

  // ----- the buffer

  function Capacity(args: seq<string>): nat {
    if args == [] then 1 else 2 * |args[0]| + 3 + Capacity(args[1..])
  }

  lemma {:induction false} WrittenFits(s: string, p: nat, rest: string)
    requires p <= |s|
    ensures |Written(s, p, rest)| <= 2 * (|s| - p) + |rest|
    decreases |s| - p
  {
    if p < |s| { WrittenFits(s, p + 1, rest); }
  }

  lemma {:induction false} FollowingFits(args: seq<string>)
    ensures |Following(args)| < Capacity(args)
    decreases |args|
  {
    if args != [] {
      FollowingFits(args[1..]);
      WrittenFits(args[0], 0, ['"'] + Following(args[1..]));
    }
  }

  lemma LineFits(args: seq<string>)
    ensures |Line(args)| < Capacity(args)
  {
    if args != [] {
      FollowingFits(args[1..]);
      WrittenFits(args[0], 0, ['"'] + Following(args[1..]));
    }
  }

  /** How many characters of an argument, from `p` on, are written without an escape. */
  function Bare(s: string, p: nat): nat
    requires p <= |s|
    decreases |s| - p
  {
    if p == |s| then 0
    else (if s[p] == '"' || (s[p] == '\\' && EndsRun(s, p)) then 0 else 1) + Bare(s, p + 1)
  }

  function AllBare(args: seq<string>): nat { if args == [] then 0 else Bare(args[0], 0) + AllBare(args[1..]) }

  lemma {:induction false} WrittenLength(s: string, p: nat, rest: string)
    requires p <= |s|
    ensures |Written(s, p, rest)| + Bare(s, p) == 2 * (|s| - p) + |rest|
    decreases |s| - p
  {
    if p < |s| { WrittenLength(s, p + 1, rest); }
  }

  lemma {:induction false} FollowingLength(args: seq<string>)
    ensures |Following(args)| + AllBare(args) + 1 == Capacity(args)
  {
    if args != [] {
      FollowingLength(args[1..]);
      WrittenLength(args[0], 0, ['"'] + Following(args[1..]));
    }
  }

  /** What is refused is not the long line but the large reserve: a line is refused exactly
      when it and the characters it writes without an escape come to more than 32765. */
  lemma RefusedWhen(args: seq<string>)
    requires args != []
    ensures Capacity(args) > LIMIT <==> |Line(args)| + AllBare(args) > 32765
  {
    FollowingLength(args[1..]);
    WrittenLength(args[0], 0, ['"'] + Following(args[1..]));
  }

  /** So an argument of 16383 letters is refused, for a line of 16385 characters. */
  lemma ShortLineRefused(s: string)
    requires |s| == 16383 && '"' !in s && '\\' !in s
    ensures |Line([s])| == 16385 && Capacity([s]) == 32770 > LIMIT
  {
    assert [s][1..] == [];
    WrittenLength(s, 0, ['"'] + Following([]));
    AllOfIt(s, 0);
  }

  lemma {:induction false} AllOfIt(s: string, p: nat)
    requires p <= |s| && '"' !in s && '\\' !in s
    ensures Bare(s, p) == |s| - p
    decreases |s| - p
  {
    if p < |s| {
      assert s[p] in s;
      AllOfIt(s, p + 1);
    }
  }

  lemma {:induction false} CapacityMore(args: seq<string>, i: nat)
    requires i < |args|
    ensures Capacity(args[..i + 1]) == Capacity(args[..i]) + 2 * |args[i]| + 3
    decreases i
  {
    if i > 0 {
      CapacityMore(args[1..], i - 1);
      assert args[..i + 1][1..] == args[1..][..i] && args[..i][1..] == args[1..][..i - 1];
    } else {
      assert args[..1][1..] == [] && args[..0] == [];
    }
  }

  /** `at` characters are written, and with `left` to come they make the whole line. */
  ghost predicate Writing(line: array<char>, at: nat, left: string, whole: string)
    reads line
  {
    && at <= |whole| < line.Length && line[..at] + left == whole
    && forall k :: |whole| <= k < line.Length ==> line[k] == '\0'
  }

  method Put(line: array<char>, at: nat, c: char, ghost left: string, ghost whole: string) returns (next: nat)
    requires Writing(line, at, [c] + left, whole)
    modifies line
    ensures next == at + 1 && Writing(line, next, left, whole)
  {
    assert whole[at] == c;
    line[at] := c;
    next := at + 1;
    assert line[..next] == old(line[..at]) + [c];
  }

  /** Where the run of backslashes at `p` ends. */
  function RunEnd(s: string, p: nat): (q: nat)
    requires p <= |s|
    ensures p <= q <= |s|
    decreases |s| - p
  {
    if p == |s| || s[p] != '\\' then p else RunEnd(s, p + 1)
  }

  method Skip(s: string, p: nat) returns (q: nat)
    requires p <= |s|
    ensures q == RunEnd(s, p) && (q < |s| ==> s[q] != '\\')
  {
    q := p;
    while q < |s| && s[q] == '\\'
      invariant p <= q <= |s|
      invariant RunEnd(s, q) == RunEnd(s, p)
    {
      q := q + 1;
    }
  }

  method Fill(line: array<char>, from: nat, n: nat, ghost left: string, ghost whole: string) returns (at: nat)
    requires Writing(line, from, Run(n, left), whole)
    modifies line
    ensures Writing(line, at, left, whole)
  {
    at := from;
    for j := 0 to n
      invariant Writing(line, at, Run(n - j, left), whole)
    {
      at := Put(line, at, '\\', Run(n - j - 1, left), whole);
    }
  }

  predicate Doubles(s: string, q: nat)
    requires q <= |s|
  {
    q == |s| || s[q] == '"'
  }

  lemma {:induction false} RunDecides(s: string, p: nat)
    requires p <= |s|
    ensures EndsRun(s, p) == Doubles(s, RunEnd(s, p))
    decreases |s| - p
  {
    if p < |s| && s[p] == '\\' { RunDecides(s, p + 1); }
  }

  lemma WrittenSlash(s: string, p: nat, rest: string)
    requires p < |s| && s[p] == '\\'
    ensures var t := Written(s, p + 1, rest);
            Written(s, p, rest) == if Doubles(s, RunEnd(s, p + 1)) then ['\\'] + (['\\'] + t) else ['\\'] + t
  {
    RunDecides(s, p);
  }

  /** How many backslashes the run at `p` is written with. */
  function Slashes(s: string, p: nat): nat
    requires p <= |s|
  {
    var q := RunEnd(s, p);
    if Doubles(s, q) then 2 * (q - p) else q - p
  }

  /** Counting the run first comes to the same as deciding at each backslash. */
  lemma {:induction false} WrittenRun(s: string, p: nat, rest: string)
    requires p <= |s|
    ensures Written(s, p, rest) == Run(Slashes(s, p), Written(s, RunEnd(s, p), rest))
    decreases |s| - p
  {
    if p < |s| && s[p] == '\\' {
      WrittenRun(s, p + 1, rest);
      WrittenSlash(s, p, rest);
      OneMore(s, p, Written(s, RunEnd(s, p), rest));
    }
  }

  lemma OneMore(s: string, p: nat, t: string)
    requires p < |s| && s[p] == '\\'
    ensures var r := Run(Slashes(s, p + 1), t);
            Run(Slashes(s, p), t) == if Doubles(s, RunEnd(s, p + 1)) then ['\\'] + (['\\'] + r) else ['\\'] + r
  {
    var n := Slashes(s, p + 1);
    assert Slashes(s, p) == if Doubles(s, RunEnd(s, p + 1)) then n + 2 else n + 1;
  }

  /** One character, escaped if it is a quote. */
  method Emit(line: array<char>, from: nat, s: string, q: nat, ghost rest: string, ghost whole: string) returns (at: nat)
    requires q < |s| && s[q] != '\\' && Writing(line, from, Written(s, q, rest), whole)
    modifies line
    ensures Writing(line, at, Written(s, q + 1, rest), whole)
  {
    at := from;
    if s[q] == '"' { at := Put(line, at, '\\', ['"'] + Written(s, q + 1, rest), whole); }
    at := Put(line, at, s[q], Written(s, q + 1, rest), whole);
  }

  /** The inner loop of the encoder: one argument up to its closing quote. */
  method Write(line: array<char>, from: nat, s: string, ghost rest: string, ghost whole: string) returns (at: nat)
    requires Writing(line, from, Written(s, 0, rest), whole)
    modifies line
    ensures Writing(line, at, rest, whole)
  {
    at := from;
    var p := 0;
    while true
      invariant 0 <= p <= |s|
      invariant Writing(line, at, Written(s, p, rest), whole)
      decreases |s| - p
    {
      WrittenRun(s, p, rest);
      var q := Skip(s, p);
      at := Fill(line, at, if Doubles(s, q) then 2 * (q - p) else q - p, Written(s, q, rest), whole);
      if q == |s| { break; }
      at := Emit(line, at, s, q, rest, whole);
      p := q + 1;
    }
  }

  /** Writes the line into a buffer of the capacity it reserves, without ever running
      over it, and leaves it terminated; what would reserve more than 32767 is refused, so
      every line that is written has fewer characters than that. */
  method CommandLine(args: seq<string>) returns (line: array?<char>)
    ensures line == null <==> Capacity(args) > 32767
    ensures line != null ==> |Line(args)| < line.Length == Capacity(args) <= 32767
    ensures line != null ==> line[..|Line(args)|] == Line(args)
    ensures line != null ==> forall k :: |Line(args)| <= k < line.Length ==> line[k] == '\0'
  {
    var capacity := 1;
    for i := 0 to |args|
      invariant capacity == Capacity(args[..i])
    {
      CapacityMore(args, i);
      capacity := capacity + 2 * |args[i]| + 3;
    }
    assert args[..|args|] == args;
    if capacity > LIMIT { return null; }
    var buffer := new char[capacity](_ => '\0');
    LineFits(args);
    ghost var whole := Line(args);
    var at := 0;
    assert buffer[..0] + whole == whole;
    for i := 0 to |args|
      invariant Writing(buffer, at, if i == 0 then whole else Following(args[i..]), whole)
    {
      assert args[i..][1..] == args[i + 1..];
      ghost var tail := Following(args[i + 1..]);
      if i > 0 { at := Put(buffer, at, ' ', Quoted(args[i], tail), whole); }
      at := Put(buffer, at, '"', Written(args[i], 0, ['"'] + tail), whole);
      at := Write(buffer, at, args[i], ['"'] + tail, whole);
      at := Put(buffer, at, '"', tail, whole);
    }
    assert args == [] ==> whole == "";
    assert args[|args|..] == [];
    return buffer;
  }
}
