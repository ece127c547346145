/** The Windows path checks `component`, `relative_path` and `local_path`, and what they
    guarantee to the command line. */
module LocalPaths {
  import opened CommandLines

  predicate Forbidden(c: char) { (c as int) < 32 || c in "<>:\"/\\|?*" }

  function Upper(c: char): char {
    if 'a' <= c <= 'z' then (c as int - 'a' as int + 'A' as int) as char else c
  }

  function Raised(s: string): (r: string)
    ensures |r| == |s| && forall i :: 0 <= i < |s| ==> r[i] == Upper(s[i])
  {
    seq(|s|, i requires 0 <= i < |s| => Upper(s[i]))
  }

  // ----- what the checks mean

  /** A component up to its first dot. */
  function Base(name: string): (r: string)
    ensures r <= name && '.' !in r && (|r| < |name| ==> name[|r|] == '.')
  {
    if name == "" || name[0] == '.' then "" else [name[0]] + Base(name[1..])
  }

  /** The names of devices, which Windows finds in every directory. */
  predicate Device(base: string) {
    || Raised(base) in ["CON", "PRN", "AUX", "NUL", "CONIN$", "CONOUT$"]
    || (|base| == 4 && Raised(base[..3]) in ["COM", "LPT"]
        && ('0' <= base[3] <= '9' || base[3] as int in {0xb9, 0xb2, 0xb3}))
  }

  predicate ComponentOk(name: string) {
    && name != "" && name[|name| - 1] !in ". " && !Device(Base(name))
    && Allowed(name)
  }

  predicate Allowed(name: string) { forall i :: 0 <= i < |name| ==> !Forbidden(name[i]) }

  function Split(s: string): (r: seq<string>)
    ensures r != []
  {
    if s == "" then [""]
    else if s[0] == '\\' then [""] + Split(s[1..])
    else var r := Split(s[1..]); [[s[0]] + r[0]] + r[1..]
  }

  predicate RelativeOk(path: string) {
    path != "" && AllOk(Split(path))
  }

  predicate AllOk(names: seq<string>) { forall i :: 0 <= i < |names| ==> ComponentOk(names[i]) }

  predicate Letter(c: char) { 'A' <= c <= 'Z' || 'a' <= c <= 'z' }

  predicate LocalOk(path: string) {
    |path| >= 4 && Letter(path[0]) && path[1] == ':' && path[2] == '\\' && RelativeOk(path[3..])
  }

  function Slashed(s: string): (r: string)
    ensures |r| == |s| && forall i :: 0 <= i < |s| ==> r[i] == if s[i] == '/' then '\\' else s[i]
  {
    seq(|s|, i requires 0 <= i < |s| => if s[i] == '/' then '\\' else s[i])
  }

  // ----- the checks

  /** A device name is short, so that fifteen characters of the base decide. */
  lemma ShortDecides(base: string, kept: string)
    requires kept == if |base| < 15 then base else base[..15]
    ensures Device(kept) == Device(base)
  {
  }

  lemma {:induction false} BaseIs(name: string, i: nat)
    requires i <= |name| && '.' !in name[..i] && (i < |name| ==> name[i] == '.')
    ensures Base(name) == name[..i]
  {
    if i > 0 {
      assert name[0] == name[..i][0] && name[1..][..i - 1] == name[..i][1..];
      BaseIs(name[1..], i - 1);
      assert name[..i] == [name[0]] + name[1..][..i - 1];
    }
  }

  lemma StemDecides(name: string, base: string, i: nat)
    requires i <= |name| && '.' !in name[..i] && (i < |name| ==> name[i] == '.')
    requires base == if i < 15 then name[..i] else name[..15]
    ensures Device(base) == Device(Base(name))
  {
    BaseIs(name, i);
    assert i >= 15 ==> name[..15] == name[..i][..15];
    ShortDecides(name[..i], base);
  }

  /** The characters up to the first dot, of which fifteen are kept. */
  method Stem(name: string) returns (ok: bool, base: string, i: nat)
    ensures i <= |name| && ok == (Allowed(name[..i]) && (i < |name| ==> name[i] == '.'))
    ensures ok ==> (i < |name| ==> !Forbidden(name[i])) && Device(base) == Device(Base(name))
    ensures !ok ==> !Allowed(name)
  {
    base, i := "", 0;
    while i < |name| && name[i] != '.'
      invariant 0 <= i <= |name|
      invariant '.' !in name[..i] && Allowed(name[..i])
      invariant base == if i < 15 then name[..i] else name[..15]
    {
      if Forbidden(name[i]) {
        return false, base, i;
      }
      assert name[..i + 1] == name[..i] + [name[i]];
      if |base| < 15 { base := base + [name[i]]; }
      i := i + 1;
    }
    StemDecides(name, base, i);
    ok := true;
  }

  method Component(name: string) returns (ok: bool)
    ensures ok == ComponentOk(name)
  {
    if |name| == 0 || name[|name| - 1] == '.' || name[|name| - 1] == ' ' { return false; }
    var base, i;
    ok, base, i := Stem(name);
    if !ok || Device(base) { return false; }
    while i < |name|
      invariant 0 <= i <= |name| && Allowed(name[..i])
    {
      if Forbidden(name[i]) { return false; }
      assert name[..i + 1] == name[..i] + [name[i]];
      i := i + 1;
    }
    assert name[..|name|] == name;
  }

  /** The next backslash, or the end. */
  method Find(path: string, from: nat) returns (to: nat)
    requires from <= |path|
    ensures from <= to <= |path| && '\\' !in path[from..to] && (to < |path| ==> path[to] == '\\')
  {
    to := from;
    while to < |path| && path[to] != '\\'
      invariant from <= to <= |path| && '\\' !in path[from..to]
    {
      assert path[from..to + 1] == path[from..to] + [path[to]];
      to := to + 1;
    }
  }

  lemma {:induction false} SplitFirst(s: string, n: nat)
    requires n <= |s| && '\\' !in s[..n] && (n < |s| ==> s[n] == '\\')
    ensures Split(s) == [s[..n]] + if n == |s| then [] else Split(s[n + 1..])
  {
    if n > 0 {
      assert s[0] == s[..n][0] && s[1..][..n - 1] == s[..n][1..];
      SplitFirst(s[1..], n - 1);
      assert s[..n] == [s[0]] + s[1..][..n - 1];
    } else {
      assert s[..0] == "";
    }
  }

  method RelativePath(path: string) returns (ok: bool)
    ensures ok == RelativeOk(path)
  {
    if path == "" { return false; }
    var at := 0;
    assert path[0..] == path;
    while true
      invariant 0 <= at < |path|
      invariant RelativeOk(path) == AllOk(Split(path[at..]))
      decreases |path| - at
    {
      var end := Find(path, at);
      SplitFrom(path, at, end);
      ok := Component(path[at..end]);
      if !ok || end == |path| { return; }
      at := end + 1;
      if at == |path| { return false; }
    }
  }

  lemma SplitFrom(path: string, at: nat, end: nat)
    requires at <= end <= |path| && '\\' !in path[at..end] && (end < |path| ==> path[end] == '\\')
    ensures AllOk(Split(path[at..])) == (ComponentOk(path[at..end]) && (end < |path| ==> AllOk(Split(path[end + 1..]))))
    ensures end + 1 == |path| ==> !AllOk(Split(path[at..]))
  {
    assert path[at..][..end - at] == path[at..end];
    SplitFirst(path[at..], end - at);
    if end < |path| {
      assert path[at..][end - at + 1..] == path[end + 1..];
      Headed(path[at..end], Split(path[end + 1..]));
      if end + 1 == |path| { TrailingSpoils(path[end + 1..]); }
    } else {
      Headed(path[at..end], []);
    }
  }

  lemma Headed(name: string, names: seq<string>)
    ensures AllOk([name] + names) == (ComponentOk(name) && AllOk(names))
  {
    assert ([name] + names)[0] == name;
    forall i | 0 <= i < |names| ensures names[i] == ([name] + names)[i + 1] {}
  }

  /** Turns slashes round in place; `isFixed` is what Windows says of the drive. */
  method LocalPath(path: array<char>, isFixed: bool) returns (ok: bool)
    modifies path
    ensures ok == (LocalOk(path[..]) && isFixed)
    ensures path[..] == if path.Length < 4 then old(path[..]) else Slashed(old(path[..]))
  {
    if path.Length < 4 { return false; }
    for i := 0 to path.Length
      invariant forall k :: 0 <= k < path.Length ==>
                  path[k] == if k < i && old(path[k]) == '/' then '\\' else old(path[k])
    {
      if path[i] == '/' { path[i] := '\\'; }
    }
    assert path[..] == Slashed(old(path[..]));
    if !Letter(path[0]) || path[1] != ':' || path[2] != '\\' { return false; }
    assert path[..][3..] == path[3..];
    ok := RelativePath(path[3..]);
    ok := ok && isFixed;
  }

  // ----- which components pass

  function Joined(names: seq<string>): string {
    if names == [] then "" else if |names| == 1 then names[0] else names[0] + "\\" + Joined(names[1..])
  }

  /** The parts of a path are all of it but the backslashes, and have none themselves. */
  lemma {:induction false} SplitJoins(s: string)
    ensures Joined(Split(s)) == s && forall i :: 0 <= i < |Split(s)| ==> '\\' !in Split(s)[i]
  {
    if s != "" {
      SplitJoins(s[1..]);
      var r := Split(s[1..]);
      if s[0] == '\\' {
        assert ([""] + r)[1..] == r;
      } else {
        assert ([[s[0]] + r[0]] + r[1..])[1..] == r[1..];
      }
    }
  }

  /** A device by its name in capitals; the last three ports are those of the raised digits. */
  predicate IsDevice(d: string) {
    || d in ["CON", "PRN", "AUX", "NUL", "CONIN$", "CONOUT$"]
    || (|d| == 4 && (d[..3] == "COM" || d[..3] == "LPT") && PortDigit(d[3]))
  }

  predicate PortDigit(c: char) { '0' <= c <= '9' || c == '\U{b9}' || c == '\U{b2}' || c == '\U{b3}' }

  predicate SameLetter(c: char, capital: char) { c == capital || ('A' <= capital <= 'Z' && c as int == capital as int + 32) }

  /** The name is that of device `d`, in whatever case, with or without an extension. */
  predicate Names(name: string, d: string) {
    && IsDevice(d) && |d| <= |name| && (|d| < |name| ==> name[|d|] == '.')
    && forall i :: 0 <= i < |d| ==> SameLetter(name[i], d[i])
  }

  lemma RaisedDevice(base: string)
    requires Device(base)
    ensures IsDevice(Raised(base))
  {
    if |base| == 4 && PortDigit(base[3]) {
      assert Raised(base)[..3] == Raised(base[..3]);
      assert Raised(base)[3] == Upper(base[3]) == base[3];
    }
  }

  lemma RaisedIs(c: char, capital: char)
    requires capital != '.' && !('a' <= capital <= 'z')
    ensures Upper(c) == capital <==> SameLetter(c, capital)
  {
  }

  lemma CapitalDevice(d: string)
    requires IsDevice(d)
    ensures forall i :: 0 <= i < |d| ==> d[i] != '.' && !('a' <= d[i] <= 'z')
  {
    if |d| == 4 { assert d[0] == d[..3][0] && d[1] == d[..3][1] && d[2] == d[..3][2]; }
  }

  lemma DeviceIsNamed(name: string)
    requires Device(Base(name))
    ensures Names(name, Raised(Base(name)))
  {
    var base := Base(name);
    RaisedDevice(base);
    CapitalDevice(Raised(base));
    forall i | 0 <= i < |base| ensures SameLetter(name[i], Raised(base)[i]) { RaisedIs(base[i], Raised(base)[i]); }
  }

  lemma NamedIsDevice(name: string, d: string)
    requires Names(name, d)
    ensures Device(Base(name))
  {
    var n := |d|;
    CapitalDevice(d);
    forall i | 0 <= i < n ensures Upper(name[i]) == d[i] && name[i] != '.' { RaisedIs(name[i], d[i]); }
    BaseIs(name, n);
    assert Raised(name[..n]) == d && (n == 4 ==> Raised(name[..n][..3]) == d[..3]);
  }

  /** A component passes exactly if it is not empty, ends in no dot or blank, has no control
      character and none of the reserved ones, and names no device. */
  lemma ComponentIs(name: string)
    ensures ComponentOk(name) <==>
              && name != "" && name[|name| - 1] != '.' && name[|name| - 1] != ' '
              && (forall i :: 0 <= i < |name| ==> ' ' <= name[i] && name[i] !in "<>:\"/\\|?*")
              && forall d :: !Names(name, d)
  {
    if Device(Base(name)) { DeviceIsNamed(name); }
    if d :| Names(name, d) { NamedIsDevice(name, d); }
  }

  /** A path passes exactly if it is a letter from A to Z, a colon, a backslash, and then
      components with a backslash between each two, at least one. */
  lemma LocalIs(path: string)
    ensures LocalOk(path) <==>
              && |path| > 3 && ('A' <= path[0] <= 'Z' || 'a' <= path[0] <= 'z') && path[1] == ':' && path[2] == '\\'
              && forall i :: 0 <= i < |Split(path[3..])| ==> ComponentOk(Split(path[3..])[i])
  {
    if |path| > 3 { assert RelativeOk(path[3..]) <==> AllOk(Split(path[3..])); }
  }

  // ----- what it guarantees

  lemma {:induction false} QuoteStays(s: string) returns (i: nat)
    requires '"' in s
    ensures i < |Split(s)| && '"' in Split(s)[i]
  {
    if s[0] == '"' {
      i := 0;
    } else {
      assert s == [s[0]] + s[1..];
      i := QuoteStays(s[1..]);
      if s[0] == '\\' { i := i + 1; }
    }
  }

  lemma {:induction false} LastIsEmpty(s: string)
    requires s == "" || s[|s| - 1] == '\\'
    ensures Split(s)[|Split(s)| - 1] == ""
  {
    if s != "" { LastIsEmpty(s[1..]); }
    if |s| == 1 { assert s[1..] == ""; }
  }

  lemma TrailingSpoils(s: string)
    requires s == "" || s[|s| - 1] == '\\'
    ensures !AllOk(Split(s))
  {
    LastIsEmpty(s);
    assert !ComponentOk(Split(s)[|Split(s)| - 1]);
  }

  lemma QuoteSpoils(s: string)
    requires '"' in s
    ensures !AllOk(Split(s))
  {
    var i := QuoteStays(s);
    var k :| 0 <= k < |Split(s)[i]| && Split(s)[i][k] == '"';
    assert Forbidden(Split(s)[i][k]);
    assert !ComponentOk(Split(s)[i]);
  }

  /** A path that the check lets pass, as the program name of a command line, is always
      read back, with whatever arguments. */
  lemma LocalPathsParseBack(path: string, args: seq<string>)
    requires LocalOk(path)
    ensures Nameable(path) && Parse(Line([path] + args)) == [path] + args
  {
    LocalIsNameable(path);
    LineParsesBack([path] + args);
  }

  lemma LocalIsNameable(path: string)
    requires LocalOk(path)
    ensures Nameable(path)
  {
    var rest := path[3..];
    if '"' in rest { QuoteSpoils(rest); }
    if rest == "" || rest[|rest| - 1] == '\\' { TrailingSpoils(rest); }
    assert path == [path[0], path[1], path[2]] + rest;
    assert path[|path| - 1] == rest[|rest| - 1];
  }
}
