/** The boot-state file as text: written whole by the daemon (slots.go), read and then
    overwritten in place by the EFI loader (loader/src/main.zig). */
module BootStateText {
  import opened Common
  import opened Versions
  import opened Device

  // --- Printing ---

  function Decimal(n: nat): string {
    if n < 10 then ["0123456789"[n]] else Decimal(n / 10) + ["0123456789"[n % 10]]
  }

  function Signed(n: int): string { if n < 0 then "-" + Decimal(-n) else Decimal(n) }

  function TargetName(t: Target): string {
    match t case TargetActive => "active" case TargetNext => "next" case TargetRecovery => "recovery"
  }

  function TrialName(trial: bool): string { if trial then "1" else "0" }

  function Line(key: string, value: string): string { key + "=" + value }

  function Marshal(b: BootState): string {
    Line("target", TargetName(b.target)) + "\n" + Line("trial", TrialName(b.trial)) + "\n"
    + Line("attempts", Signed(b.attempts)) + "\n"
  }

  function Newlines(n: nat): string { if n == 0 then "" else "\n" + Newlines(n - 1) }

  // --- The daemon's reader ---

  /** What a boot-state file says to the daemon; its target may be any text. */
  datatype Reading = Reading(target: string, trial: bool, attempts: int)

  const NOTHING := Reading("", false, 0)

  function EndOfLine(s: string): (n: nat)
    ensures n <= |s| && '\n' !in s[..n] && (n < |s| ==> s[n] == '\n')
  {
    if s == "" || s[0] == '\n' then 0 else 1 + EndOfLine(s[1..])
  }

  function AfterLine(s: string): string { var n := EndOfLine(s); if n < |s| then s[n + 1..] else "" }

  predicate IsSpace(c: char) { c == ' ' || c == '\t' || c == '\n' || c == '\r' || c == '\U{0B}' || c == '\U{0C}' }

  function TrimLeft(s: string): string { if s != "" && IsSpace(s[0]) then TrimLeft(s[1..]) else s }

  function TrimRight(s: string): string {
    if s != "" && IsSpace(s[|s| - 1]) then TrimRight(s[..|s| - 1]) else s
  }

  function Trim(s: string): string { TrimRight(TrimLeft(s)) }

  /** strings.Cut at the first '='. */
  function CutAt(s: string): Option<nat> {
    if s == "" then None
    else if s[0] == '=' then Some(0)
    else if CutAt(s[1..]).Some? then Some(CutAt(s[1..]).value + 1) else None
  }

  /** strconv.Atoi with its error dropped: nothing for bad syntax, the nearest int for a
      number out of range. */
  function AtoiOrClamped(v: string): int {
    var signed := v != "" && (v[0] == '-' || v[0] == '+');
    var t := if signed then v[1..] else v;
    if t == "" || !AllDigits(t) then 0
    else if Atoi(v).Some? then Atoi(v).value
    else if signed && v[0] == '-' then -MAX_INT - 1 else MAX_INT
  }

  /** A number out of range reads as the nearest int. */
  lemma ClampedMeans(d: string)
    requires d != "" && AllDigits(d)
    ensures var n: int := Number(d);
      && AtoiOrClamped(d) == AtoiOrClamped("+" + d) == (if n <= 0x7FFF_FFFF_FFFF_FFFF then n else 0x7FFF_FFFF_FFFF_FFFF)
      && AtoiOrClamped("-" + d) == (if n <= 0x8000_0000_0000_0000 then -n else -0x8000_0000_0000_0000)
  {
    AtoiMeans(d);
    assert ("-" + d)[1..] == d && ("+" + d)[1..] == d;
  }

  /** And what is no number as 0. */
  lemma ClampedNothingElse(s: string) returns (d: string)
    requires AtoiOrClamped(s) != 0
    ensures d != "" && AllDigits(d) && (s == d || s == "+" + d || s == "-" + d)
  {
    d := if s[0] == '-' || s[0] == '+' then s[1..] else s;
    assert s[0] == '-' ==> s == "-" + d;
    assert s[0] == '+' ==> s == "+" + d;
  }

  function WithLine(r: Reading, line: string): Reading {
    var t := Trim(line);
    var c := CutAt(t);
    if c.None? || c.value > |t| - 1 then r
    else
      var key, value := t[..c.value], t[c.value + 1..];
      if key == "target" then r.(target := value)
      else if key == "trial" then r.(trial := value == "1")
      else if key == "attempts" then r.(attempts := AtoiOrClamped(value))
      else r
  }

  /** The reading of a whole file, from `r` on. */
  function ReadFrom(r: Reading, s: string): Reading
    decreases |s|
  {
    if s == "" then r else ReadFrom(WithLine(r, s[..EndOfLine(s)]), AfterLine(s))
  }

  function GoRead(s: string): Reading { ReadFrom(NOTHING, s) }

  method ScanLine(s: string) returns (n: nat)
    ensures n == EndOfLine(s)
  {
    n := 0;
    while n < |s| && s[n] != '\n'
      invariant n <= |s| && EndOfLine(s) == n + EndOfLine(s[n..])
    {
      n := n + 1;
    }
  }

  method ReadBootState(s: string) returns (r: Reading)
    ensures r == GoRead(s)
  {
    r := NOTHING;
    var rest := s;
    while rest != ""
      invariant ReadFrom(r, rest) == GoRead(s)
      decreases |rest|
    {
      var n := ScanLine(rest);
      var line := rest[..n];
      rest := if n < |rest| then rest[n + 1..] else "";
      var t := Trim(line);
      var c := CutAt(t);
      if c.Some? && c.value < |t| {
        var key, value := t[..c.value], t[c.value + 1..];
        if key == "target" { r := r.(target := value); }
        else if key == "trial" { r := r.(trial := value == "1"); }
        else if key == "attempts" { r := r.(attempts := AtoiOrClamped(value)); }
      }
    }
  }

  // --- The loader's reader ---

  predicate KeyAt(buf: string, key: string, k: nat) { k + |key| <= |buf| && buf[k..k + |key|] == key }

  /** An entry for `key` starts at `k`, at the beginning of a line. */
  predicate EntryAt(buf: string, key: string, k: nat) {
    && k + |key| < |buf| && KeyAt(buf, key, k)
    && (k == 0 || buf[k - 1] == '\n') && buf[k + |key|] == '='
  }

  function EndOfValue(s: string): (n: nat)
    ensures n <= |s|
  {
    if s == "" || s[0] == '\n' || s[0] == '\r' then 0 else 1 + EndOfValue(s[1..])
  }

  /** The value of the first entry at or after `k`. */
  function KvFrom(buf: string, key: string, k: nat): Option<string>
    decreases |buf| - k
  {
    if k >= |buf| then None
    else if EntryAt(buf, key, k) then
      var v := buf[k + |key| + 1..];
      Some(v[..EndOfValue(v)])
    else KvFrom(buf, key, k + 1)
  }

  function KvLine(buf: string, key: string): Option<string> { KvFrom(buf, key, 0) }

  /** The digits of a value; everything else is skipped. */
  function DigitsOf(v: string): (d: string)
    ensures AllDigits(d)
  {
    if v == "" then "" else DigitsOf(v[..|v| - 1]) + (if IsDigit(v[|v| - 1]) then [v[|v| - 1]] else "")
  }

  datatype LoaderState = LoaderState(targetNext: bool, trial: bool, attempts: int, recovery: bool)

  /** None where the accumulation overflows the loader's i64. */
  function ZigRead(s: string): Option<LoaderState> {
    var a, t, tr := KvLine(s, "attempts"), KvLine(s, "target"), KvLine(s, "trial");
    var n := if a.Some? then Number(DigitsOf(a.value)) else 0;
    if n > MAX_INT then None
    else Some(LoaderState(t == Some("next"), tr == Some("1"), n, t == Some("recovery")))
  }

  /** std.mem.indexOfPos. */
  method IndexOf(buf: string, key: string, from: nat) returns (k: nat, found: bool)
    requires key != ""
    ensures found ==> from <= k && KeyAt(buf, key, k) && forall j :: from <= j < k ==> !KeyAt(buf, key, j)
    ensures !found ==> forall j :: from <= j ==> !KeyAt(buf, key, j)
  {
    k := from;
    while k + |key| <= |buf|
      invariant from <= k
      invariant forall j :: from <= j < k ==> !KeyAt(buf, key, j)
    {
      if buf[k..k + |key|] == key { return k, true; }
      k := k + 1;
    }
    return 0, false;
  }

  lemma {:induction false} NoEntryBefore(buf: string, key: string, i: nat, k: nat)
    requires i <= k
    requires forall j :: i <= j < k ==> !EntryAt(buf, key, j)
    ensures KvFrom(buf, key, i) == KvFrom(buf, key, k)
    decreases k - i
  {
    if i < k { NoEntryBefore(buf, key, i + 1, k); }
  }

  method ScanValue(buf: string, start: nat) returns (e: nat)
    requires start <= |buf|
    ensures e == start + EndOfValue(buf[start..])
  {
    e := start;
    while e < |buf| && buf[e] != '\n' && buf[e] != '\r'
      invariant start <= e <= |buf|
      invariant EndOfValue(buf[start..]) == e - start + EndOfValue(buf[e..])
    {
      e := e + 1;
    }
  }

  method FindKvLine(buf: string, key: string) returns (r: Option<string>)
    requires key != ""
    ensures r == KvLine(buf, key)
  {
    var idx := 0;
    while idx <= |buf|
      invariant KvLine(buf, key) == KvFrom(buf, key, idx)
    {
      var k, found := IndexOf(buf, key, idx);
      if !found {
        NoEntryBefore(buf, key, idx, if idx < |buf| then |buf| else idx);
        return None;
      }
      NoEntryBefore(buf, key, idx, k);
      var after := k + |key|;
      if (k == 0 || buf[k - 1] == '\n') && after < |buf| && buf[after] == '=' {
        var e := ScanValue(buf, after + 1);
        assert EntryAt(buf, key, k) && buf[after + 1..][..e - (after + 1)] == buf[after + 1..e];
        return Some(buf[after + 1..e]);
      }
      idx := k + 1;
    }
    return None;
  }

  lemma {:induction false} NumberGrows(s: string, j: nat)
    requires AllDigits(s) && j <= |s|
    ensures Number(s[..j]) <= Number(s)
    decreases |s| - j
  {
    if j < |s| {
      NumberGrows(s, j + 1);
      assert s[..j + 1][..j] == s[..j];
    } else {
      assert s[..j] == s;
    }
  }

  /** parseBootState; `ok` is false where the loader traps on overflow. */
  method ParseBootState(buf: string) returns (r: LoaderState, ok: bool)
    ensures ok == ZigRead(buf).Some?
    ensures ok ==> r == ZigRead(buf).value
  {
    var attempts := 0;
    r := LoaderState(false, false, 0, false);
    var a := FindKvLine(buf, "attempts");
    if a.Some? {
      var v := a.value;
      for i := 0 to |v|
        invariant attempts == Number(DigitsOf(v[..i])) <= MAX_INT
      {
        assert v[..i + 1][..i] == v[..i];
        if IsDigit(v[i]) {
          assert DigitsOf(v[..i + 1]) == DigitsOf(v[..i]) + [v[i]];
          if 10 * attempts + Digit(v[i]) > MAX_INT {
            DigitsPrefix(v, i + 1);
            NumberGrows(DigitsOf(v), |DigitsOf(v[..i + 1])|);
            return r, false;
          }
          attempts := 10 * attempts + Digit(v[i]);
        } else {
          assert DigitsOf(v[..i + 1]) == DigitsOf(v[..i]);
        }
      }
      assert v[..|v|] == v;
    }
    var target := FindKvLine(buf, "target");
    var trial := FindKvLine(buf, "trial");
    r := LoaderState(target == Some("next"), trial == Some("1"), attempts, target == Some("recovery"));
    return r, true;
  }

  lemma {:induction false} DigitsPrefix(v: string, i: nat)
    requires i <= |v|
    ensures |DigitsOf(v[..i])| <= |DigitsOf(v)| && DigitsOf(v)[..|DigitsOf(v[..i])|] == DigitsOf(v[..i])
    decreases |v|
  {
    if i == |v| {
      assert v[..i] == v;
    } else {
      var w := v[..|v| - 1];
      DigitsPrefix(w, i);
      assert w[..i] == v[..i];
    }
  }

  // --- Reading what was printed ---

  lemma {:induction false} DecimalReads(n: nat)
    ensures |Decimal(n)| >= 1 && AllDigits(Decimal(n)) && Number(Decimal(n)) == n
  {
    if n >= 10 {
      DecimalReads(n / 10);
      assert Decimal(n)[..|Decimal(n)| - 1] == Decimal(n / 10);
    } else {
      assert Decimal(n)[..0] == "";
    }
  }

  lemma {:induction false} DecimalLength(m: nat, n: nat)
    requires m <= n
    ensures |Decimal(m)| <= |Decimal(n)|
  {
    if n >= 10 && m >= 10 { DecimalLength(m / 10, n / 10); }
  }

  lemma {:induction false} AllDigitsStay(v: string)
    requires AllDigits(v)
    ensures DigitsOf(v) == v
  {
    if v != "" {
      var n := |v| - 1;
      AllDigitsStay(v[..n]);
      assert DigitsOf(v) == v[..n] + [v[n]];
      assert v == v[..n] + [v[n]];
    }
  }

  /** The loader reads a signed number without its sign. */
  lemma SignedReads(n: int)
    ensures var a := if n < 0 then -n else n;
      Number(DigitsOf(Signed(n))) == a && (-MAX_INT - 1 <= n <= MAX_INT ==> AtoiOrClamped(Signed(n)) == n)
  {
    var a := if n < 0 then -n else n;
    DecimalReads(a);
    AllDigitsStay(Decimal(a));
    SkipSign(Decimal(a));
    AtoiReads(Decimal(a));
  }

  lemma AtoiReads(d: string)
    requires d != "" && AllDigits(d)
    ensures Number(d) <= MAX_INT ==> AtoiOrClamped(d) == Number(d)
    ensures Number(d) <= MAX_INT + 1 ==> AtoiOrClamped("-" + d) == -(Number(d) as int)
  {
  }

  lemma {:induction false} SkipSign(v: string)
    ensures DigitsOf("-" + v) == DigitsOf(v)
    decreases |v|
  {
    if v != "" {
      assert ("-" + v)[..|v|] == "-" + v[..|v| - 1];
      SkipSign(v[..|v| - 1]);
    } else {
      assert "-" + v == "-" && "-"[..0] == "";
    }
  }

  /** One line of an entry list, without line breaks or blanks. */
  predicate PlainLine(line: string) { forall i :: 0 <= i < |line| ==> !IsSpace(line[i]) }

  predicate StartsEntry(line: string, key: string) {
    |key| < |line| && line[..|key|] == key && line[|key|] == '='
  }

  lemma {:induction false} ValueEnds(v: string, rest: string)
    requires PlainLine(v)
    ensures EndOfValue(v + "\n" + rest) == |v|
    decreases |v|
  {
    if v != "" {
      assert (v + "\n" + rest)[1..] == v[1..] + "\n" + rest;
      ValueEnds(v[1..], rest);
    }
  }

  lemma {:induction false} LineEnds(v: string, rest: string)
    requires PlainLine(v)
    ensures EndOfLine(v + "\n" + rest) == |v|
    decreases |v|
  {
    if v != "" {
      assert (v + "\n" + rest)[1..] == v[1..] + "\n" + rest;
      LineEnds(v[1..], rest);
    }
  }

  lemma {:induction false} Shifted(line: string, rest: string, key: string, k: nat)
    requires PlainLine(key) && PlainLine(line) && k <= |rest|
    ensures KvFrom(line + "\n" + rest, key, |line| + 1 + k) == KvFrom(rest, key, k)
    decreases |rest| - k
  {
    if k < |rest| {
      var buf := line + "\n" + rest;
      var j := |line| + 1 + k;
      if k + |key| < |rest| { assert buf[j..j + |key|] == rest[k..k + |key|]; }
      assert EntryAt(buf, key, j) <==> EntryAt(rest, key, k);
      assert k + |key| < |rest| ==> buf[j + |key| + 1..] == rest[k + |key| + 1..];
      Shifted(line, rest, key, k + 1);
    }
  }

  /** The loader's search goes line by line. */
  lemma KvLineByLine(line: string, rest: string, key: string)
    requires PlainLine(line) && PlainLine(key) && key != ""
    ensures KvLine(line + "\n" + rest, key) ==
      if StartsEntry(line, key) then Some(line[|key| + 1..]) else KvLine(rest, key)
  {
    var buf := line + "\n" + rest;
    if StartsEntry(line, key) {
      assert buf[..|key|] == line[..|key|];
      var v := line[|key| + 1..];
      assert buf[|key| + 1..] == v + "\n" + rest;
      ValueEnds(v, rest);
      assert (v + "\n" + rest)[..|v|] == v;
    } else {
      NotAcross(line, rest, key);
      NoEntryBefore(buf, key, 0, |line| + 1);
      Shifted(line, rest, key, 0);
    }
  }

  lemma NotAcross(line: string, rest: string, key: string)
    requires PlainLine(line) && PlainLine(key) && key != "" && !StartsEntry(line, key)
    ensures forall j :: 0 <= j < |line| + 1 ==> !EntryAt(line + "\n" + rest, key, j)
  {
    var buf := line + "\n" + rest;
    assert buf[|line|] == '\n';
    if |key| < |line| {
      assert buf[..|key|] == line[..|key|] && buf[|key|] == line[|key|];
    } else if |line| < |key| <= |buf| {
      assert buf[..|key|][|line|] == '\n' && IsSpace('\n') && !IsSpace(key[|line|]);
    }
    forall j | 1 <= j < |line| + 1 ensures !EntryAt(buf, key, j) { assert buf[j - 1] == line[j - 1]; }
  }

  lemma {:induction false} PlainStays(line: string)
    requires PlainLine(line)
    ensures Trim(line) == line
  {
  }

  lemma {:induction false} CutFinds(key: string, value: string)
    requires '=' !in key
    ensures CutAt(Line(key, value)) == Some(|key|)
    decreases |key|
  {
    if key != "" {
      assert Line(key, value)[1..] == Line(key[1..], value);
      CutFinds(key[1..], value);
    }
  }

  lemma ReadLine(r: Reading, line: string, rest: string)
    requires PlainLine(line)
    ensures ReadFrom(r, line + "\n" + rest) == ReadFrom(WithLine(r, line), rest)
  {
    LineEnds(line, rest);
    var s := line + "\n" + rest;
    assert s[..|line|] == line && s[|line| + 1..] == rest;
  }

  lemma {:induction false} NewlinesSayNothing(r: Reading, p: nat)
    ensures ReadFrom(r, Newlines(p)) == r
  {
    if p > 0 {
      assert Newlines(p) == "" + "\n" + Newlines(p - 1);
      ReadLine(r, "", Newlines(p - 1));
      NewlinesSayNothing(r, p - 1);
    }
  }

  lemma SignedPlain(n: int)
    ensures PlainLine(Signed(n)) && Signed(n) != ""
  {
    DecimalReads(if n < 0 then -n else n);
    var d := Decimal(if n < 0 then -n else n);
    forall i | 0 <= i < |Signed(n)| ensures !IsSpace(Signed(n)[i]) {
      if n < 0 { assert i > 0 ==> IsDigit(d[i - 1]); } else { assert IsDigit(d[i]); }
    }
  }

  /** A boot-state file, read from its first line on. */
  function Three(target: string, trial: string, attempts: string, rest: string): string {
    Line("target", target) + "\n" + (Line("trial", trial) + "\n" + (Line("attempts", attempts) + "\n" + rest))
  }

  lemma InLines(b: BootState, p: nat)
    ensures Marshal(b) + Newlines(p) == Three(TargetName(b.target), TrialName(b.trial), Signed(b.attempts), Newlines(p))
  {
  }

  lemma NamesPlain(t: Target, trial: bool)
    ensures PlainLine(TargetName(t)) && PlainLine(TrialName(trial))
    ensures (TrialName(trial) == "1") == trial
    ensures (TargetName(t) == "next") == (t == TargetNext) && (TargetName(t) == "recovery") == (t == TargetRecovery)
  {
  }

  /** How the daemon takes one plain `key=value` line. */
  lemma LineSays(r: Reading, key: string, value: string)
    requires PlainLine(key) && PlainLine(value) && '=' !in key
    ensures WithLine(r, Line(key, value)) ==
      if key == "target" then r.(target := value)
      else if key == "trial" then r.(trial := value == "1")
      else if key == "attempts" then r.(attempts := AtoiOrClamped(value))
      else r
  {
    var line := Line(key, value);
    PlainStays(line);
    CutFinds(key, value);
    assert line[..|key|] == key && line[|key| + 1..] == value;
  }

  lemma SaysTarget(r: Reading, value: string)
    requires PlainLine(value)
    ensures PlainLine(Line("target", value)) && WithLine(r, Line("target", value)) == r.(target := value)
  {
    LineSays(r, "target", value);
  }

  lemma SaysTrial(r: Reading, value: string)
    requires PlainLine(value)
    ensures PlainLine(Line("trial", value)) && WithLine(r, Line("trial", value)) == r.(trial := value == "1")
  {
    LineSays(r, "trial", value);
  }

  lemma SaysAttempts(r: Reading, value: string)
    requires PlainLine(value)
    ensures PlainLine(Line("attempts", value))
    ensures WithLine(r, Line("attempts", value)) == r.(attempts := AtoiOrClamped(value))
  {
    LineSays(r, "attempts", value);
  }

  lemma ReadLines(l1: string, l2: string, l3: string, p: nat, r1: Reading, r2: Reading, r3: Reading)
    requires PlainLine(l1) && PlainLine(l2) && PlainLine(l3)
    requires WithLine(NOTHING, l1) == r1 && WithLine(r1, l2) == r2 && WithLine(r2, l3) == r3
    ensures GoRead(l1 + "\n" + (l2 + "\n" + (l3 + "\n" + Newlines(p)))) == r3
  {
    var s3 := l3 + "\n" + Newlines(p);
    ReadLine(NOTHING, l1, l2 + "\n" + s3);
    ReadLine(r1, l2, s3);
    ReadLine(r2, l3, Newlines(p));
    NewlinesSayNothing(r3, p);
  }

  lemma ReadThree(target: string, trial: string, attempts: string, p: nat)
    requires PlainLine(target) && PlainLine(trial) && PlainLine(attempts)
    ensures GoRead(Three(target, trial, attempts, Newlines(p)))
      == Reading(target, trial == "1", AtoiOrClamped(attempts))
  {
    var r1, r2, r3 := Reading(target, false, 0), Reading(target, trial == "1", 0),
                      Reading(target, trial == "1", AtoiOrClamped(attempts));
    SaysTarget(NOTHING, target);
    SaysTrial(r1, trial);
    SaysAttempts(r2, attempts);
    ReadLines(Line("target", target), Line("trial", trial), Line("attempts", attempts), p, r1, r2, r3);
  }

  /** What the daemon wrote, the daemon reads back, whatever newlines follow it. */
  lemma GoReadsBack(b: BootState, p: nat)
    requires -MAX_INT - 1 <= b.attempts <= MAX_INT
    ensures GoRead(Marshal(b) + Newlines(p)) == Reading(TargetName(b.target), b.trial, b.attempts)
  {
    NamesPlain(b.target, b.trial);
    SignedPlain(b.attempts);
    SignedReads(b.attempts);
    InLines(b, p);
    ReadThree(TargetName(b.target), TrialName(b.trial), Signed(b.attempts), p);
  }

  /** How the loader takes the same line. */
  lemma LineGives(key: string, value: string, rest: string, wanted: string)
    requires PlainLine(key) && PlainLine(value) && PlainLine(wanted) && wanted != ""
    requires key == wanted || (key != "" && wanted[0] != key[0]) || (|key| >= 2 && |wanted| >= 2 && wanted[1] != key[1])
    ensures KvLine(Line(key, value) + "\n" + rest, wanted)
      == if key == wanted then Some(value) else KvLine(rest, wanted)
  {
    var line := Line(key, value);
    KvLineByLine(line, rest, wanted);
    if key == wanted {
      assert line[..|key|] == key && line[|key| + 1..] == value;
    } else if |wanted| <= |line| {
      assert line[..|wanted|][0] == key[0] && (|wanted| >= 2 && |key| >= 2 ==> line[..|wanted|][1] == key[1]);
    }
  }

  /** A boot-state as the loader sees it: without the sign of its attempts. */
  function LoaderView(b: BootState): LoaderState {
    LoaderState(b.target == TargetNext, b.trial, if b.attempts < 0 then -b.attempts else b.attempts,
      b.target == TargetRecovery)
  }

  /** And the loader reads the same, except that it drops a minus sign. */
  lemma ZigReadsBack(b: BootState, p: nat)
    requires -MAX_INT <= b.attempts <= MAX_INT
    ensures ZigRead(Marshal(b) + Newlines(p)) == Some(LoaderView(b))
  {
    NamesPlain(b.target, b.trial);
    SignedPlain(b.attempts);
    SignedReads(b.attempts);
    InLines(b, p);
    ZigThree(Marshal(b) + Newlines(p), TargetName(b.target), TrialName(b.trial), Signed(b.attempts), Newlines(p),
             LoaderView(b));
  }

  lemma ZigThree(file: string, target: string, trial: string, attempts: string, rest: string, r: LoaderState)
    requires file == Three(target, trial, attempts, rest)
    requires r == LoaderState(target == "next", trial == "1", Number(DigitsOf(attempts)), target == "recovery")
    requires PlainLine(target) && PlainLine(trial) && PlainLine(attempts)
    requires Number(DigitsOf(attempts)) <= MAX_INT
    ensures ZigRead(file) == Some(r)
  {
    ThreeEntries(target, trial, attempts, rest);
  }

  lemma ThreeEntries(target: string, trial: string, attempts: string, rest: string)
    requires PlainLine(target) && PlainLine(trial) && PlainLine(attempts)
    ensures var s := Three(target, trial, attempts, rest);
      KvLine(s, "target") == Some(target) && KvLine(s, "trial") == Some(trial)
        && KvLine(s, "attempts") == Some(attempts)
  {
    var s3 := Line("attempts", attempts) + "\n" + rest;
    var s2 := Line("trial", trial) + "\n" + s3;
    LineGives("target", target, s2, "target");
    LineGives("target", target, s2, "trial");
    LineGives("trial", trial, s3, "trial");
    LineGives("target", target, s2, "attempts");
    LineGives("trial", trial, s3, "attempts");
    LineGives("attempts", attempts, rest, "attempts");
  }

  /** The two readers agree on the attempts of a written file exactly when they are not negative. */
  lemma ReadersAgree(b: BootState, p: nat)
    requires -MAX_INT <= b.attempts <= MAX_INT
    ensures ZigRead(Marshal(b) + Newlines(p)).Some?
    ensures ZigRead(Marshal(b) + Newlines(p)).value.attempts == GoRead(Marshal(b) + Newlines(p)).attempts
      <==> b.attempts >= 0
  {
    GoReadsBack(b, p);
    ZigReadsBack(b, p);
  }

  // --- The loader's write ---

  /** A write at offset 0 that does not truncate. */
  function Overwrite(file: string, content: string): string {
    if |content| <= |file| then content + file[|content|..] else content
  }

  /** What one boot does to the file: a trial boot writes the budget back, one lower. */
  function LoaderStep(file: string): string {
    var r := ZigRead(file);
    if r.Some? && !r.value.recovery && r.value.trial && r.value.targetNext && r.value.attempts > 0
    then Overwrite(file, Marshal(BootState(TargetNext, true, r.value.attempts - 1)))
    else file
  }

  function AfterBoots(file: string, boots: nat): string {
    if boots == 0 then file else LoaderStep(AfterBoots(file, boots - 1))
  }

  lemma {:induction false} NewlinesLength(p: nat)
    ensures |Newlines(p)| == p
  {
    if p > 0 { NewlinesLength(p - 1); }
  }

  /** Counting down by one shortens the number by at most one digit. */
  lemma {:induction false} OneDigitLess(n: nat)
    requires n >= 1
    ensures |Decimal(n - 1)| <= |Decimal(n)| <= |Decimal(n - 1)| + 1
  {
    if n >= 10 {
      if n % 10 == 0 { OneDigitLess(n / 10); } else { assert (n - 1) / 10 == n / 10; }
    }
  }

  /** The lines of a trial before the attempts. */
  function Before(): string { Line("target", TargetName(TargetNext)) + "\n" + Line("trial", TrialName(true)) + "\n" }

  /** Everything before the number. */
  function Head(): string { Before() + "attempts=" }

  lemma InHead(n: nat)
    ensures Marshal(BootState(TargetNext, true, n)) == Head() + Decimal(n) + "\n"
  {
    Gather(Before(), Decimal(n));
  }

  lemma Gather(x: string, d: string)
    ensures x + Line("attempts", d) + "\n" == (x + "attempts=") + d + "\n"
  {
    assert Line("attempts", d) == "attempts=" + d;
  }

  lemma Pads(head: string, x: string, y: string, p: nat, q: nat)
    requires |y| <= |x| <= |y| + 1 && q + |y| == p + |x|
    ensures Overwrite((head + x + "\n") + Newlines(p), head + y + "\n") == (head + y + "\n") + Newlines(q)
  {
  }

  function Left(attempts: nat, boots: nat): nat { if boots <= attempts then attempts - boots else 0 }

  /** The file of a trial with `n` boots left, after `p` digits were lost. */
  function Armed(n: nat, p: nat): string { Marshal(BootState(TargetNext, true, n)) + Newlines(p) }

  lemma ArmedReads(file: string, n: nat, p: nat)
    requires n <= MAX_INT && file == Armed(n, p)
    ensures GoRead(file) == Reading("next", true, n) && ZigRead(file) == Some(LoaderState(true, true, n, false))
  {
    GoReadsBack(BootState(TargetNext, true, n), p);
    ZigReadsBack(BootState(TargetNext, true, n), p);
  }

  /** One boot over a file the daemon printed, for any boot-state: the loader rewrites it exactly if it
      says a trial of the next slot with attempts left, as the same trial with one attempt less. */
  lemma StepRefines(b: BootState) returns (p: nat)
    requires 0 <= b.attempts <= MAX_INT
    ensures LoaderStep(Marshal(b)) ==
      if b.target == TargetNext && b.trial && b.attempts > 0
      then Marshal(BootState(TargetNext, true, b.attempts - 1)) + Newlines(p) else Marshal(b)
  {
    assert Marshal(b) + Newlines(0) == Marshal(b);
    ZigReadsBack(b, 0);
    p := 0;
    if b.target == TargetNext && b.trial && b.attempts > 0 {
      p := BudgetSurvivesOverwrite(b.attempts, 1);
      assert AfterBoots(Marshal(b), 1) == LoaderStep(AfterBoots(Marshal(b), 0));
    }
  }

  /** After any number of boots the file that armed `attempts` trial boots is again a file as
      the daemon would print it, followed by newlines only -- one for every digit the number
      lost -- and both readers read exactly the attempts that are left. */
  lemma BudgetSurvivesOverwrite(attempts: nat, boots: nat) returns (p: nat)
    requires attempts <= MAX_INT
    ensures var n := Left(attempts, boots);
      var file := AfterBoots(Marshal(BootState(TargetNext, true, attempts)), boots);
      && file == Marshal(BootState(TargetNext, true, n)) + Newlines(p)
      && p + |Decimal(n)| == |Decimal(attempts)|
      && GoRead(file) == Reading("next", true, n)
      && ZigRead(file) == Some(LoaderState(true, true, n, false))
  {
    var start := Marshal(BootState(TargetNext, true, attempts));
    assert start == Armed(attempts, 0);
    p := CountsDown(start, attempts, boots);
    ArmedReads(AfterBoots(start, boots), Left(attempts, boots), p);
  }

  /** The file after some boots, with the newlines it has collected. */
  ghost predicate CountedDown(file: string, attempts: nat, n: nat, p: nat) {
    file == Armed(n, p) && p + |Decimal(n)| == |Decimal(attempts)|
  }

  lemma {:induction false} CountsDown(start: string, attempts: nat, boots: nat) returns (p: nat)
    requires attempts <= MAX_INT && start == Armed(attempts, 0)
    ensures CountedDown(AfterBoots(start, boots), attempts, Left(attempts, boots), p)
    decreases boots
  {
    if boots == 0 {
      p := 0;
    } else {
      p := CountsDown(start, attempts, boots - 1);
      p := OneBoot(AfterBoots(start, boots - 1), AfterBoots(start, boots), attempts, Left(attempts, boots - 1),
                   Left(attempts, boots), p);
    }
  }

  lemma OneBoot(file: string, after: string, attempts: nat, n: nat, m: nat, p: nat) returns (q: nat)
    requires n <= attempts <= MAX_INT && after == LoaderStep(file) && m == (if n == 0 then 0 else n - 1)
    requires CountedDown(file, attempts, n, p)
    ensures CountedDown(after, attempts, m, q)
  {
    q := StepDown(file, n, m, p);
  }

  lemma StepDown(file: string, n: nat, m: nat, p: nat) returns (q: nat)
    requires n <= MAX_INT && file == Armed(n, p) && m == if n == 0 then 0 else n - 1
    ensures LoaderStep(file) == Armed(m, q) && q + |Decimal(m)| == p + |Decimal(n)|
  {
    ArmedReads(file, n, p);
    if n == 0 { return p; }
    OneDigitLess(n);
    q := p + |Decimal(n)| - |Decimal(m)|;
    StepOf(file, n, m);
    OverwriteArmed(n, m, p, q);
  }

  /** The loader writes back one less than what it read. */
  lemma StepOf(file: string, n: nat, m: nat)
    requires n == m + 1 && ZigRead(file) == Some(LoaderState(true, true, n, false))
    ensures LoaderStep(file) == Overwrite(file, Armed(m, 0))
  {
    assert Armed(m, 0) == Marshal(BootState(TargetNext, true, m));
  }

  /** The overwritten file is the new text, with at most the old text's last newline after it. */
  lemma OverwriteArmed(n: nat, m: nat, p: nat, q: nat)
    requires n == m + 1 && q + |Decimal(m)| == p + |Decimal(n)|
    ensures Overwrite(Armed(n, p), Armed(m, 0)) == Armed(m, q)
  {
    OneDigitLess(n);
    ArmedText(n, p);
    ArmedText(m, 0);
    ArmedText(m, q);
    var y := Head() + Decimal(m) + "\n";
    assert y + Newlines(0) == y;
    Pads(Head(), Decimal(n), Decimal(m), p, q);
  }

  lemma ArmedText(n: nat, p: nat)
    ensures Armed(n, p) == (Head() + Decimal(n) + "\n") + Newlines(p)
  {
    InHead(n);
  }

  /** It rests on counting by one: overwriting a number with one that is two digits shorter
      leaves a digit behind. */
  lemma LongerStepLeavesGarbage()
    ensures Overwrite(Marshal(BootState(TargetNext, true, 100)), Marshal(BootState(TargetNext, true, 9)))
      == Marshal(BootState(TargetNext, true, 9)) + "0\n"
  {
  }
}
