/** Version strings: the trailing integer that couples a rootfs to its kernelcache
    (transition.go), the same scan as the downgrade check makes it (stage.go), and the
    release comparison of the boot identity (otad.go). */
module Versions {
  import opened Common

  predicate IsDigit(c: char) { '0' <= c <= '9' }

  function Digit(c: char): (d: nat)
    requires IsDigit(c)
    ensures d <= 9
  {
    c as int - '0' as int
  }

  predicate AllDigits(s: string) { forall i :: 0 <= i < |s| ==> IsDigit(s[i]) }

  /** The number a run of digits denotes. */
  function Number(s: string): nat
    requires AllDigits(s)
  {
    if s == "" then 0 else 10 * Number(s[..|s| - 1]) + Digit(s[|s| - 1])
  }

  /** strconv.Atoi. */
  function Atoi(s: string): Option<int> {
    var signed := s != "" && (s[0] == '-' || s[0] == '+');
    var t := if signed then s[1..] else s;
    if t == "" || !AllDigits(t) then None
    else
      var n: int := if signed && s[0] == '-' then -(Number(t) as int) else Number(t);
      if -MAX_INT - 1 <= n <= MAX_INT then Some(n) else None
  }

  /** Where the trailing digit run of a version begins. */
  function TailStart(s: string): (i: nat)
    ensures i <= |s| && AllDigits(s[i..])
    ensures i > 0 ==> !IsDigit(s[i - 1])
  {
    if s == "" || !IsDigit(s[|s| - 1]) then |s| else TailStart(s[..|s| - 1])
  }

  function Tail(s: string): (t: string)
    ensures AllDigits(t)
  {
    s[TailStart(s)..]
  }

  /** The kernelcache number of a rootfs version: none without a trailing integer, or
      with one that does not fit an int. */
  function KcOf(version: string): Option<nat> {
    var t := Tail(version);
    if t == "" || Number(t) > MAX_INT then None else Some(Number(t))
  }

  /** Wrap-around of Go's 64-bit int. */
  function Wrap(n: int): int { (n + MAX_INT + 1) % TWO_TO_THE_64 - MAX_INT - 1 }

  /** The downgrade check's reading of the same digits, which wraps instead of failing. */
  function VersionNumber(version: string): Option<int> {
    var t := Tail(version);
    if t == "" then None else Some(Wrap(Number(t)))
  }

  predicate IsDowngrade(newVersion: string, curVersion: string) {
    var n, c := VersionNumber(newVersion), VersionNumber(curVersion);
    n.Some? && c.Some? && n.value < c.value
  }

  function TrimV(s: string): string { if s != "" && s[0] == 'v' then s[1..] else s }

  predicate SameRelease(a: string, b: string) { TrimV(a) == TrimV(b) }

  lemma TailUnique(s: string, i: nat)
    requires i <= |s| && AllDigits(s[i..]) && (i > 0 ==> !IsDigit(s[i - 1]))
    ensures i == TailStart(s)
  {
  }

  lemma WrapStep(n: int, d: int)
    ensures Wrap(10 * Wrap(n) + d) == Wrap(10 * n + d)
  {
  }

  /** The two readings of one version agree exactly when its integer fits an int. */
  lemma ReadingsAgree(version: string)
    requires Tail(version) != ""
    ensures KcOf(version).Some? ==> VersionNumber(version) == Some(KcOf(version).value as int)
    ensures KcOf(version).None? <==> VersionNumber(version) != Some(Number(Tail(version)) as int)
  {
  }

  /** transition.go kcOf, as its backward scan runs. */
  method ScanKc(version: string) returns (kc: nat, ok: bool)
    ensures ok == KcOf(version).Some?
    ensures kc == if ok then KcOf(version).value else 0
  {
    var i := |version|;
    while i > 0 && IsDigit(version[i - 1])
      invariant 0 <= i <= |version| && AllDigits(version[i..])
    {
      i := i - 1;
    }
    TailUnique(version, i);
    if i == |version| { return 0, false; }
    var n := Number(version[i..]);
    if n > MAX_INT { return 0, false; }
    return n, true;
  }

  /** stage.go versionNum: the same scan, then an accumulation in a machine int. */
  method ScanVersionNumber(version: string) returns (n: int, ok: bool)
    ensures ok == VersionNumber(version).Some?
    ensures n == if ok then VersionNumber(version).value else 0
  {
    var i := |version|;
    while i > 0 && IsDigit(version[i - 1])
      invariant 0 <= i <= |version| && AllDigits(version[i..])
    {
      i := i - 1;
    }
    TailUnique(version, i);
    if i == |version| { return 0, false; }
    var t := version[i..];
    n := 0;
    for j := 0 to |t|
      invariant n == Wrap(Number(t[..j]))
    {
      assert t[..j + 1][..j] == t[..j];
      WrapStep(Number(t[..j]), Digit(t[j]));
      n := Wrap(10 * n + Digit(t[j]));
    }
    assert t[..|t|] == t;
    return n, true;
  }

  // --- What the readings mean ---

  /** A version is what stands before its number, and the number's digits. */
  predicate Splits(version: string, before: string, digits: string) {
    && version == before + digits && (before == "" || !('0' <= before[|before| - 1] <= '9'))
    && forall i :: 0 <= i < |digits| ==> '0' <= digits[i] <= '9'
  }

  lemma TailOf(version: string, before: string, digits: string)
    requires Splits(version, before, digits)
    ensures AllDigits(digits) && Tail(version) == digits
  {
    assert version[|before|..] == digits;
    TailUnique(version, |before|);
  }

  /** A version is older than another exactly when both end in a number and its number is less, as
      far as the numbers fit an int. */
  lemma DowngradeMeans(a: string, b: string, x: string, m: string, y: string, n: string)
    requires Splits(a, x, m) && Splits(b, y, n)
    requires AllDigits(m) && AllDigits(n) && Number(m) <= MAX_INT && Number(n) <= MAX_INT
    ensures IsDowngrade(a, b) <==> m != "" && n != "" && Number(m) < Number(n)
  {
    TailOf(a, x, m);
    TailOf(b, y, n);
    WrapFits(Number(m));
    WrapFits(Number(n));
  }

  lemma WrapFits(n: nat)
    requires n <= MAX_INT
    ensures Wrap(n) == n
  {
  }

  /** Digits are a number that fits 64 bits, with or without a sign; nothing else is one. */
  lemma AtoiMeans(d: string)
    requires d != "" && AllDigits(d)
    ensures Atoi(d) == Atoi("+" + d) == if Number(d) <= 0x7FFF_FFFF_FFFF_FFFF then Some(Number(d) as int) else None
    ensures Atoi("-" + d) == if Number(d) <= 0x8000_0000_0000_0000 then Some(-(Number(d) as int)) else None
  {
    assert ("-" + d)[1..] == d && ("+" + d)[1..] == d;
  }

  lemma AtoiNothingElse(s: string) returns (d: string)
    requires Atoi(s).Some?
    ensures d != "" && AllDigits(d) && (s == d || s == "+" + d || s == "-" + d)
  {
    d := if s[0] == '-' || s[0] == '+' then s[1..] else s;
    assert s[0] == '-' ==> s == "-" + d;
    assert s[0] == '+' ==> s == "+" + d;
  }
}
