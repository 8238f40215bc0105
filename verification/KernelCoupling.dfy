/** internal/otad/hwselect.go: kernel release comparison, the hardware filter on firmware
    bundles, and the check that a new kernel keeps its GPU drivers. */
module KernelCoupling {
  import opened Common
  import opened Versions

  // --- Comparing kernel releases ---

  predicate IsSeparator(c: char) { c == '.' || c == '-' || c == '_' }

  /** strings.FieldsFunc: the non-empty runs between separators. */
  function Fields(s: string): (r: seq<string>)
    ensures forall p :: p in r ==> p != ""
    ensures s != "" && !IsSeparator(s[0]) ==> r != []
  {
    if s == "" then []
    else
      var rest := Fields(s[1..]);
      if IsSeparator(s[0]) then rest
      else if |s| == 1 || IsSeparator(s[1]) then [s[..1]] + rest
      else
        assert forall q :: q in rest[1..] ==> q in rest;
        assert |s[..1] + rest[0]| > 0;
        [s[..1] + rest[0]] + rest[1..]
  }

  /** The parts of a release are what stands between separators: the first one ends at the first
      separator, a separator at the front counts for nothing, and without any it is one part. */
  lemma {:induction false} FirstField(p: string, c: char, rest: string)
    requires p != "" && forall i :: 0 <= i < |p| ==> p[i] != '.' && p[i] != '-' && p[i] != '_'
    requires c == '.' || c == '-' || c == '_'
    ensures Fields(p + [c] + rest) == [p] + Fields(rest)
    ensures Fields([c] + rest) == Fields(rest) && Fields(p) == [p]
    decreases |p|
  {
    var s := p + [c] + rest;
    assert ([c] + rest)[1..] == rest;
    assert s[1..] == p[1..] + [c] + rest && s[..1] == p[..1] == [p[0]];
    if |p| == 1 {
      assert s[1..] == [c] + rest && p[1..] == "" && p == [p[0]];
    } else {
      FirstField(p[1..], c, rest);
      assert [p[0]] + p[1..] == p;
      assert ([p[1..]] + Fields(rest))[1..] == Fields(rest);
    }
  }

  /** Go's string order. */
  predicate Less(x: string, y: string) {
    y != "" && (x == "" || x[0] < y[0] || (x[0] == y[0] && Less(x[1..], y[1..])))
  }

  function ComparePart(x: string, y: string): int {
    var xi, yi := Atoi(x), Atoi(y);
    if xi.Some? && yi.Some? then
      if xi.value == yi.value then 0 else if xi.value < yi.value then -1 else 1
    else if x == y then 0
    else if Less(x, y) then -1 else 1
  }

  function Part(parts: seq<string>, i: nat): string { if i < |parts| then parts[i] else "" }

  function CompareFrom(a: seq<string>, b: seq<string>, i: nat): int
    decreases Max(|a|, |b|) - i
  {
    if i >= |a| && i >= |b| then 0
    else
      var c := ComparePart(Part(a, i), Part(b, i));
      if c != 0 then c else CompareFrom(a, b, i + 1)
  }

  function Compare(a: string, b: string): int { CompareFrom(Fields(a), Fields(b), 0) }

  method CmpKernel(a: string, b: string) returns (c: int)
    ensures c == Compare(a, b)
  {
    var xs, ys := Fields(a), Fields(b);
    var n := |xs|;
    if |ys| > n { n := |ys|; }
    for i := 0 to n
      invariant CompareFrom(xs, ys, 0) == CompareFrom(xs, ys, i)
    {
      var x, y := "", "";
      if i < |xs| { x := xs[i]; }
      if i < |ys| { y := ys[i]; }
      var xi, yi := Atoi(x), Atoi(y);
      if xi.Some? && yi.Some? {
        if xi.value != yi.value {
          if xi.value < yi.value { return -1; }
          return 1;
        }
      } else if x != y {
        if Less(x, y) { return -1; }
        return 1;
      }
    }
    return 0;
  }

  lemma {:induction false} LessTotal(x: string, y: string)
    requires x != y
    ensures Less(x, y) != Less(y, x)
  {
    if x != "" && y != "" && x[0] == y[0] {
      assert x == [x[0]] + x[1..] && y == [y[0]] + y[1..];
      LessTotal(x[1..], y[1..]);
    }
  }

  lemma {:induction false} AntisymmetricFrom(a: seq<string>, b: seq<string>, i: nat)
    ensures CompareFrom(a, b, i) == -CompareFrom(b, a, i)
    decreases Max(|a|, |b|) - i
  {
    if i < |a| || i < |b| {
      var x, y := Part(a, i), Part(b, i);
      if x != y { LessTotal(x, y); }
      AntisymmetricFrom(a, b, i + 1);
    }
  }

  /** Swapping the arguments flips the sign, for any two strings. */
  lemma Antisymmetric(a: string, b: string)
    ensures Compare(a, b) == -Compare(b, a)
  {
    AntisymmetricFrom(Fields(a), Fields(b), 0);
  }

  /** A release whose parts all are integers. */
  predicate Numeric(s: string) { forall p :: p in Fields(s) ==> Atoi(p).Some? }

  predicate NumericParts(a: seq<string>) { forall p :: p in a ==> p != "" && Atoi(p).Some? }

  lemma {:induction false} TransitiveFrom(a: seq<string>, b: seq<string>, c: seq<string>, i: nat)
    requires NumericParts(a) && NumericParts(b) && NumericParts(c)
    requires CompareFrom(a, b, i) <= 0 && CompareFrom(b, c, i) <= 0
    ensures CompareFrom(a, c, i) <= 0
    decreases |a| + |b| + |c| - i
  {
    if i < |a| {
      PartsInOrder(a, b, i);
      PartsInOrder(b, c, i);
      PartsInOrder(a, c, i);
      assert i < |b| && i < |c|;
      SignOf(a[i], b[i]);
      SignOf(b[i], c[i]);
      SignOf(a[i], c[i]);
      if ComparePart(a[i], b[i]) == 0 && ComparePart(b[i], c[i]) == 0 {
        TransitiveFrom(a, b, c, i + 1);
      }
    } else if i < |c| {
      PartsInOrder(a, c, i);
    }
  }

  lemma SignOf(x: string, y: string)
    requires Atoi(x).Some? && Atoi(y).Some?
    ensures ComparePart(x, y) < 0 <==> Atoi(x).value < Atoi(y).value
    ensures ComparePart(x, y) == 0 <==> Atoi(x).value == Atoi(y).value
  {
  }

  /** A release that is not above another at part `i` has no part there the other lacks. */
  lemma PartsInOrder(a: seq<string>, b: seq<string>, i: nat)
    requires NumericParts(a) && NumericParts(b)
    ensures i < |a| && i >= |b| ==> CompareFrom(a, b, i) == 1
    ensures i >= |a| && i < |b| ==> CompareFrom(a, b, i) == -1
  {
  }

  /** Among numeric releases the comparison is a total preorder. */
  lemma PreorderOnNumeric(a: string, b: string, c: string)
    requires Numeric(a) && Numeric(b) && Numeric(c)
    ensures Compare(a, a) == 0
    ensures Compare(a, b) <= 0 || Compare(b, a) <= 0
    ensures Compare(a, b) <= 0 && Compare(b, c) <= 0 ==> Compare(a, c) <= 0
  {
    Antisymmetric(a, b);
    Antisymmetric(a, a);
    if Compare(a, b) <= 0 && Compare(b, c) <= 0 {
      TransitiveFrom(Fields(a), Fields(b), Fields(c), 0);
    }
  }

  lemma SinglePart(a: string, b: string)
    requires Fields(a) == [a] && Fields(b) == [b]
    ensures Compare(a, b) == ComparePart(a, b)
  {
    assert CompareFrom([a], [b], 1) == 0;
    assert Part([a], 0) == a && Part([b], 0) == b;
  }

  lemma Atois()
    ensures Atoi("2") == Some(2) && Atoi("10") == Some(10) && Atoi("1a") == None
  {
  }

  lemma Lesses()
    ensures Less("10", "1a") && Less("1a", "2")
  {
  }

  /** With a part that is no integer it need not be transitive: 2 < 10 < 1a < 2. */
  lemma CycleOutsideNumeric()
    ensures Compare("2", "10") < 0 && Compare("10", "1a") < 0 && Compare("1a", "2") < 0
  {
    TwoChars('1', '0');
    TwoChars('1', 'a');
    OneChar('2');
    assert ['1', '0'] == "10" && ['1', 'a'] == "1a" && ['2'] == "2";
    Atois();
    Lesses();
    SinglePart("2", "10");
    SinglePart("10", "1a");
    SinglePart("1a", "2");
  }

  lemma OneChar(c: char)
    requires !IsSeparator(c)
    ensures Fields([c]) == [[c]]
  {
    assert [c][1..] == "" && [c][..1] == [c];
  }

  lemma TwoChars(c: char, d: char)
    requires !IsSeparator(c) && !IsSeparator(d)
    ensures Fields([c, d]) == [[c, d]]
  {
    OneChar(d);
    assert [c, d][1..] == [d] && [c, d][..1] + [d] == [c, d];
  }

  // --- Bundles and hardware ---

  datatype BundleSpec = BundleSpec(
    name: string, version: int, hash: string, verityHash: string, treeHash: string,
    chips: seq<string>, kernelMin: string, kernelMax: string)

  predicate IsGpuChip(c: string) { c == "nvidia" || c == "amd" }

  predicate KernelInRange(b: BundleSpec, kernel: string) {
    && (b.kernelMin != "" && kernel != "" ==> Compare(kernel, b.kernelMin) >= 0)
    && (b.kernelMax != "" && kernel != "" ==> Compare(kernel, b.kernelMax) <= 0)
  }

  /** The bundle is for this machine: none of its chips are GPU chips, or one of those is
      present; and the kernel is within its bounds. */
  predicate Matches(b: BundleSpec, chips: seq<string>, kernel: string) {
    && ((exists c :: c in b.chips && IsGpuChip(c)) ==> exists c :: c in b.chips && IsGpuChip(c) && c in chips)
    && KernelInRange(b, kernel)
  }

  method MatchesHardware(b: BundleSpec, chips: seq<string>, kernel: string) returns (ok: bool)
    ensures ok == Matches(b, chips, kernel)
  {
    var need: seq<string> := [];
    for i := 0 to |b.chips|
      invariant forall c :: c in need <==> c in b.chips[..i] && IsGpuChip(c)
    {
      if IsGpuChip(b.chips[i]) { need := need + [b.chips[i]]; }
    }
    assert b.chips[..|b.chips|] == b.chips;
    if |need| > 0 {
      assert need[0] in need;
      var hit := false;
      for i := 0 to |need|
        invariant hit <==> exists c :: c in need[..i] && c in chips
      {
        ghost var before := hit;
        for j := 0 to |chips|
          invariant hit <==> before || need[i] in chips[..j]
        {
          if need[i] == chips[j] { hit := true; }
        }
        assert chips[..|chips|] == chips;
        assert need[..i + 1] == need[..i] + [need[i]];
      }
      assert need[..|need|] == need;
      if !hit { return false; }
    }
    if b.kernelMin != "" && kernel != "" {
      var c := CmpKernel(kernel, b.kernelMin);
      if c < 0 { return false; }
    }
    if b.kernelMax != "" && kernel != "" {
      var c := CmpKernel(kernel, b.kernelMax);
      if c > 0 { return false; }
    }
    return true;
  }

  /** A driver bundle: it pins a kernel and covers the chip. */
  predicate KernelBoundFor(b: BundleSpec, chip: string) {
    (b.kernelMin != "" || b.kernelMax != "") && chip in b.chips
  }

  predicate Offers(bundles: seq<BundleSpec>, chip: string) {
    exists b :: b in bundles && KernelBoundFor(b, chip)
  }

  predicate Covered(bundles: seq<BundleSpec>, chip: string, kernel: string) {
    exists b :: b in bundles && KernelBoundFor(b, chip) && Matches(b, [chip], kernel)
  }

  predicate Coupled(target: string, running: string, bundles: seq<BundleSpec>, chips: seq<string>) {
    target == "" || target == running ||
    forall chip :: chip in chips ==> Served(bundles, chip, target)
  }

  /** No driver on offer for this chip, or one for the target kernel. */
  predicate Served(bundles: seq<BundleSpec>, chip: string, target: string) {
    Offers(bundles, chip) ==> Covered(bundles, chip, target)
  }

  lemma OneMoreBundle(some: seq<BundleSpec>, b: BundleSpec, chip: string, kernel: string)
    ensures Offers(some + [b], chip) <==> Offers(some, chip) || KernelBoundFor(b, chip)
    ensures Covered(some + [b], chip, kernel) <==>
      Covered(some, chip, kernel) || (KernelBoundFor(b, chip) && Matches(b, [chip], kernel))
  {
    forall x ensures x in some + [b] <==> x in some || x == b {}
  }

  /** The inner loop of the check, for one chip. */
  method Coverage(bundles: seq<BundleSpec>, chip: string, target: string) returns (offers: bool, matches: bool)
    ensures offers == Offers(bundles, chip) && matches == Covered(bundles, chip, target)
  {
    offers, matches := false, false;
    for j := 0 to |bundles|
      invariant offers == Offers(bundles[..j], chip) && matches == Covered(bundles[..j], chip, target)
    {
      var b := bundles[j];
      assert bundles[..j + 1] == bundles[..j] + [b];
      OneMoreBundle(bundles[..j], b, chip, target);
      if KernelBoundFor(b, chip) {
        offers := true;
        var m := MatchesHardware(b, [chip], target);
        if m { matches := true; }
      }
    }
    assert bundles[..|bundles|] == bundles;
  }

  method CoupledKernelCheck(target: string, running: string, bundles: seq<BundleSpec>, chips: seq<string>)
    returns (ok: bool)
    ensures ok == Coupled(target, running, bundles, chips)
  {
    if target == "" || target == running { return true; }
    for i := 0 to |chips|
      invariant forall chip :: chip in chips[..i] ==> Served(bundles, chip, target)
    {
      var offers, matches := Coverage(bundles, chips[i], target);
      assert chips[..i + 1] == chips[..i] + [chips[i]];
      if offers && !matches {
        assert chips[i] in chips && !Served(bundles, chips[i], target);
        return false;
      }
    }
    assert chips[..|chips|] == chips;
    return true;
  }

  /** The bundles stage keeps for this machine and kernel. */
  function Staged(bundles: seq<BundleSpec>, chips: seq<string>, kernel: string): (r: seq<BundleSpec>)
    ensures forall b :: b in r <==> b in bundles && Matches(b, chips, kernel)
  {
    if bundles == [] then []
    else
      var rest := Staged(bundles[1..], chips, kernel);
      if Matches(bundles[0], chips, kernel) then [bundles[0]] + rest else rest
  }

  /** A kernel-changing manifest passes the check exactly when, for every detected chip it
      offers a driver for, staging keeps a driver of that chip for the new kernel. */
  lemma CheckedMeansKept(target: string, running: string, bundles: seq<BundleSpec>, chips: seq<string>)
    requires target != "" && target != running
    requires forall c :: c in chips ==> IsGpuChip(c)
    ensures Coupled(target, running, bundles, chips) <==>
      forall chip :: chip in chips && Offers(bundles, chip) ==>
        exists b :: b in Staged(bundles, chips, target) && KernelBoundFor(b, chip)
  {
  }
}
