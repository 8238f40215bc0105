/** internal/otad/stage.go, the firmware part: the files of every bundle this machine needs are
    fetched next to each other, before anything is committed, each with a copy of the anchor the
    initramfs verifies it by (fwanchor.go). */
module BundleFetch {
  import opened Common
  import opened Device
  import FirmwareSlot
  import opened KernelCoupling
  import Plans

  type Hashes = (Bytes, string) -> bool

  /** The signed manifest and the signing certificate, as they were verified. */
  datatype Anchor = Anchor(manifest: Bytes, manifestSig: Bytes, cert: Bytes, certSig: Bytes)

  /** What the bundles' URLs deliver, and the anchor that goes beside each. */
  datatype Arrivals = Arrivals(
    image: BundleSpec -> Option<Bytes>, tree: BundleSpec -> Option<Bytes>, anchor: Anchor)

  function ImageName(b: BundleSpec): BundleFile { BundleFile(b.name, FirmwareSlot.Image) }

  function TreeName(b: BundleSpec): BundleFile { BundleFile(b.name, FirmwareSlot.Tree) }

  function AnchorName(b: BundleSpec, f: FirmwareSlot.File): BundleFile { BundleFile(b.name, f) }

  predicate TreeOk(hashes: Hashes, b: BundleSpec, a: Arrivals) {
    b.verityHash == "" || (a.tree(b).Some? && hashes(a.tree(b).value, b.treeHash))
  }

  predicate BundleOk(hashes: Hashes, b: BundleSpec, a: Arrivals) {
    a.image(b).Some? && hashes(a.image(b).value, b.hash) && TreeOk(hashes, b, a)
  }

  // --- The plan ---

  /** The hash tree, for a bundle that is verity-enforced. */
  function TreePlan(hashes: Hashes, b: BundleSpec, a: Arrivals): seq<Write> {
    if b.verityHash == "" then []
    else if a.tree(b).None? then [RemoveBundle(ImageName(b))]
    else if hashes(a.tree(b).value, b.treeHash) then [StoreBundle(TreeName(b), a.tree(b).value)]
    else [StoreBundle(TreeName(b), a.tree(b).value)] + [RemoveBundle(ImageName(b)), RemoveBundle(TreeName(b))]
  }

  /** os.WriteFile: the file is emptied, then written. */
  function WritePlan(name: BundleFile, bytes: Bytes): seq<Write> {
    [StoreBundle(name, ""), StoreBundle(name, bytes)]
  }

  function AnchorFiles(a: Anchor): seq<(FirmwareSlot.File, Bytes)> {
    [(FirmwareSlot.Manifest, a.manifest), (FirmwareSlot.ManifestSig, a.manifestSig), (FirmwareSlot.Cert, a.cert),
     (FirmwareSlot.CertSig, a.certSig)]
  }

  function WriteAll(b: BundleSpec, files: seq<(FirmwareSlot.File, Bytes)>): seq<Write> {
    if files == [] then [] else WritePlan(AnchorName(b, files[0].0), files[0].1) + WriteAll(b, files[1..])
  }

  function AnchorPlan(b: BundleSpec, a: Anchor): seq<Write> { WriteAll(b, AnchorFiles(a)) }

  /** What follows once the image hashes. */
  function ProofPlan(hashes: Hashes, b: BundleSpec, a: Arrivals): seq<Write> {
    TreePlan(hashes, b, a) + if TreeOk(hashes, b, a) then AnchorPlan(b, a.anchor) else []
  }

  function BundlePlan(hashes: Hashes, b: BundleSpec, a: Arrivals): seq<Write> {
    if a.image(b).None? then []
    else
      [StoreBundle(ImageName(b), a.image(b).value)]
      + if hashes(a.image(b).value, b.hash) then ProofPlan(hashes, b, a) else [RemoveBundle(ImageName(b))]
  }

  /** One bundle after the other, up to the first that does not arrive intact. */
  function BundlesPlan(hashes: Hashes, bundles: seq<BundleSpec>, a: Arrivals): seq<Write> {
    if bundles == [] then []
    else
      BundlePlan(hashes, bundles[0], a)
      + if BundleOk(hashes, bundles[0], a) then BundlesPlan(hashes, bundles[1..], a) else []
  }

  predicate AllOk(hashes: Hashes, bundles: seq<BundleSpec>, a: Arrivals) {
    forall b :: b in bundles ==> BundleOk(hashes, b, a)
  }

  // --- The routine ---

  datatype Outcome = Stopped | Bad | Good

  method StageTree(m: Machine, hashes: Hashes, b: BundleSpec, a: Arrivals) returns (r: Outcome)
    requires m.apply == Apply
    modifies m
    ensures Performed(old(m.state), old(m.power), TreePlan(hashes, b, a), m.state, m.power, r != Stopped)
    ensures r != Stopped ==> (r == Good <==> TreeOk(hashes, b, a))
  {
    if b.verityHash == "" { return Good; }
    if a.tree(b).None? {
      var ok := m.Do(RemoveBundle(ImageName(b)));
      return if ok then Bad else Stopped;
    }
    ghost var s0, p0 := m.state, m.power;
    var store := StoreBundle(TreeName(b), a.tree(b).value);
    ghost var rest := [RemoveBundle(ImageName(b)), RemoveBundle(TreeName(b))];
    var ok := m.Do(store);
    if hashes(a.tree(b).value, b.treeHash) { return if ok then Good else Stopped; }
    if !ok { Plans.PerformedCut(Apply, s0, p0, [store], rest, m.state, m.power); return Stopped; }
    ghost var s1, p1 := m.state, m.power;
    ok := m.DoAll([RemoveBundle(ImageName(b)), RemoveBundle(TreeName(b))]);
    Plans.PerformedThen(Apply, s0, p0, [store], s1, p1, rest, m.state, m.power, ok);
    return if ok then Bad else Stopped;
  }

  /** WriteFirmwareAnchor: four files, one after the other. */
  method WriteAnchor(m: Machine, b: BundleSpec, a: Anchor) returns (ok: bool)
    requires m.apply == Apply
    modifies m
    ensures Performed(old(m.state), old(m.power), AnchorPlan(b, a), m.state, m.power, ok)
  {
    var files := AnchorFiles(a);
    ghost var s0, p0, plan := m.state, m.power, AnchorPlan(b, a);
    ghost var done: seq<Write> := [];
    assert files[0..] == files;
    for i := 0 to |files|
      invariant Performed(s0, p0, done, m.state, m.power, true)
      invariant done + WriteAll(b, files[i..]) == plan
    {
      var step := WritePlan(AnchorName(b, files[i].0), files[i].1);
      assert files[i..][0] == files[i] && files[i..][1..] == files[i + 1..];
      ghost var s1, p1 := m.state, m.power;
      ok := m.DoAll(step);
      Plans.Onward(Apply, s0, p0, plan, done, s1, p1, step, WriteAll(b, files[i + 1..]), m.state, m.power, ok);
      if !ok { return; }
      done := done + step;
    }
    assert done + [] == done;
    return true;
  }

  method StageProof(m: Machine, hashes: Hashes, b: BundleSpec, a: Arrivals) returns (r: Outcome)
    requires m.apply == Apply
    modifies m
    ensures Performed(old(m.state), old(m.power), ProofPlan(hashes, b, a), m.state, m.power, r != Stopped)
    ensures r != Stopped ==> (r == Good <==> TreeOk(hashes, b, a))
  {
    ghost var s0, p0, tree := m.state, m.power, TreePlan(hashes, b, a);
    ghost var rest := if TreeOk(hashes, b, a) then AnchorPlan(b, a.anchor) else [];
    r := StageTree(m, hashes, b, a);
    if r == Stopped { Plans.PerformedCut(Apply, s0, p0, tree, rest, m.state, m.power); return; }
    if r == Bad { assert tree + [] == tree; return; }
    ghost var s1, p1 := m.state, m.power;
    var ok := WriteAnchor(m, b, a.anchor);
    Plans.PerformedThen(Apply, s0, p0, tree, s1, p1, rest, m.state, m.power, ok);
    return if ok then Good else Stopped;
  }

  method StageBundle(m: Machine, hashes: Hashes, b: BundleSpec, a: Arrivals) returns (r: Outcome)
    requires m.apply == Apply
    modifies m
    ensures Performed(old(m.state), old(m.power), BundlePlan(hashes, b, a), m.state, m.power, r != Stopped)
    ensures r != Stopped ==> (r == Good <==> BundleOk(hashes, b, a))
  {
    if a.image(b).None? { return Bad; }
    ghost var s0, p0 := m.state, m.power;
    var store, good := StoreBundle(ImageName(b), a.image(b).value), hashes(a.image(b).value, b.hash);
    ghost var rest := if good then ProofPlan(hashes, b, a) else [RemoveBundle(ImageName(b))];
    var ok := m.Do(store);
    if !ok { Plans.PerformedCut(Apply, s0, p0, [store], rest, m.state, m.power); return Stopped; }
    ghost var s1, p1 := m.state, m.power;
    if good {
      r := StageProof(m, hashes, b, a);
    } else {
      ok := m.Do(RemoveBundle(ImageName(b)));
      r := if ok then Bad else Stopped;
    }
    Plans.PerformedThen(Apply, s0, p0, [store], s1, p1, rest, m.state, m.power, r != Stopped);
  }

  /** The plan from bundle `i` on. */
  lemma PlanAt(hashes: Hashes, bundles: seq<BundleSpec>, i: nat, a: Arrivals) returns (rest: seq<Write>)
    requires i < |bundles|
    ensures BundlesPlan(hashes, bundles[i..], a) == BundlePlan(hashes, bundles[i], a) + rest
    ensures rest == if BundleOk(hashes, bundles[i], a) then BundlesPlan(hashes, bundles[i + 1..], a) else []
    ensures AllOk(hashes, bundles[..i + 1], a) <==> AllOk(hashes, bundles[..i], a) && BundleOk(hashes, bundles[i], a)
    ensures AllOk(hashes, bundles, a) ==> BundleOk(hashes, bundles[i], a)
  {
    assert bundles[i..][0] == bundles[i] && bundles[i..][1..] == bundles[i + 1..];
    assert bundles[..i + 1] == bundles[..i] + [bundles[i]] && bundles[i] in bundles;
    rest := if BundleOk(hashes, bundles[i], a) then BundlesPlan(hashes, bundles[i + 1..], a) else [];
  }

  method StageBundles(m: Machine, hashes: Hashes, bundles: seq<BundleSpec>, a: Arrivals) returns (r: Outcome)
    requires m.apply == Apply
    modifies m
    ensures Performed(old(m.state), old(m.power), BundlesPlan(hashes, bundles, a), m.state, m.power, r != Stopped)
    ensures r != Stopped ==> (r == Good <==> AllOk(hashes, bundles, a))
  {
    ghost var s0, p0, plan := m.state, m.power, BundlesPlan(hashes, bundles, a);
    ghost var done: seq<Write> := [];
    assert bundles[0..] == bundles && done + plan == plan;
    for i := 0 to |bundles|
      invariant Performed(s0, p0, done, m.state, m.power, true)
      invariant done + BundlesPlan(hashes, bundles[i..], a) == plan
      invariant AllOk(hashes, bundles[..i], a)
    {
      var b := bundles[i];
      ghost var s1, p1, step := m.state, m.power, BundlePlan(hashes, b, a);
      ghost var rest := PlanAt(hashes, bundles, i, a);
      r := StageBundle(m, hashes, b, a);
      Plans.Onward(Apply, s0, p0, plan, done, s1, p1, step, rest, m.state, m.power, r != Stopped);
      if r == Stopped { return; }
      if r == Bad {
        assert (done + step) + rest == done + step;
        return;
      }
      done := done + step;
    }
    assert bundles[..|bundles|] == bundles && done + [] == done;
    return Good;
  }

  // --- What it leaves ---

  /** Writes to the files of these bundles only. */
  predicate OfBundles(ws: seq<Write>, names: set<string>) {
    forall w :: w in ws ==> (w.StoreBundle? || w.RemoveBundle?) && w.name.bundle in names
  }

  function Names(bundles: seq<BundleSpec>): set<string> { set b | b in bundles :: b.name }

  lemma OneOnly(hashes: Hashes, b: BundleSpec, a: Arrivals)
    ensures OfBundles(BundlePlan(hashes, b, a), {b.name})
  {
    if a.image(b).Some? {
      AnchorOnly(b, AnchorFiles(a.anchor));
      var rest := if TreeOk(hashes, b, a) then AnchorPlan(b, a.anchor) else [];
      Together(TreePlan(hashes, b, a), rest, {b.name}, {b.name}, {b.name});
      var next := if hashes(a.image(b).value, b.hash) then ProofPlan(hashes, b, a) else [RemoveBundle(ImageName(b))];
      Together([StoreBundle(ImageName(b), a.image(b).value)], next, {b.name}, {b.name}, {b.name});
    }
  }

  lemma {:induction false} AnchorOnly(b: BundleSpec, files: seq<(FirmwareSlot.File, Bytes)>)
    ensures OfBundles(WriteAll(b, files), {b.name})
    decreases |files|
  {
    if files != [] {
      AnchorOnly(b, files[1..]);
      Together(WritePlan(AnchorName(b, files[0].0), files[0].1), WriteAll(b, files[1..]), {b.name}, {b.name}, {b.name});
    }
  }

  lemma Together(v: seq<Write>, w: seq<Write>, some: set<string>, more: set<string>, names: set<string>)
    requires OfBundles(v, some) && OfBundles(w, more) && some <= names && more <= names
    ensures OfBundles(v + w, names)
  {
  }

  lemma {:induction false} BundlesOnly(hashes: Hashes, bundles: seq<BundleSpec>, a: Arrivals)
    ensures OfBundles(BundlesPlan(hashes, bundles, a), Names(bundles))
    decreases |bundles|
  {
    if bundles != [] {
      var b := bundles[0];
      var rest := if BundleOk(hashes, b, a) then BundlesPlan(hashes, bundles[1..], a) else [];
      OneOnly(hashes, b, a);
      BundlesOnly(hashes, bundles[1..], a);
      assert b in bundles && Names(bundles[1..]) <= Names(bundles);
      Together(BundlePlan(hashes, b, a), rest, {b.name}, Names(bundles[1..]), Names(bundles));
    }
  }

  /** They leave everything else. */
  lemma {:induction false} BundlesSpare(s: Sys, ws: seq<Write>, names: set<string>, p: nat)
    requires OfBundles(ws, names)
    ensures var t := Cut(s, ws, p);
      && t == s.(disk := s.disk.(bundles := t.disk.bundles))
      && forall f: BundleFile :: f.bundle !in names ==>
           (f in t.disk.bundles <==> f in s.disk.bundles)
           && (f in s.disk.bundles ==> f in t.disk.bundles && t.disk.bundles[f] == s.disk.bundles[f])
    decreases |ws|
  {
    if ws != [] && p > 0 {
      assert ws[0] in ws;
      BundlesSpare(Apply(s, ws[0]), ws[1..], names, p - 1);
    }
  }

  /** The files of this bundle are there and hash to what its spec says. */
  predicate Intact(hashes: Hashes, b: BundleSpec, d: Disk) {
    && ImageName(b) in d.bundles && hashes(d.bundles[ImageName(b)], b.hash)
    && (b.verityHash != "" ==> TreeName(b) in d.bundles && hashes(d.bundles[TreeName(b)], b.treeHash))
  }

  /** The anchor that lies beside a bundle, if all of it does. */
  function AnchorBeside(d: Disk, b: BundleSpec): Option<Anchor> {
    var m, ms := AnchorName(b, FirmwareSlot.Manifest), AnchorName(b, FirmwareSlot.ManifestSig);
    var c, cs := AnchorName(b, FirmwareSlot.Cert), AnchorName(b, FirmwareSlot.CertSig);
    if m in d.bundles && ms in d.bundles && c in d.bundles && cs in d.bundles
    then Some(Anchor(d.bundles[m], d.bundles[ms], d.bundles[c], d.bundles[cs])) else None
  }

  predicate Stored(hashes: Hashes, b: BundleSpec, anchor: Anchor, d: Disk) {
    Intact(hashes, b, d) && AnchorBeside(d, b) == Some(anchor)
  }

  /** No later bundle has the same name. */
  predicate LastOfName(bundles: seq<BundleSpec>, i: nat)
    requires i < |bundles|
  {
    forall j :: i < j < |bundles| ==> bundles[j].name != bundles[i].name
  }

  ghost predicate AllStored(hashes: Hashes, bundles: seq<BundleSpec>, anchor: Anchor, d: Disk) {
    forall i: nat :: i < |bundles| && LastOfName(bundles, i) ==> Stored(hashes, bundles[i], anchor, d)
  }

  lemma OneStored(hashes: Hashes, b: BundleSpec, a: Arrivals, s: Sys)
    requires BundleOk(hashes, b, a)
    ensures Stored(hashes, b, a.anchor, Exec(s, BundlePlan(hashes, b, a)).disk)
  {
    var first := StoreBundle(ImageName(b), a.image(b).value);
    var tree, anchor := TreePlan(hashes, b, a), AnchorPlan(b, a.anchor);
    CutCons(s, first, tree + anchor, |BundlePlan(hashes, b, a)|);
    ExecAppend(Apply(s, first), tree, anchor);
    if b.verityHash != "" {
      var second := StoreBundle(TreeName(b), a.tree(b).value);
      assert tree == [second] + [];
      CutCons(Apply(s, first), second, [], 1);
    }
    var t := Exec(Apply(s, first), tree);
    AnchorWritten(t, b, a.anchor, Exec(t, anchor));
  }

  /** A bundle that was fetched to the end and is not whole: an image that does not hash is gone, and
      with a tree that does not hash both are. */
  lemma FailedBundleEnds(hashes: Hashes, b: BundleSpec, a: Arrivals, s: Sys)
    requires a.image(b).Some?
    requires !hashes(a.image(b).value, b.hash)
      || (b.verityHash != "" && !(a.tree(b).Some? && hashes(a.tree(b).value, b.treeHash)))
    ensures var t := Exec(s, BundlePlan(hashes, b, a));
      && ImageName(b) !in t.disk.bundles
      && (hashes(a.image(b).value, b.hash) && a.tree(b).Some? ==> TreeName(b) !in t.disk.bundles)
  {
    var first := StoreBundle(ImageName(b), a.image(b).value);
    var s1 := Apply(s, first);
    if !hashes(a.image(b).value, b.hash) {
      var last := RemoveBundle(ImageName(b));
      assert BundlePlan(hashes, b, a) == [first] + ([last] + []);
      CutCons(s, first, [last] + [], 2);
      CutCons(s1, last, [], 1);
    } else {
      var tree := TreePlan(hashes, b, a);
      assert BundlePlan(hashes, b, a) == [first] + tree by { assert tree + [] == tree; }
      CutCons(s, first, tree, 1 + |tree|);
      FailedTreeEnds(hashes, b, a, s1);
    }
  }

  lemma FailedTreeEnds(hashes: Hashes, b: BundleSpec, a: Arrivals, s: Sys)
    requires b.verityHash != "" && !(a.tree(b).Some? && hashes(a.tree(b).value, b.treeHash))
    ensures var t := Exec(s, TreePlan(hashes, b, a));
      ImageName(b) !in t.disk.bundles && (a.tree(b).Some? ==> TreeName(b) !in t.disk.bundles)
  {
    var x, y := RemoveBundle(ImageName(b)), RemoveBundle(TreeName(b));
    if a.tree(b).None? {
      assert TreePlan(hashes, b, a) == [x] + [];
      CutCons(s, x, [], 1);
    } else {
      var store := StoreBundle(TreeName(b), a.tree(b).value);
      assert TreePlan(hashes, b, a) == [store] + ([x] + ([y] + []));
      CutCons(s, store, [x] + ([y] + []), 3);
      CutCons(Apply(s, store), x, [y] + [], 2);
      CutCons(Apply(Apply(s, store), x), y, [], 1);
    }
  }

  lemma Written(s: Sys, name: BundleFile, bytes: Bytes)
    ensures Exec(s, WritePlan(name, bytes)) == s.(disk := s.disk.(bundles := s.disk.bundles[name := bytes]))
  {
    var empty, full := StoreBundle(name, ""), StoreBundle(name, bytes);
    assert WritePlan(name, bytes) == [empty] + ([full] + []);
    CutCons(s, empty, [full] + [], 2);
    CutCons(Apply(s, empty), full, [], 1);
    assert s.disk.bundles[name := ""][name := bytes] == s.disk.bundles[name := bytes];
  }

  function Overwritten(d: map<BundleFile, Bytes>, b: BundleSpec, files: seq<(FirmwareSlot.File, Bytes)>):
    map<BundleFile, Bytes>
    decreases |files|
  {
    if files == [] then d else Overwritten(d[AnchorName(b, files[0].0) := files[0].1], b, files[1..])
  }

  lemma {:induction false} AllWritten(s: Sys, b: BundleSpec, files: seq<(FirmwareSlot.File, Bytes)>)
    ensures Exec(s, WriteAll(b, files)) == s.(disk := s.disk.(bundles := Overwritten(s.disk.bundles, b, files)))
    decreases |files|
  {
    if files != [] {
      var name, bytes := AnchorName(b, files[0].0), files[0].1;
      ExecAppend(s, WritePlan(name, bytes), WriteAll(b, files[1..]));
      Written(s, name, bytes);
      AllWritten(s.(disk := s.disk.(bundles := s.disk.bundles[name := bytes])), b, files[1..]);
    }
  }

  lemma AnchorWritten(s: Sys, b: BundleSpec, a: Anchor, t: Sys)
    requires t == Exec(s, AnchorPlan(b, a))
    ensures AnchorBeside(t.disk, b) == Some(a)
    ensures forall f: BundleFile :: f == ImageName(b) || f == TreeName(b) ==>
      (f in t.disk.bundles <==> f in s.disk.bundles)
      && (f in s.disk.bundles ==> f in t.disk.bundles && t.disk.bundles[f] == s.disk.bundles[f])
  {
    var d, files := s.disk.bundles, AnchorFiles(a);
    AllWritten(s, b, files);
    var two, three, four := files[1..], files[2..], files[3..];
    assert two[1..] == three && three[1..] == four && four[1..] == [];
    var d1 := d[AnchorName(b, FirmwareSlot.Manifest) := a.manifest];
    var d2 := d1[AnchorName(b, FirmwareSlot.ManifestSig) := a.manifestSig];
    var d3 := d2[AnchorName(b, FirmwareSlot.Cert) := a.cert];
    assert Overwritten(d, b, files) == Overwritten(d1, b, two) == Overwritten(d2, b, three) == Overwritten(d3, b, four)
      == d3[AnchorName(b, FirmwareSlot.CertSig) := a.certSig];
  }

  /** When all bundles arrive intact, the files of each -- of the last, where a name comes twice --
      are stored and hash to their specs, with the anchor beside them. */
  lemma {:induction false} BundlesStored(hashes: Hashes, bundles: seq<BundleSpec>, a: Arrivals, s: Sys)
    requires AllOk(hashes, bundles, a)
    ensures AllStored(hashes, bundles, a.anchor, Exec(s, BundlesPlan(hashes, bundles, a)).disk)
    decreases |bundles|
  {
    if bundles != [] {
      var b, rest := bundles[0], bundles[1..];
      assert b in bundles;
      var plan := BundlesPlan(hashes, rest, a);
      var t := Exec(s, BundlePlan(hashes, b, a));
      ExecAppend(s, BundlePlan(hashes, b, a), plan);
      BundlesStored(hashes, rest, a, t);
      OneStored(hashes, b, a, s);
      BundlesOnly(hashes, rest, a);
      BundlesSpare(t, plan, Names(rest), |plan|);
      StillStored(hashes, bundles, a.anchor, t.disk, Exec(t, plan).disk);
    }
  }

  lemma StillStored(hashes: Hashes, bundles: seq<BundleSpec>, anchor: Anchor, d: Disk, e: Disk)
    requires bundles != [] && Stored(hashes, bundles[0], anchor, d) && AllStored(hashes, bundles[1..], anchor, e)
    requires forall f: BundleFile :: f.bundle !in Names(bundles[1..]) && f in d.bundles ==>
      f in e.bundles && e.bundles[f] == d.bundles[f]
    ensures AllStored(hashes, bundles, anchor, e)
  {
    var rest := bundles[1..];
    forall i: nat | i < |bundles| && LastOfName(bundles, i) ensures Stored(hashes, bundles[i], anchor, e) {
      if i > 0 {
        forall j | i - 1 < j < |rest| ensures rest[j].name != rest[i - 1].name { assert rest[j] == bundles[j + 1]; }
        assert LastOfName(rest, i - 1);
      } else {
        assert bundles[0].name !in Names(rest) by {
          forall b | b in rest ensures b.name != bundles[0].name {
            var j :| 0 <= j < |rest| && rest[j] == b;
            assert bundles[j + 1] == b;
          }
        }
      }
    }
  }
}
