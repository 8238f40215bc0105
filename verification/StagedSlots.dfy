/** What fetching a release does to the slots on disk. */
module StagedSlots {
  import opened Common
  import opened Device
  import opened PromotionSafety
  import PromoteSlots
  import RollForward
  import Stage

  /** The staged slots hold what was delivered, in inodes of their own; the others are as before. */
  ghost predicate StagedOver(d: Disk, e: Disk, dl: Stage.Delivery) {
    && e.Linked()
    && e.Content(RootImage, Next) == dl.rootImage && e.Content(RootTree, Next) == dl.rootTree
    && e.Content(KcImage, Next) == dl.kcImage && e.Content(KcSig, Next) == dl.kcSig
    && (forall f: File, x: Slot :: x != Next ==> e.Content(f, x) == d.Content(f, x))
    && !PromoteSlots.Same(e, RootImage) && !PromoteSlots.Same(e, RootTree)
  }

  /** The four installs of a complete fetch, and the bundles after them. */
  lemma Fetched(tr: Stage.Trust, s: Sys, man: Stage.Manifest, dl: Stage.Delivery, host: Stage.Host)
    requires Stage.RootOk(tr, man, dl) && Stage.KcOk(tr, man, dl) && s.disk.Linked()
    ensures var t := Exec(s, Stage.ArtifactPlan(tr, man, dl, host));
      StagedOver(s.disk, t.disk, dl) && t.counter == s.counter
  {
    var a, b, c, d := Install(RootImage, dl.rootImage.value), Install(RootTree, dl.rootTree.value),
                      Install(KcImage, dl.kcImage.value), Install(KcSig, dl.kcSig.value);
    var os, firmware := Stage.OsPlan(tr, man, dl), Stage.FirmwarePlan(tr, man, dl, host);
    assert os == [a, b, c, d];
    ExecAppend(s, os, firmware);
    FourWrites(s, a, b, c, d, 4);
    FourInstalled(s.disk, dl);
    FirmwareSpares(tr, Exec(s, os), man, dl, host);
  }

  lemma FirmwareSpares(tr: Stage.Trust, s: Sys, man: Stage.Manifest, dl: Stage.Delivery, host: Stage.Host)
    ensures var t := Exec(s, Stage.FirmwarePlan(tr, man, dl, host)); t == s.(disk := s.disk.(bundles := t.disk.bundles))
  {
    var bundles := Stage.StagedBundles(man, host);
    Stage.BundlesSpareSlots(tr, s, bundles, dl.bundles, |Stage.FirmwarePlan(tr, man, dl, host)|);
  }

  lemma FourWrites(s: Sys, a: Write, b: Write, c: Write, d: Write, p: nat)
    requires p >= 4
    ensures Cut(s, [a, b, c, d], p) == Apply(Apply(Apply(Apply(s, a), b), c), d)
  {
    assert [a, b, c, d] == [a] + ([b] + ([c] + ([d] + [])));
    CutCons(s, a, [b] + ([c] + ([d] + [])), p);
    CutCons(Apply(s, a), b, [c] + ([d] + []), p - 1);
    CutCons(Apply(Apply(s, a), b), c, [d] + [], p - 2);
    CutCons(Apply(Apply(Apply(s, a), b), c), d, [], p - 3);
  }

  lemma FourInstalled(d: Disk, dl: Stage.Delivery)
    requires d.Linked() && dl.rootImage.Some? && dl.rootTree.Some? && dl.kcImage.Some? && dl.kcSig.Some?
    ensures StagedOver(d, Installed(Installed(Installed(Installed(d, RootImage, dl.rootImage.value),
      RootTree, dl.rootTree.value), KcImage, dl.kcImage.value), KcSig, dl.kcSig.value), dl)
  {
    var d1 := Installed(d, RootImage, dl.rootImage.value);
    var d2 := Installed(d1, RootTree, dl.rootTree.value);
    var d3 := Installed(d2, KcImage, dl.kcImage.value);
    var e := Installed(d3, KcSig, dl.kcSig.value);
    forall f: File, x: Slot
      ensures e.Linked() && e.Content(f, x) == if x == Next then Delivered(dl, f) else d.Content(f, x)
    {
      StagingStaysInNext(d, RootImage, dl.rootImage.value, f, x);
      StagingStaysInNext(d1, RootTree, dl.rootTree.value, f, x);
      StagingStaysInNext(d2, KcImage, dl.kcImage.value, f, x);
      StagingStaysInNext(d3, KcSig, dl.kcSig.value, f, x);
    }
    OldInodes(d, Active);
    assert e.rootImage.next == Some(d.freshInode) && e.rootImage.active == d.rootImage.active;
    assert e.rootTree.next == Some(d.freshInode + 1) && e.rootTree.active == d.rootTree.active;
    assert d.rootImage.active == d.rootImage.At(Active) && d.rootTree.active == d.rootTree.At(Active);
    assert e.Content(RootImage, Next) == Delivered(dl, RootImage)
      && e.Content(RootTree, Next) == Delivered(dl, RootTree);
    assert e.Content(KcImage, Next) == Delivered(dl, KcImage) && e.Content(KcSig, Next) == Delivered(dl, KcSig);
  }

  function Delivered(dl: Stage.Delivery, f: File): Option<Bytes> {
    match f
    case RootImage => dl.rootImage case RootTree => dl.rootTree
    case KcImage => dl.kcImage case KcSig => dl.kcSig
  }

  lemma OldInodes(d: Disk, x: Slot)
    requires d.Linked()
    ensures d.rootImage.At(x).Some? ==> d.rootImage.At(x).value < d.freshInode
    ensures d.rootTree.At(x).Some? ==> d.rootTree.At(x).value < d.freshInode
  {
  }

  lemma CleanedKeeps(d: Disk, f: File, x: Slot)
    ensures RollForward.Cleaned(d, 4).Content(f, x) == if x == Next then None else d.Content(f, x)
    ensures d.Linked() ==> RollForward.Cleaned(d, 4).Linked()
  {
    var e := RollForward.Cleaned(d, 4);
    if d.Linked() {
      forall y: Slot
        ensures e.rootImage.At(y).Some? ==> e.rootImage.At(y).value in e.inodes
        ensures e.rootTree.At(y).Some? ==> e.rootTree.At(y).value in e.inodes
      {
        assert d.rootImage.At(y).Some? ==> d.rootImage.At(y).value in d.inodes;
        assert d.rootTree.At(y).Some? ==> d.rootTree.At(y).value in d.inodes;
      }
    }
  }

  lemma HalfwayLinked(d: Disk, n: nat)
    requires d.Linked()
    ensures Halfway(d, n).Linked()
  {
    var e := Halfway(d, n);
    forall y: Slot
      ensures e.rootImage.At(y).Some? ==> e.rootImage.At(y).value in e.inodes
      ensures e.rootTree.At(y).Some? ==> e.rootTree.At(y).value in e.inodes
    {
      forall x: Slot
        ensures d.rootImage.At(x).Some? ==> d.rootImage.At(x).value in d.inodes
        ensures d.rootTree.At(x).Some? ==> d.rootTree.At(x).value in d.inodes
      {
      }
      assert e.rootImage.At(y) in {d.rootImage.At(y), d.rootImage.At(Active), d.rootImage.At(Next)};
      assert e.rootTree.At(y) in {d.rootTree.At(y), d.rootTree.At(Active), d.rootTree.At(Next)};
    }
  }
}
