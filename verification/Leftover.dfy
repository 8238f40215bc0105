/** A run that leads to the disk of `PromotionSafety.LeftoverLosesRoot`: a promotion cut after
    its rootfs files on the last trial boot, the fallback boot that gives the candidate up, and
    the staging of the next release. */
module Leftover {
  import opened Common
  import opened Versions
  import opened DeploymentWal
  import opened Device
  import opened Loader
  import opened PromotionSafety
  import BootSuccess
  import PromoteSlots
  import RollForward
  import Runs
  import Stage
  import opened StagedSlots
  import Trials

  /** The candidate runs on its last trial boot and has earned its promotion. */
  ghost predicate LastChance(pf: Platform, s: Sys, old_: Release, new_: Release) {
    && Ready(pf, s, old_, new_) && OpensOnly(pf, old_) && s.disk.Linked()
    && !PromoteSlots.Same(s.disk, RootImage) && !PromoteSlots.Same(s.disk, RootTree) && old_.image != new_.image
    && Trials.OnTrial(s) && s.boot.value.attempts == 0
    && var w := s.wal.primary.value;
    && w.lastKnownGood != "" && Promotes(w, true)
    && BootSuccess.Confirmed(w, new_.id) && !BootSuccess.Confirmed(w, old_.id)
  }

  /** The promotion, cut when both rootfs files are done. */
  lemma CutAfterRootfs(pf: Platform, s: Sys, old_: Release, new_: Release, hasStore: bool)
    requires LastChance(pf, s, old_, new_)
    ensures Cut(s, BootSuccess.Plan(s, true, new_.id, hasStore), 4) == s.(disk := Halfway(s.disk, 4))
    ensures |BootSuccess.Plan(s, true, new_.id, hasStore)| > 4
  {
    ReadyPreflight(pf, s, old_, new_);
    var w := s.wal.primary.value;
    RollForward.PromotionIsSlotsThenTail(s, w, new_.id, hasStore);
    var slots := PromoteSlots.Plan(s.disk);
    var tail := RollForward.CommitTail(GoodBoot(w, true),
      Promotion(ByBootSuccess, w.pending, w.pendingHash, new_.id), hasStore);
    RootfsFirst(s.disk);
    CutAppend(s, slots, tail, 4);
    PrefixIsHalfway(s, 0, 4);
    assert Halfway(s.disk, 0) == s.disk;
  }

  lemma RootfsFirst(d: Disk)
    requires !PromoteSlots.Same(d, RootImage) && !PromoteSlots.Same(d, RootTree)
    ensures |PromoteSlots.PlanFrom(d, 0)| >= 4
    ensures HalfSteps(d, 0, 4) == HalfSteps(d, 2, 0)
    ensures !PromoteSlots.Same(d, KcImage) ==> HalfSteps(d, 0, 4) == 4
  {
    PlanAt(d, 0);
    PlanAt(d, 1);
    PlanAt(d, 2);
  }

  /** What then boots is the old release, with its rootfs in the previous slot. */
  lemma FallsBack(pf: Platform, s: Sys, old_: Release, new_: Release)
    requires LastChance(pf, s, old_, new_)
    ensures var t := s.(disk := Halfway(s.disk, 4));
      && CascadeOf(t.boot, false) == StableCascade && Charged(t, false) == t
      && Runs.IdentityAt(pf, t.disk, Chosen(pf, t.disk, t.counter, StableCascade)) == Some(old_.id)
      && BootsInto(pf, t.disk, t.counter, StableCascade, old_)
  {
    ReadyPreflight(pf, s, old_, new_);
    RootAt(pf, s.disk, s.counter, old_, 4);
  }

  /** The state after the candidate was given up. */
  lemma GivenUp(pf: Platform, s: Sys, old_: Release, new_: Release, hasStore: bool, writes: nat)
    requires LastChance(pf, s, old_, new_)
    requires writes >= |BootSuccess.Plan(s.(disk := Halfway(s.disk, 4)), true, old_.id, hasStore)|
    ensures var u := s.(disk := Halfway(s.disk, 4));
      var t := Cut(u, BootSuccess.Plan(u, true, old_.id, hasStore), writes);
      && t.disk == Abandoned(s) && t.counter == s.counter
      && t.wal.primary.Some? && !t.wal.primary.value.HasPending()
  {
    var u := s.(disk := Halfway(s.disk, 4));
    var v := Trials.Visit(old_.id, true, hasStore, writes);
    Trials.SpentBudgetReturns(u, v);
    assert Trials.After(u, v) == Cut(u, BootSuccess.Plan(u, true, old_.id, hasStore), writes);
  }

  lemma Nothing(plan: seq<Write>)
    ensures [] + plan == plan
  {
  }

  lemma PlanWithoutRunning(tr: Stage.Trust, s: Sys, man: Stage.Manifest, dl: Stage.Delivery, host: Stage.Host)
    requires s.wal.primary.Some? && !s.wal.primary.value.HasPending() && Stage.Admitted(s, man, host)
    ensures Stage.Plan(tr, s, man, dl, host)
      == Stage.ArtifactPlan(tr, man, dl, host) + Stage.FinalPlan(tr, s, man, dl, host)
  {
    assert BootSuccess.RunningPlan(s, host.id) == [] && Exec(s, []) == s;
    Nothing(Stage.FetchPlan(tr, s, man, dl, host));
  }

  /** A staging that completes, and the disk it leaves. */
  lemma Restaged(tr: Stage.Trust, s: Sys, man: Stage.Manifest, dl: Stage.Delivery, host: Stage.Host, writes: nat)
    requires s.wal.primary.Some? && !s.wal.primary.value.HasPending()
    requires Stage.Completes(tr, s, man, dl, host) && writes >= |Stage.Plan(tr, s, man, dl, host)|
    requires s.disk.Linked()
    ensures var t := Cut(s, Stage.Plan(tr, s, man, dl, host), writes);
      StagedOver(s.disk, t.disk, dl) && t.counter == s.counter
  {
    var fetch, fin := Stage.ArtifactPlan(tr, man, dl, host), Stage.FinalPlan(tr, s, man, dl, host);
    PlanWithoutRunning(tr, s, man, dl, host);
    CutAppend(s, fetch, fin, writes);
    Fetched(tr, s, man, dl, host);
    Stage.CommitCut(Exec(s, fetch), Stage.StagedWal(s.wal.primary.value, man, host).value, man, writes - |fetch|);
  }

  datatype Third = Third(man: Stage.Manifest, dl: Stage.Delivery, chips: seq<string>, kernel: string, firmwareDir: bool)

  /** The run: promotion cut after four writes, reboot, fallback report, next release staged. */
  function Events(hasStore: bool, full: nat, x: Third): seq<Runs.Event> {
    [Runs.Report(true, hasStore, 4), Runs.Reboot(false), Runs.Report(true, hasStore, full),
     Runs.Update(x.man, x.dl, x.chips, x.kernel, x.firmwareDir, full)]
  }

  /** The disk when the last staging begins. */
  function Abandoned(s: Sys): Disk { RollForward.Cleaned(Halfway(s.disk, 4), 4) }

  ghost predicate Stages(tr: Stage.Trust, t: Sys, x: Third, id: Identity, old_: Release) {
    && Stage.Completes(tr, t, x.man, x.dl, Stage.Host(id, x.chips, x.kernel, x.firmwareDir))
    && x.dl.rootImage.value != "" && x.dl.rootTree.value != "" && x.dl.kcImage.value != "" && x.dl.kcSig.value != ""
    && x.dl.rootImage.value != old_.image
  }

  /** From there the first write of the next promotion leaves the device with a stable cascade
      that starts the old kernel without its root. */
  lemma AbandonedPromotionLosesRoot(pf: Platform, tr: Stage.Trust, s: Sys, old_: Release, new_: Release, hasStore: bool,
                                    full: nat, x: Third)
    requires LastChance(pf, s, old_, new_)
    requires var u := s.(disk := Halfway(s.disk, 4)); full >= |BootSuccess.Plan(u, true, old_.id, hasStore)|
    requires var given := Runs.Run(pf, tr, Runs.State(s, Some(new_.id)), Events(hasStore, full, x)[..3]);
      && Stages(tr, given.sys, x, old_.id, old_)
      && full >= |Stage.Plan(tr, given.sys, x.man, x.dl, Stage.Host(old_.id, x.chips, x.kernel, x.firmwareDir))|
    ensures var t := Runs.Run(pf, tr, Runs.State(s, Some(new_.id)), Events(hasStore, full, x)).sys;
      && PromoteSlots.Preflight(t.disk) && !PromoteSlots.Same(t.disk, RootImage)
      && !Survives(t.disk, RootImage, old_.image)
      && StartsWithoutRoot(pf, Cut(t, PromoteSlots.Plan(t.disk), 1), old_)
  {
    var st0, es := Runs.State(s, Some(new_.id)), Events(hasStore, full, x);
    FirstThree(pf, tr, s, old_, new_, hasStore, full, x);
    var given := Runs.Run(pf, tr, st0, es[..3]);
    AbandonedDisk(pf, s, old_, new_);
    Restaged(tr, given.sys, x.man, x.dl, Stage.Host(old_.id, x.chips, x.kernel, x.firmwareDir), full);
    LastStep(pf, tr, st0, es, old_.id, x, full);
    LeftoverStaged(pf, s, old_, new_, Runs.Run(pf, tr, st0, es).sys, x);
  }

  lemma LastStep(pf: Platform, tr: Stage.Trust, st0: Runs.State, es: seq<Runs.Event>, id: Identity, x: Third, full: nat)
    requires |es| == 4 && es[3] == Runs.Update(x.man, x.dl, x.chips, x.kernel, x.firmwareDir, full)
    requires Runs.Run(pf, tr, st0, es[..3]).running == Some(id)
    ensures var given := Runs.Run(pf, tr, st0, es[..3]).sys;
      Runs.Run(pf, tr, st0, es).sys
      == Cut(given, Stage.Plan(tr, given, x.man, x.dl, Stage.Host(id, x.chips, x.kernel, x.firmwareDir)), full)
  {
  }

  lemma FirstTwo(pf: Platform, tr: Stage.Trust, s: Sys, old_: Release, new_: Release, hasStore: bool, e: Runs.Event)
    requires LastChance(pf, s, old_, new_) && e == Runs.Report(true, hasStore, 4)
    ensures var u := s.(disk := Halfway(s.disk, 4));
      && Runs.Step(pf, tr, Runs.State(s, Some(new_.id)), e) == Runs.State(u, None)
      && Runs.Step(pf, tr, Runs.State(u, None), Runs.Reboot(false)) == Runs.State(u, Some(old_.id))
  {
    CutAfterRootfs(pf, s, old_, new_, hasStore);
    FallsBack(pf, s, old_, new_);
  }

  lemma FirstThree(pf: Platform, tr: Stage.Trust, s: Sys, old_: Release, new_: Release, hasStore: bool, full: nat,
                   x: Third)
    requires LastChance(pf, s, old_, new_)
    requires var u := s.(disk := Halfway(s.disk, 4)); full >= |BootSuccess.Plan(u, true, old_.id, hasStore)|
    ensures var t := Runs.Run(pf, tr, Runs.State(s, Some(new_.id)), Events(hasStore, full, x)[..3]);
      && t.running == Some(old_.id) && t.sys.disk == Abandoned(s) && t.sys.counter == s.counter
      && t.sys.wal.primary.Some? && !t.sys.wal.primary.value.HasPending()
  {
    var st0, es := Runs.State(s, Some(new_.id)), Events(hasStore, full, x);
    var u := s.(disk := Halfway(s.disk, 4));
    GivenUp(pf, s, old_, new_, hasStore, full);
    var e1, e2, e3 := es[..1], es[..2], es[..3];
    assert e1[..0] == [] && e2[..1] == e1 && e3[..2] == e2;
    var st1, st2 := Runs.State(u, None), Runs.State(u, Some(old_.id));
    FirstTwo(pf, tr, s, old_, new_, hasStore, es[0]);
    assert Runs.Run(pf, tr, st0, e1[..0]) == st0;
    assert Runs.Run(pf, tr, st0, e1) == st1;
    assert Runs.Run(pf, tr, st0, e2) == Runs.Step(pf, tr, st1, es[1]) == st2;
    assert Runs.Run(pf, tr, st0, e3) == Runs.Step(pf, tr, st2, es[2]);
  }

  /** The rootfs of the old release is in the previous slot, its kernelcache still active. */
  lemma AbandonedDisk(pf: Platform, s: Sys, old_: Release, new_: Release)
    requires LastChance(pf, s, old_, new_)
    ensures var d := Abandoned(s);
      && d.Linked()
      && d.Content(RootImage, Active) == Some(new_.image) && d.Content(RootTree, Active) == Some(new_.tree)
      && d.Content(KcImage, Active) == Some(old_.uki) && d.Content(KcSig, Active) == Some(old_.sig)
  {
    ReadyPreflight(pf, s, old_, new_);
    HalfwayLinked(s.disk, 4);
    forall f: File, x: Slot
      ensures Abandoned(s).Linked()
      ensures Abandoned(s).Content(f, x) == if x == Next then None else Halfway(s.disk, 4).Content(f, x)
    {
      CleanedKeeps(Halfway(s.disk, 4), f, x);
    }
  }

  lemma LeftoverStaged(pf: Platform, s: Sys, old_: Release, new_: Release, t: Sys, x: Third)
    requires LastChance(pf, s, old_, new_) && t.counter == s.counter && StagedOver(Abandoned(s), t.disk, x.dl)
    requires x.dl.rootImage.Some? && x.dl.rootTree.Some? && x.dl.kcImage.Some? && x.dl.kcSig.Some?
    requires x.dl.rootImage.value != "" && x.dl.rootTree.value != "" && x.dl.kcImage.value != ""
      && x.dl.kcSig.value != ""
    requires x.dl.rootImage.value != old_.image
    ensures PromoteSlots.Preflight(t.disk) && !PromoteSlots.Same(t.disk, RootImage)
    ensures !Survives(t.disk, RootImage, old_.image)
    ensures StartsWithoutRoot(pf, Cut(t, PromoteSlots.Plan(t.disk), 1), old_)
  {
    AbandonedDisk(pf, s, old_, new_);
    forall f: File ensures PromoteSlots.NonEmpty(t.disk, f, Next) && PromoteSlots.NonEmpty(t.disk, f, Active) {
      assert t.disk.Content(f, Active) == Abandoned(s).Content(f, Active);
    }
    assert t.disk.Content(RootImage, Active) == Some(new_.image);
    LeftoverLosesRoot(pf, t, old_);
  }
}
