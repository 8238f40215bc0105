/** Whole runs again: in every state of an orderly run an automatic boot finds a release whose
    rootfs is there. */
module Bootable {
  import opened Common
  import opened Versions
  import opened DeploymentWal
  import opened Device
  import opened Loader
  import opened PromotionSafety
  import opened Runs
  import opened StagedSlots
  import BootSuccess
  import PromoteSlots
  import RollForward
  import Stage
  import Trials

  // --- Releases by version ---

  /** Every numbered version has one genuine release, whose kernelcache carries the number. */
  ghost predicate Catalogued(pf: Platform, rel: string -> Release) {
    && SignaturesBind(pf)
    && forall v :: KcOf(v).Some? ==> Genuine(pf, rel(v)) && pf.version(rel(v).uki) == KcOf(v)
  }

  /** What verifies against a manifest that is staged is the release of its version. */
  predicate Honest(tr: Stage.Trust, rel: string -> Release, e: Event) {
    e.Update? && Stage.RootOk(tr, e.man, e.dl) && Stage.KcOk(tr, e.man, e.dl) ==>
      var r := rel(e.man.version);
      && e.dl.rootImage == Some(r.image) && e.dl.rootTree == Some(r.tree)
      && e.dl.kcImage == Some(r.uki) && e.dl.kcSig == Some(r.sig)
  }

  // --- The states of an orderly run ---

  /** A promotion of this disk, `n` half steps in, from the last known good to the pending release. */
  ghost predicate Phase(rel: string -> Release, w: Wal, d: Disk, d0: Disk, n: nat) {
    && n <= 8 && d == Halfway(d0, n) && d0.Linked()
    && Holds(d0, Active, rel(w.lastKnownGood)) && Holds(d0, Next, rel(w.pending))
  }

  ghost predicate DiskSafe(rel: string -> Release, w: Wal, d: Disk) {
    && d.Linked()
    && if w.HasPending() then exists d0, n :: Phase(rel, w, d, d0, n) else Holds(d, Active, rel(w.lastKnownGood))
  }

  predicate BootSafe(w: Wal, boot: Option<BootState>) {
    CascadeOf(boot, false) == StableCascade || (w.HasPending() && CascadeOf(boot, false) == TrialCascade)
  }

  ghost predicate SafeParts(rel: string -> Release, w: Option<Wal>, d: Disk, boot: Option<BootState>) {
    w.Some? && DiskSafe(rel, w.value, d) && BootSafe(w.value, boot)
  }

  ghost predicate Safe(rel: string -> Release, s: Sys) {
    Ordered(s) && SafeParts(rel, s.wal.primary, s.disk, s.boot)
  }

  /** Between installing the active kernelcache and its signature. */
  predicate InGap(rel: string -> Release, w: Wal, d: Disk) {
    && w.HasPending() && d.kcImage.active == Some(rel(w.pending).uki)
    && d.kcSig.active == Some(rel(w.lastKnownGood).sig) && rel(w.pending).uki != rel(w.lastKnownGood).uki
  }

  /** An automatic boot hands over to the last known good or the pending release, and its rootfs
      can be opened. */
  ghost predicate Boots(pf: Platform, rel: string -> Release, s: Sys)
    requires s.wal.primary.Some?
  {
    var w, c := s.wal.primary.value, CascadeOf(s.boot, false);
    BootsInto(pf, s.disk, s.counter, c, rel(w.lastKnownGood))
    || (w.HasPending() && BootsInto(pf, s.disk, s.counter, c, rel(w.pending)))
  }

  lemma SafeBoots(pf: Platform, rel: string -> Release, s: Sys)
    requires Catalogued(pf, rel) && Safe(rel, s)
    ensures Boots(pf, rel, s) || (CascadeOf(s.boot, false) == StableCascade && InGap(rel, s.wal.primary.value, s.disk))
  {
    var w := s.wal.primary.value;
    var good := rel(w.lastKnownGood);
    if w.HasPending() {
      var d0: Disk, n: nat :| Phase(rel, w, s.disk, d0, n);
      PhaseBoots(pf, rel, s, w, d0, n);
    } else {
      StableChoice(pf, s.disk, s.counter);
      assert Chainloads(pf, s.disk, s.counter, Os(Active));
      assert s.disk.Content(RootImage, Active) == Some(good.image)
        && s.disk.Content(RootTree, Active) == Some(good.tree);
    }
  }

  lemma PhaseBoots(pf: Platform, rel: string -> Release, s: Sys, w: Wal, d0: Disk, n: nat)
    requires Catalogued(pf, rel) && Safe(rel, s) && s.wal.primary == Some(w) && w.HasPending()
    requires Phase(rel, w, s.disk, d0, n)
    ensures Boots(pf, rel, s) || (CascadeOf(s.boot, false) == StableCascade && InGap(rel, w, s.disk))
  {
    var s0 := s.(disk := d0);
    assert Ready(pf, s0, rel(w.lastKnownGood), rel(w.pending));
    if CascadeOf(s.boot, false) == TrialCascade {
      TrialSafe(pf, s0, rel(w.lastKnownGood), rel(w.pending), n);
    } else {
      StableSafe(pf, s0, rel(w.lastKnownGood), rel(w.pending), n);
    }
  }

  // --- What an orderly run does not do ---

  /** The event gives the pending candidate up. */
  predicate GivesUp(st: State, e: Event) {
    && st.sys.wal.primary.Some? && st.sys.wal.primary.value.HasPending()
    && var w := st.sys.wal.primary.value;
    || e.UndoByHand?
    || (e.Report? && e.healthy && st.running.Some? && !BootSuccess.Confirmed(w, st.running.value)
        && BootSuccess.Exhausted(w, st.sys.boot))
  }

  /** It stages over a pending candidate that it does not promote first. */
  predicate Overwrites(st: State, e: Event) {
    && e.Update? && st.running.Some? && st.sys.wal.primary.Some? && st.sys.wal.primary.value.HasPending()
    && !BootSuccess.PromotesRunning(st.sys, st.running.value)
  }

  /** No candidate is given up unless the active slot still is the last known good release, and
      none is overwritten. */
  predicate Orderly(rel: string -> Release, st: State, e: Event) {
    && (GivesUp(st, e) ==> Holds(st.sys.disk, Active, rel(st.sys.wal.primary.value.lastKnownGood)))
    && !Overwrites(st, e)
  }

  // --- One routine at a time ---

  lemma SameRecord(rel: string -> Release, w: Wal, x: Wal, d: Disk)
    requires DiskSafe(rel, w, d) && x.lastKnownGood == w.lastKnownGood && x.pending == w.pending
    ensures DiskSafe(rel, x, d)
  {
    if w.HasPending() {
      var d0: Disk, n: nat :| Phase(rel, w, d, d0, n);
      assert Phase(rel, x, d, d0, n);
    }
  }

  lemma CleanedActive(d: Disk, j: int, r: Release)
    requires d.Linked() && Holds(d, Active, r)
    ensures RollForward.Cleaned(d, j).Linked() && Holds(RollForward.Cleaned(d, j), Active, r)
  {
    var e := RollForward.Cleaned(d, j);
    forall y: Slot
      ensures e.rootImage.At(y).Some? ==> e.rootImage.At(y).value in e.inodes
      ensures e.rootTree.At(y).Some? ==> e.rootTree.At(y).value in e.inodes
    {
      assert d.rootImage.At(y).Some? ==> d.rootImage.At(y).value in d.inodes;
      assert d.rootTree.At(y).Some? ==> d.rootTree.At(y).value in d.inodes;
    }
  }

  lemma StableKeeps(rel: string -> Release, s: Sys, hasStore: bool, p: nat)
    requires Safe(rel, s) && !s.wal.primary.value.HasPending()
    ensures var t := Cut(s, BootSuccess.StablePlan(s, s.wal.primary.value, hasStore), p);
      SafeParts(rel, t.wal.primary, t.disk, t.boot)
  {
    var w := s.wal.primary.value;
    RollForward.StableCut(s, w, hasStore, p);
    var arms := RollForward.Arms(s, w, hasStore);
    CleanedActive(s.disk, (if arms then p - 1 else p) - 1, rel(w.lastKnownGood));
  }

  lemma MissedKeeps(rel: string -> Release, s: Sys, p: nat)
    requires Safe(rel, s) && s.wal.primary.value.HasPending()
    requires BootSuccess.Exhausted(s.wal.primary.value, s.boot) ==>
      Holds(s.disk, Active, rel(s.wal.primary.value.lastKnownGood))
    ensures var t := Cut(s, BootSuccess.MissedPlan(s, s.wal.primary.value), p);
      SafeParts(rel, t.wal.primary, t.disk, t.boot)
  {
    var w := s.wal.primary.value;
    var x := BootSuccess.Missed(w, s.boot);
    TailsOf(w.lastKnownGood);
    ReconciledOnly(w, s.boot);
    Trials.MissedCut(s, w, p);
    if BootSuccess.Exhausted(w, s.boot) {
      CleanedActive(s.disk, p - 3, rel(w.lastKnownGood));
    } else {
      SameRecord(rel, w, x, s.disk);
    }
  }

  lemma GoodKeeps(rel: string -> Release, s: Sys, id: Identity, p: nat)
    requires Safe(rel, s) && s.wal.primary.value.HasPending() && !Promotes(s.wal.primary.value, true)
    ensures var t := Cut(s, BootSuccess.GoodBootPlan(s.wal.primary.value, id), p);
      SafeParts(rel, t.wal.primary, t.disk, t.boot)
  {
    var w := s.wal.primary.value;
    TailsOf(w.lastKnownGood);
    Trials.GoodCut(s, w, id, p);
    SameRecord(rel, w, GoodBoot(w, true), s.disk);
  }

  lemma UndoKeeps(rel: string -> Release, s: Sys, p: nat)
    requires Safe(rel, s) && Holds(s.disk, Active, rel(s.wal.primary.value.lastKnownGood))
    ensures var t := Cut(s, BootSuccess.RollbackPlan(s), p); SafeParts(rel, t.wal.primary, t.disk, t.boot)
  {
    var w := RolledBack(s.wal.primary.value);
    TailsOf(s.wal.primary.value.lastKnownGood);
    assert BootSuccess.RollbackPlan(s) == [SetBoot(BootStateOf(w))] + SavePlan(w, RolledBackByHand) + [];
    Trials.SaveCut(s, BootStateOf(w), w, RolledBackByHand, [], p);
  }

  /** A promotion, resumed from any phase and cut anywhere. */
  lemma PromotionKeeps(rel: string -> Release, s: Sys, g: Wal, c: Commit, hasStore: bool, p: nat)
    requires Safe(rel, s) && s.wal.primary.value.HasPending() && PromoteSlots.Preflight(s.disk)
    requires !g.HasPending() && g.lastKnownGood == s.wal.primary.value.pending
    ensures var t := Cut(s, PromoteSlots.Plan(s.disk) + RollForward.CommitTail(g, c, hasStore), p);
      SafeParts(rel, t.wal.primary, t.disk, t.boot)
  {
    var d0: Disk, n: nat :| Phase(rel, s.wal.primary.value, s.disk, d0, n);
    PromotionFrom(rel, s, s.wal.primary.value, d0, n, g, c, hasStore, p);
  }

  lemma PromotionFrom(rel: string -> Release, s: Sys, w: Wal, d0: Disk, n: nat, g: Wal, c: Commit, hasStore: bool,
                      p: nat)
    requires s.wal.primary == Some(w) && w.HasPending() && PromoteSlots.Preflight(s.disk) && BootSafe(w, s.boot)
    requires Phase(rel, w, s.disk, d0, n) && !g.HasPending() && g.lastKnownGood == w.pending
    ensures var t := Cut(s, PromoteSlots.Plan(s.disk) + RollForward.CommitTail(g, c, hasStore), p);
      SafeParts(rel, t.wal.primary, t.disk, t.boot)
  {
    var slots := PromoteSlots.Plan(s.disk);
    var k := SlotsMoveOn(rel, s, w, d0, n, Min(p, |slots|));
    var d := Halfway(d0, k);
    RollForward.ThenTail(s, slots, d, g, c, hasStore, p);
    if p > |slots| { TailKeeps(rel, s, w, d, d0, g, c, hasStore, p - |slots|); }
  }

  /** The slots part moves the phase on. */
  lemma SlotsMoveOn(rel: string -> Release, s: Sys, w: Wal, d0: Disk, n: nat, p: nat) returns (k: nat)
    requires Phase(rel, w, s.disk, d0, n) && PromoteSlots.Preflight(s.disk)
    ensures Phase(rel, w, Halfway(d0, k), d0, k) && Halfway(d0, k).Linked()
    ensures Cut(s, PromoteSlots.Plan(s.disk), p) == s.(disk := Halfway(d0, k))
    ensures p >= |PromoteSlots.Plan(s.disk)| ==> k == 8
  {
    var m := CutIsHalfway(s, p);
    PhasePresent(rel, w, s.disk, d0, n);
    RollForward.HalfwayOfHalfway(d0, n, m);
    k := Max(n, m);
    HalfwayLinked(d0, k);
  }

  lemma PhasePresent(rel: string -> Release, w: Wal, d: Disk, d0: Disk, n: nat)
    requires Phase(rel, w, d, d0, n)
    ensures Present(d0)
  {
    assert d0.Content(RootImage, Active).Some? && d0.Content(RootImage, Next).Some?;
    assert d0.Content(RootTree, Active).Some? && d0.Content(RootTree, Next).Some?;
  }

  lemma PromotedHolds(rel: string -> Release, w: Wal, d: Disk, d0: Disk)
    requires Phase(rel, w, d, d0, 8)
    ensures Holds(d, Active, rel(w.pending))
  {
    assert d.Content(RootImage, Active) == d0.Content(RootImage, Next);
    assert d.Content(RootTree, Active) == d0.Content(RootTree, Next);
  }

  lemma TailKeeps(rel: string -> Release, s: Sys, w: Wal, d: Disk, d0: Disk, g: Wal, c: Commit, hasStore: bool, q: nat)
    requires s.wal.primary == Some(w) && w.HasPending() && Phase(rel, w, d, d0, 8) && d.Linked() && q > 0
    requires !g.HasPending() && g.lastKnownGood == w.pending
    ensures var t := RollForward.TailState(s.(disk := d), g, c, hasStore, q);
      SafeParts(rel, t.wal.primary, t.disk, t.boot)
  {
    PromotedHolds(rel, w, d, d0);
    CleanedActive(d, q - 3, rel(w.pending));
    if q < 3 { assert RollForward.Cleaned(d, q - 3) == d; }
  }

  lemma ReportKeeps(rel: string -> Release, st: State, e: Event)
    requires Safe(rel, st.sys) && e.Report? && st.running.Some? && Orderly(rel, st, e)
    ensures var t := Cut(st.sys, BootSuccess.Plan(st.sys, e.healthy, st.running.value, e.hasStore), e.writes);
      SafeParts(rel, t.wal.primary, t.disk, t.boot)
  {
    var s, id, w := st.sys, st.running.value, st.sys.wal.primary.value;
    if !w.HasPending() {
      StableKeeps(rel, s, e.hasStore, e.writes);
    } else if e.healthy && !BootSuccess.Confirmed(w, id) {
      MissedKeeps(rel, s, e.writes);
    } else if e.healthy && !Promotes(w, true) {
      GoodKeeps(rel, s, id, e.writes);
    } else if e.healthy && PromoteSlots.Preflight(s.disk) {
      RollForward.PromotionIsSlotsThenTail(s, w, id, e.hasStore);
      PromotionKeeps(rel, s, GoodBoot(w, true), Promotion(ByBootSuccess, w.pending, w.pendingHash, id), e.hasStore,
        e.writes);
    }
  }

  // --- Staging ---

  /** Fetching leaves every slot but the staged ones. */
  lemma {:induction false} FetchSpares(s: Sys, ws: seq<Write>, p: nat)
    requires Stage.OnlyNext(ws) && s.disk.Linked()
    ensures var t := Cut(s, ws, p);
      t.disk.Linked() && forall f: File, x: Slot :: x != Next ==> t.disk.Content(f, x) == s.disk.Content(f, x)
    decreases |ws|
  {
    if ws != [] && p > 0 {
      assert ws[0] in ws;
      WriteSpares(s, ws[0]);
      FetchSpares(Apply(s, ws[0]), ws[1..], p - 1);
    }
  }

  lemma WriteSpares(s: Sys, w: Write)
    requires (w.Install? || w.Drop? || w.StoreBundle? || w.RemoveBundle?) && s.disk.Linked()
    ensures var d := Apply(s, w).disk;
      d.Linked() && forall f: File, x: Slot :: x != Next ==> d.Content(f, x) == s.disk.Content(f, x)
  {
    if w.Install? {
      InstallSpares(s.disk, w.file, w.bytes);
    } else if w.Drop? {
      DropSpares(s.disk, w.file);
    } else {
      BundleSpares(s.disk, Apply(s, w).disk);
    }
  }

  lemma BundleSpares(d: Disk, e: Disk)
    requires d.Linked() && e == d.(bundles := e.bundles)
    ensures e.Linked() && forall f: File, x: Slot :: e.Content(f, x) == d.Content(f, x)
  {
    forall y: Slot
      ensures e.rootImage.At(y).Some? ==> e.rootImage.At(y).value in e.inodes
      ensures e.rootTree.At(y).Some? ==> e.rootTree.At(y).value in e.inodes
    {
      assert d.rootImage.At(y).Some? ==> d.rootImage.At(y).value in d.inodes;
      assert d.rootTree.At(y).Some? ==> d.rootTree.At(y).value in d.inodes;
    }
  }

  lemma InstallSpares(d: Disk, file: File, bytes: Bytes)
    requires d.Linked()
    ensures var e := Installed(d, file, bytes);
      e.Linked() && forall f: File, x: Slot :: x != Next ==> e.Content(f, x) == d.Content(f, x)
  {
    StagingStaysInNext(d, file, bytes, RootImage, Active);
    forall f: File, x: Slot | x != Next ensures Installed(d, file, bytes).Content(f, x) == d.Content(f, x) {
      StagingStaysInNext(d, file, bytes, f, x);
    }
  }

  lemma DropSpares(d: Disk, file: File)
    requires d.Linked()
    ensures var e := Dropped(d, file);
      e.Linked() && forall f: File, x: Slot :: x != Next ==> e.Content(f, x) == d.Content(f, x)
  {
    var e := Dropped(d, file);
    forall y: Slot
      ensures e.rootImage.At(y).Some? ==> e.rootImage.At(y).value in e.inodes
      ensures e.rootTree.At(y).Some? ==> e.rootTree.At(y).value in e.inodes
    {
      assert d.rootImage.At(y).Some? ==> d.rootImage.At(y).value in d.inodes;
      assert d.rootTree.At(y).Some? ==> d.rootTree.At(y).value in d.inodes;
    }
  }

  lemma FetchKeeps(tr: Stage.Trust, rel: string -> Release, s: Sys, e: Event, host: Stage.Host, q: nat)
    requires Safe(rel, s) && !s.wal.primary.value.HasPending() && e.Update? && Honest(tr, rel, e)
    ensures var t := Cut(s, Stage.FetchPlan(tr, s, e.man, e.dl, host), q); SafeParts(rel, t.wal.primary, t.disk, t.boot)
  {
    if Stage.Admitted(s, e.man, host) {
      var w := s.wal.primary.value;
      var fetch, fin := Stage.ArtifactPlan(tr, e.man, e.dl, host), Stage.FinalPlan(tr, s, e.man, e.dl, host);
      var r := Cut(s, fetch, Min(q, |fetch|));
      CutAppend(s, fetch, fin, q);
      Fetching(tr, s, e, host, Min(q, |fetch|), rel(w.lastKnownGood));
      if q > |fetch| && Stage.Completes(tr, s, e.man, e.dl, host) {
        Fetched(tr, s, e.man, e.dl, host);
        CommitKeeps(tr, rel, r, w, e, host, q - |fetch|, Cut(s, Stage.FetchPlan(tr, s, e.man, e.dl, host), q));
      }
    }
  }

  /** While files are fetched, the active slot, the WAL and the boot-state stay. */
  lemma Fetching(tr: Stage.Trust, s: Sys, e: Event, host: Stage.Host, p: nat, r: Release)
    requires e.Update? && s.disk.Linked() && Holds(s.disk, Active, r)
    ensures var t := Cut(s, Stage.ArtifactPlan(tr, e.man, e.dl, host), p);
      t.disk.Linked() && Holds(t.disk, Active, r) && t.wal == s.wal && t.boot == s.boot
  {
    var fetch := Stage.ArtifactPlan(tr, e.man, e.dl, host);
    Stage.FetchesOnlyNext(tr, e.man, e.dl, host);
    FetchSpares(s, fetch, p);
    Stage.OnlyNextKeeps(s, fetch, p);
    var t := Cut(s, fetch, p);
    assert t.disk.Content(RootImage, Active) == s.disk.Content(RootImage, Active);
    assert t.disk.Content(RootTree, Active) == s.disk.Content(RootTree, Active);
    assert t.disk.Content(KcImage, Active) == s.disk.Content(KcImage, Active);
    assert t.disk.Content(KcSig, Active) == s.disk.Content(KcSig, Active);
  }

  lemma CommitKeeps(tr: Stage.Trust, rel: string -> Release, r: Sys, w: Wal, e: Event, host: Stage.Host, q: nat, t: Sys)
    requires e.Update? && Honest(tr, rel, e) && Stage.RootOk(tr, e.man, e.dl) && Stage.KcOk(tr, e.man, e.dl)
    requires r.wal.primary == Some(w) && !w.HasPending() && BootSafe(w, r.boot) && r.disk.Linked() && q >= 1
    requires Holds(r.disk, Active, rel(w.lastKnownGood)) && KcOf(w.lastKnownGood).Some?
    requires r.disk.Content(RootImage, Next) == e.dl.rootImage && r.disk.Content(RootTree, Next) == e.dl.rootTree
    requires r.disk.Content(KcImage, Next) == e.dl.kcImage && r.disk.Content(KcSig, Next) == e.dl.kcSig
    requires Stage.StagedWal(w, e.man, host).Some?
    requires t == Cut(r, Stage.CommitPlan(Stage.StagedWal(w, e.man, host).value, e.man), q)
    ensures SafeParts(rel, t.wal.primary, t.disk, t.boot)
  {
    var x := Stage.StagedWal(w, e.man, host).value;
    Stage.CommitCut(r, x, e.man, q);
    TailsOf(w.lastKnownGood);
    if x.HasPending() {
      assert Halfway(r.disk, 0) == r.disk;
      assert Phase(rel, x, r.disk, r.disk, 0);
    }
  }

  lemma RunningKeeps(rel: string -> Release, s: Sys, id: Identity, p: nat)
    requires Safe(rel, s)
    ensures var t := Cut(s, BootSuccess.RunningPlan(s, id), p); SafeParts(rel, t.wal.primary, t.disk, t.boot)
    ensures var plan := BootSuccess.RunningPlan(s, id);
      BootSuccess.PromotesRunning(s, id) && PromoteSlots.Preflight(s.disk) && p >= |plan| ==>
        Cut(s, plan, p).wal.primary.Some? && !Cut(s, plan, p).wal.primary.value.HasPending()
  {
    if BootSuccess.PromotesRunning(s, id) && PromoteSlots.Preflight(s.disk) {
      var w := s.wal.primary.value;
      var g, c := Promoted(w), Promotion(ByStage, w.pending, w.pendingHash, id);
      RunningIsSlotsThenTail(s, id);
      PromotionKeeps(rel, s, g, c, false, p);
      var slots := PromoteSlots.Plan(s.disk);
      var m := CutIsHalfway(s, Min(p, |slots|));
      RollForward.ThenTail(s, slots, Halfway(s.disk, m), g, c, false, p);
    }
  }

  lemma UpdateKeeps(tr: Stage.Trust, rel: string -> Release, s: Sys, e: Event, host: Stage.Host, p: nat)
    requires Safe(rel, s) && e.Update? && Honest(tr, rel, e)
    requires s.wal.primary.value.HasPending() ==> BootSuccess.PromotesRunning(s, host.id)
    requires Numbered(Cut(s, Stage.Plan(tr, s, e.man, e.dl, host), p).log)
    ensures var t := Cut(s, Stage.Plan(tr, s, e.man, e.dl, host), p); SafeParts(rel, t.wal.primary, t.disk, t.boot)
  {
    if !BootSuccess.RunningRefused(s, host.id) {
      var running := BootSuccess.RunningPlan(s, host.id);
      var t := Cut(s, Stage.Plan(tr, s, e.man, e.dl, host), p);
      PlanSplits(tr, s, e.man, e.dl, host, p);
      RunningKeeps(rel, s, host.id, Min(p, |running|));
      var r := Cut(s, running, Min(p, |running|));
      if p > |running| {
        RunningMoves(s, host.id, |running|);
        FetchMoves(tr, r, e.man, e.dl, host, p - |running|, t);
        NumberedBefore(r, t);
        MoveKeepsOrder(s, r);
        FetchKeeps(tr, rel, r, e, host, p - |running|);
      }
    }
  }

  // --- Whole runs ---

  lemma RebootKeeps(rel: string -> Release, s: Sys, unlockArmed: bool)
    requires Safe(rel, s)
    ensures Safe(rel, Charged(s, unlockArmed))
  {
  }

  lemma StepKeeps(pf: Platform, tr: Stage.Trust, rel: string -> Release, st: State, e: Event)
    requires Safe(rel, st.sys) && Honest(tr, rel, e) && Orderly(rel, st, e)
    requires Numbered(Step(pf, tr, st, e).sys.log)
    ensures Safe(rel, Step(pf, tr, st, e).sys)
  {
    var t := Step(pf, tr, st, e).sys;
    var r := StepMoves(pf, tr, st, e);
    NumberedBefore(r, t);
    MoveKeepsOrder(st.sys, r);
    MoveKeepsOrder(r, t);
    match e
    case Reboot(unlockArmed) => RebootKeeps(rel, st.sys, unlockArmed);
    case Pick(slot) =>
    case Report(healthy, hasStore, writes) => if st.running.Some? { ReportKeeps(rel, st, e); }
    case Update(man, dl, chips, kernel, firmwareDir, writes) =>
      if st.running.Some? {
        UpdateKeeps(tr, rel, st.sys, e, Stage.Host(st.running.value, chips, kernel, firmwareDir), writes);
      }
    case UndoByHand(writes) => UndoKeeps(rel, st.sys, writes);
  }

  ghost predicate OrderlyRun(pf: Platform, tr: Stage.Trust, rel: string -> Release, st: State, events: seq<Event>) {
    forall i :: 0 <= i < |events| ==> OrderlyAt(pf, tr, rel, st, events, i)
  }

  ghost predicate OrderlyAt(pf: Platform, tr: Stage.Trust, rel: string -> Release, st: State, events: seq<Event>,
                            i: nat)
    requires i < |events|
  {
    Honest(tr, rel, events[i]) && Orderly(rel, Run(pf, tr, st, events[..i]), events[i])
  }

  /** In every state of every orderly run, each event cut anywhere: an automatic boot hands over to
      the last known good or the pending release with its rootfs there -- unless the promotion is
      in the one gap between a kernelcache and its signature, with no trial boot left. */
  lemma {:induction false} AlwaysBoots(pf: Platform, tr: Stage.Trust, rel: string -> Release, st: State,
                                       events: seq<Event>)
    requires Catalogued(pf, rel) && Safe(rel, st.sys) && OrderlyRun(pf, tr, rel, st, events)
    requires Numbered(Run(pf, tr, st, events).sys.log)
    ensures var s := Run(pf, tr, st, events).sys;
      && Safe(rel, s)
      && (Boots(pf, rel, s) || (CascadeOf(s.boot, false) == StableCascade && InGap(rel, s.wal.primary.value, s.disk)))
    decreases |events|
  {
    if events != [] {
      var n := |events| - 1;
      var before := Run(pf, tr, st, events[..n]);
      Alive(pf, tr, st, events[..n]);
      var r := StepMoves(pf, tr, before, events[n]);
      NumberedBefore(r, Run(pf, tr, st, events).sys);
      NumberedBefore(before.sys, r);
      forall i | 0 <= i < n ensures OrderlyAt(pf, tr, rel, st, events[..n], i) {
        assert OrderlyAt(pf, tr, rel, st, events, i) && events[..n][..i] == events[..i];
      }
      AlwaysBoots(pf, tr, rel, st, events[..n]);
      assert OrderlyAt(pf, tr, rel, st, events, n);
      StepKeeps(pf, tr, rel, before, events[n]);
    }
    SafeBoots(pf, rel, Run(pf, tr, st, events).sys);
  }

  /** A freshly installed device. */
  lemma FreshSafe(rel: string -> Release, s: Sys, version: string)
    requires KcOf(version).Some? && s.wal.primary == Some(New(version)) && s.counter == 0 && s.log == []
    requires s.disk.Linked() && Holds(s.disk, Active, rel(version)) && s.boot.None?
    ensures Safe(rel, s)
  {
    FreshDevice(s, version);
  }
}
