/** How a device gets to `Leftover.LastChance`, from its installation on: a candidate is staged,
    boots well until one good boot is missing, and then comes up without a report until the
    budget is spent. */
module LeftoverRun {
  import opened Common
  import opened Versions
  import opened DeploymentWal
  import opened Device
  import opened Loader
  import opened PromotionSafety
  import opened Runs
  import opened StagedSlots
  import BootSuccess
  import opened Leftover
  import PromoteSlots
  import Stage
  import TrialRuns
  import Trials

  /** The installed release runs, and nothing is pending. */
  ghost predicate AtRest(pf: Platform, s: Sys, old_: Release) {
    && SignaturesBind(pf) && Genuine(pf, old_) && OpensOnly(pf, old_) && AboveFloor(pf, s.counter, old_.uki)
    && s.disk.Linked() && Holds(s.disk, Active, old_)
    && s.wal.primary.Some?
    && var w := s.wal.primary.value;
    && !w.HasPending() && w.lastKnownGood != "" && w.maxAttempts >= 1 && w.stableThreshold >= 1
  }

  function HostOf(id: Identity, x: Third): Stage.Host { Stage.Host(id, x.chips, x.kernel, x.firmwareDir) }

  function UpdateTo(x: Third, full: nat): Event { Update(x.man, x.dl, x.chips, x.kernel, x.firmwareDir, full) }

  /** A new release is delivered whole, and its staging completes. */
  ghost predicate Offered(pf: Platform, tr: Stage.Trust, s: Sys, x: Third, old_: Release, new_: Release) {
    && Stage.Completes(tr, s, x.man, x.dl, HostOf(old_.id, x))
    && x.dl.rootImage == Some(new_.image) && x.dl.rootTree == Some(new_.tree)
    && x.dl.kcImage == Some(new_.uki) && x.dl.kcSig == Some(new_.sig)
    && Genuine(pf, new_) && AboveFloor(pf, s.counter, new_.uki) && new_.image != old_.image
    && x.man.version != "" && BootSuccess.Matches(new_.id, x.man.version, x.man.verityHash)
    && !BootSuccess.Matches(old_.id, x.man.version, x.man.verityHash)
  }

  predicate Limits(s: Sys, t: nat, m: nat) {
    s.wal.primary.Some? && s.wal.primary.value.stableThreshold == t && s.wal.primary.value.maxAttempts == m
  }

  /** The candidate was staged from an installed release, and has not been tried yet. */
  ghost predicate Untried(pf: Platform, s: Sys, old_: Release, new_: Release, t: nat, m: nat) {
    && Ready(pf, s, old_, new_) && OpensOnly(pf, old_) && s.disk.Linked()
    && !PromoteSlots.Same(s.disk, RootImage) && !PromoteSlots.Same(s.disk, RootTree) && old_.image != new_.image
    && Trials.OnTrial(s) && Limits(s, t, m) && t >= 1 && m >= 1 && Later(s, s, 0, m)
    && var w := s.wal.primary.value;
    && w.lastKnownGood != "" && BootSuccess.Confirmed(w, new_.id) && !BootSuccess.Confirmed(w, old_.id)
  }

  /** The same trial, with `good` good boots and `attempts` left. */
  predicate Later(s0: Sys, s: Sys, good: int, attempts: int) {
    && s.disk == s0.disk && s.counter == s0.counter && s.boot == Some(BootState(TargetNext, true, attempts))
    && s0.wal.primary.Some? && s.wal.primary.Some?
    && var w0, w := s0.wal.primary.value, s.wal.primary.value;
    && w.pending == w0.pending && w.pendingHash == w0.pendingHash && w.lastKnownGood == w0.lastKnownGood
    && w.stableThreshold == w0.stableThreshold && w.maxAttempts == w0.maxAttempts && w.stableBoots == good
  }

  lemma StagedTrial(pf: Platform, tr: Stage.Trust, s: Sys, x: Third, old_: Release, new_: Release, full: nat,
                    t: nat, m: nat, u: State)
    requires AtRest(pf, s, old_) && Offered(pf, tr, s, x, old_, new_) && Limits(s, t, m)
    requires full >= |Stage.Plan(tr, s, x.man, x.dl, HostOf(old_.id, x))|
    requires u == Step(pf, tr, State(s, Some(old_.id)), UpdateTo(x, full))
    ensures Untried(pf, u.sys, old_, new_, t, m)
  {
    var host := HostOf(old_.id, x);
    assert u.sys == Cut(s, Stage.Plan(tr, s, x.man, x.dl, host), full);
    Restaged(tr, s, x.man, x.dl, host, full);
    StagedReady(pf, s, u.sys, x.dl, old_, new_);
    StagedRecord(tr, s, x.man, x.dl, host, full);
    Tried(s, u.sys, x.man, host, old_, new_, t, m);
  }

  lemma Tried(s: Sys, u: Sys, man: Stage.Manifest, host: Stage.Host, old_: Release, new_: Release, t: nat, m: nat)
    requires Limits(s, t, m) && m >= 1 && man.version != ""
    requires var g := Stage.StagedWal(s.wal.primary.value, man, host);
      g.Some? && u.wal.primary == g && u.boot == Some(BootStateOf(g.value))
    requires BootSuccess.Matches(new_.id, man.version, man.verityHash)
      && !BootSuccess.Matches(old_.id, man.version, man.verityHash)
    ensures Trials.OnTrial(u) && Limits(u, t, m) && Later(u, u, 0, m)
    ensures var w := u.wal.primary.value;
      && w.lastKnownGood == s.wal.primary.value.lastKnownGood
      && BootSuccess.Confirmed(w, new_.id) && !BootSuccess.Confirmed(w, old_.id)
  {
  }

  lemma StagedReady(pf: Platform, s: Sys, u: Sys, dl: Stage.Delivery, old_: Release, new_: Release)
    requires AtRest(pf, s, old_) && StagedOver(s.disk, u.disk, dl) && u.counter == s.counter
    requires dl.rootImage == Some(new_.image) && dl.rootTree == Some(new_.tree)
    requires dl.kcImage == Some(new_.uki) && dl.kcSig == Some(new_.sig)
    requires Genuine(pf, new_) && AboveFloor(pf, s.counter, new_.uki)
    ensures Ready(pf, u, old_, new_) && u.disk.Linked()
    ensures !PromoteSlots.Same(u.disk, RootImage) && !PromoteSlots.Same(u.disk, RootTree)
  {
    assert forall f: File :: u.disk.Content(f, Active) == s.disk.Content(f, Active);
  }

  lemma StagedRecord(tr: Stage.Trust, s: Sys, man: Stage.Manifest, dl: Stage.Delivery, host: Stage.Host, writes: nat)
    requires s.wal.primary.Some? && !s.wal.primary.value.HasPending()
    requires Stage.Completes(tr, s, man, dl, host) && writes >= |Stage.Plan(tr, s, man, dl, host)|
    ensures var t, g := Cut(s, Stage.Plan(tr, s, man, dl, host), writes),
                        Stage.StagedWal(s.wal.primary.value, man, host).value;
      t.wal.primary == Some(g) && t.boot == Some(BootStateOf(g))
  {
    var fetch, fin := Stage.ArtifactPlan(tr, man, dl, host), Stage.FinalPlan(tr, s, man, dl, host);
    PlanWithoutRunning(tr, s, man, dl, host);
    var e, q := Past(s, fetch, fin, Stage.Plan(tr, s, man, dl, host), writes);
    Committed(tr, s, man, dl, host, e, fin, q);
  }

  lemma Past(s: Sys, a: seq<Write>, b: seq<Write>, plan: seq<Write>, p: nat) returns (e: Sys, q: nat)
    requires plan == a + b && p >= |plan|
    ensures Cut(s, plan, p) == Cut(e, b, q) && q >= |b|
  {
    CutAppend(s, a, b, p);
    e, q := Exec(s, a), p - |a|;
  }

  lemma Committed(tr: Stage.Trust, s: Sys, man: Stage.Manifest, dl: Stage.Delivery, host: Stage.Host, e: Sys,
                  fin: seq<Write>, q: nat)
    requires s.wal.primary.Some? && Stage.Completes(tr, s, man, dl, host)
    requires fin == Stage.FinalPlan(tr, s, man, dl, host) && q >= |fin|
    ensures var t, g := Cut(e, fin, q), Stage.StagedWal(s.wal.primary.value, man, host).value;
      t.wal.primary == Some(g) && t.boot == Some(BootStateOf(g))
  {
    var g := Stage.StagedWal(s.wal.primary.value, man, host).value;
    assert |Stage.CommitPlan(g, man)| == 3;
    Stage.CommitCut(e, g, man, q);
  }

  // --- Good boots ---

  function GoodBoots(n: nat, hasStore: bool, full: nat): seq<Event> {
    if n == 0 then [] else GoodBoots(n - 1, hasStore, full) + [Reboot(false), Report(true, hasStore, full)]
  }

  lemma OneGoodBoot(pf: Platform, tr: Stage.Trust, s0: Sys, st: State, old_: Release, new_: Release, t: nat, m: nat,
                    good: nat, hasStore: bool, full: nat, u: State)
    requires Untried(pf, s0, old_, new_, t, m) && Later(s0, st.sys, good, m) && good + 1 < t && full >= 3
    requires u == Step(pf, tr, Step(pf, tr, st, Reboot(false)), Report(true, hasStore, full))
    ensures Later(s0, u.sys, good + 1, m)
  {
    TrialRuns.TriedNext(pf, tr, st, hasStore, full);
  }

  lemma {:induction false} ManyGoodBoots(pf: Platform, tr: Stage.Trust, st: State, old_: Release, new_: Release,
                                         t: nat, m: nat, n: nat, hasStore: bool, full: nat)
    requires Untried(pf, st.sys, old_, new_, t, m) && n < t && full >= 3
    ensures Later(st.sys, Run(pf, tr, st, GoodBoots(n, hasStore, full)).sys, n, m)
    decreases n
  {
    if n > 0 {
      ManyGoodBoots(pf, tr, st, old_, new_, t, m, n - 1, hasStore, full);
      var before, two := GoodBoots(n - 1, hasStore, full), [Reboot(false), Report(true, hasStore, full)];
      RunTwo(pf, tr, st, before, two);
      OneGoodBoot(pf, tr, st.sys, Run(pf, tr, st, before), old_, new_, t, m, n - 1, hasStore, full,
                  Run(pf, tr, st, before + two));
    }
  }

  lemma RunTwo(pf: Platform, tr: Stage.Trust, st: State, a: seq<Event>, two: seq<Event>)
    requires |two| == 2
    ensures Run(pf, tr, st, a + two) == Step(pf, tr, Step(pf, tr, Run(pf, tr, st, a), two[0]), two[1])
  {
    var one := a + [two[0]];
    assert a + two == one + [two[1]];
    RunOneMore(pf, tr, st, one, two[1]);
    RunOneMore(pf, tr, st, a, two[0]);
  }

  // --- Boots without a report ---

  function Reboots(n: nat): seq<Event> { if n == 0 then [] else Reboots(n - 1) + [Reboot(false)] }

  lemma OneReboot(pf: Platform, tr: Stage.Trust, s0: Sys, st: State, old_: Release, new_: Release, t: nat, m: nat,
                  good: int, attempts: int)
    requires Untried(pf, s0, old_, new_, t, m) && Later(s0, st.sys, good, attempts) && attempts >= 1
    ensures var u := Step(pf, tr, st, Reboot(false));
      Later(s0, u.sys, good, attempts - 1) && u.running == Some(new_.id)
  {
    var s := Charged(st.sys, false);
    TrialChoice(pf, s.disk, s.counter);
  }

  function Rebooted(pf: Platform, tr: Stage.Trust, st: State, n: nat): State {
    if n == 0 then st else Step(pf, tr, Rebooted(pf, tr, st, n - 1), Reboot(false))
  }

  lemma {:induction false} RebootsRun(pf: Platform, tr: Stage.Trust, st: State, n: nat)
    ensures Run(pf, tr, st, Reboots(n)) == Rebooted(pf, tr, st, n)
    decreases n
  {
    if n > 0 {
      RebootsRun(pf, tr, st, n - 1);
      RunNext(pf, tr, st, Reboots(n - 1), Reboot(false), Reboots(n), Rebooted(pf, tr, st, n - 1));
    }
  }

  lemma RunNext(pf: Platform, tr: Stage.Trust, st: State, a: seq<Event>, e: Event, all: seq<Event>, mid: State)
    requires all == a + [e] && Run(pf, tr, st, a) == mid
    ensures Run(pf, tr, st, all) == Step(pf, tr, mid, e)
  {
    RunOneMore(pf, tr, st, a, e);
  }

  lemma {:induction false} ManyReboots(pf: Platform, tr: Stage.Trust, s0: Sys, st: State, old_: Release, new_: Release,
                                       t: nat, m: nat, good: int, n: nat)
    requires Untried(pf, s0, old_, new_, t, m) && Later(s0, st.sys, good, m) && n <= m
    ensures Later(s0, Rebooted(pf, tr, st, n).sys, good, m - n)
    ensures n >= 1 ==> Rebooted(pf, tr, st, n).running == Some(new_.id)
    decreases n
  {
    if n > 0 {
      ManyReboots(pf, tr, s0, st, old_, new_, t, m, good, n - 1);
      OneReboot(pf, tr, s0, Rebooted(pf, tr, st, n - 1), old_, new_, t, m, good, m - n + 1);
    }
  }

  // --- The whole way ---

  function Opening(x: Third, t: nat, m: nat, hasStore: bool, full: nat): seq<Event>
    requires t >= 1
  {
    [UpdateTo(x, full)] + GoodBoots(t - 1, hasStore, full) + Reboots(m)
  }

  lemma Spent(pf: Platform, s0: Sys, s: Sys, old_: Release, new_: Release, t: nat, m: nat)
    requires Untried(pf, s0, old_, new_, t, m) && Later(s0, s, t - 1, 0)
    ensures LastChance(pf, s, old_, new_)
  {
  }

  /** All good boots but one, and then boots without a report. */
  lemma SpentTrial(pf: Platform, tr: Stage.Trust, st: State, old_: Release, new_: Release, t: nat, m: nat,
                   hasStore: bool, full: nat, u: State)
    requires Untried(pf, st.sys, old_, new_, t, m) && full >= 3
    requires t >= 1 && u == Run(pf, tr, Run(pf, tr, st, GoodBoots(t - 1, hasStore, full)), Reboots(m))
    ensures LastChance(pf, u.sys, old_, new_) && u.running == Some(new_.id)
  {
    var mid := Run(pf, tr, st, GoodBoots(t - 1, hasStore, full));
    ManyGoodBoots(pf, tr, st, old_, new_, t, m, t - 1, hasStore, full);
    RebootsRun(pf, tr, mid, m);
    ManyReboots(pf, tr, st.sys, mid, old_, new_, t, m, t - 1, m);
    Spent(pf, st.sys, u.sys, old_, new_, t, m);
  }

  /** The staging, and what follows it. */
  lemma ThreeParts(pf: Platform, tr: Stage.Trust, st: State, e: Event, b: seq<Event>, c: seq<Event>)
    ensures Run(pf, tr, st, [e] + b + c) == Run(pf, tr, Run(pf, tr, Step(pf, tr, st, e), b), c)
  {
    RunOneMore(pf, tr, st, [], e);
    assert [] + [e] == [e];
    RunAppend(pf, tr, st, [e], b);
    RunAppend(pf, tr, st, [e] + b, c);
  }

  /** From any installed device, whatever its limits are. */
  lemma LastChanceReached(pf: Platform, tr: Stage.Trust, s: Sys, x: Third, old_: Release, new_: Release,
                          t: nat, m: nat, hasStore: bool, full: nat, u: State)
    requires AtRest(pf, s, old_) && Offered(pf, tr, s, x, old_, new_) && Limits(s, t, m) && t >= 1
    requires full >= 3 && full >= |Stage.Plan(tr, s, x.man, x.dl, HostOf(old_.id, x))|
    requires u == Run(pf, tr, State(s, Some(old_.id)), Opening(x, t, m, hasStore, full))
    ensures LastChance(pf, u.sys, old_, new_) && u.running == Some(new_.id)
  {
    var st, e := State(s, Some(old_.id)), UpdateTo(x, full);
    var st1 := Step(pf, tr, st, e);
    StagedTrial(pf, tr, s, x, old_, new_, full, t, m, st1);
    ThreeParts(pf, tr, st, e, GoodBoots(t - 1, hasStore, full), Reboots(m));
    SpentTrial(pf, tr, st1, old_, new_, t, m, hasStore, full, u);
  }

  // --- The rest of the run, and an instance of it ---

  /** A release without firmware bundles, of the running kernel, delivered whole. */
  predicate Plain(tr: Stage.Trust, x: Third) {
    && x.man.bundles == [] && x.man.kernelRelease == "" && VersionNumber(x.man.version).None?
    && Stage.RootOk(tr, x.man, x.dl) && Stage.KcOk(tr, x.man, x.dl)
    && x.dl.rootImage.value != "" && x.dl.rootTree.value != "" && x.dl.kcImage.value != "" && x.dl.kcSig.value != ""
  }

  lemma PlainCompletes(tr: Stage.Trust, s: Sys, x: Third, id: Identity)
    requires Plain(tr, x) && s.wal.primary.Some? && !s.wal.primary.value.HasPending()
    ensures Stage.Completes(tr, s, x.man, x.dl, HostOf(id, x))
    ensures |Stage.Plan(tr, s, x.man, x.dl, HostOf(id, x))| == 7
  {
    var host := HostOf(id, x);
    assert Stage.StagedBundles(x.man, host) == [];
    PlanWithoutRunning(tr, s, x.man, x.dl, host);
  }

  lemma MissedLength(s: Sys, id: Identity, hasStore: bool)
    requires s.wal.primary.Some? && s.wal.primary.value.HasPending() && !BootSuccess.Confirmed(s.wal.primary.value, id)
    ensures |BootSuccess.Plan(s, true, id, hasStore)| <= 7
  {
  }

  /** From the installation on: one release is staged, tried and given up in the middle of its
      promotion, the next one is staged, and the first write of its promotion loses the root. */
  lemma InstallationToLoss(pf: Platform, tr: Stage.Trust, s: Sys, x: Third, y: Third, old_: Release, new_: Release,
                           t: nat, m: nat, hasStore: bool, full: nat, u: Sys)
    requires AtRest(pf, s, old_) && Offered(pf, tr, s, x, old_, new_) && Limits(s, t, m) && t >= 1
    requires Plain(tr, y) && y.dl.rootImage != Some(old_.image)
    requires full >= 7 && full >= |Stage.Plan(tr, s, x.man, x.dl, HostOf(old_.id, x))|
    requires u == Run(pf, tr, State(s, Some(old_.id)), Opening(x, t, m, hasStore, full) + Events(hasStore, full, y)).sys
    ensures PromoteSlots.Preflight(u.disk) && !Survives(u.disk, RootImage, old_.image)
      && StartsWithoutRoot(pf, Cut(u, PromoteSlots.Plan(u.disk), 1), old_)
  {
    var st, opening := State(s, Some(old_.id)), Opening(x, t, m, hasStore, full);
    var mid := Run(pf, tr, st, opening);
    LastChanceReached(pf, tr, s, x, old_, new_, t, m, hasStore, full, mid);
    RunAppend(pf, tr, st, opening, Events(hasStore, full, y));
    LossAfter(pf, tr, mid, y, old_, new_, hasStore, full);
  }

  lemma LossAfter(pf: Platform, tr: Stage.Trust, mid: State, y: Third, old_: Release, new_: Release, hasStore: bool,
                  full: nat)
    requires LastChance(pf, mid.sys, old_, new_) && mid.running == Some(new_.id)
    requires Plain(tr, y) && y.dl.rootImage != Some(old_.image) && full >= 7
    ensures var u := Run(pf, tr, mid, Events(hasStore, full, y)).sys;
      && PromoteSlots.Preflight(u.disk) && !Survives(u.disk, RootImage, old_.image)
      && StartsWithoutRoot(pf, Cut(u, PromoteSlots.Plan(u.disk), 1), old_)
  {
    MissedLength(mid.sys.(disk := Halfway(mid.sys.disk, 4)), old_.id, hasStore);
    FirstThree(pf, tr, mid.sys, old_, new_, hasStore, full, y);
    var given := Run(pf, tr, mid, Events(hasStore, full, y)[..3]);
    PlainCompletes(tr, given.sys, y, old_.id);
    AbandonedPromotionLosesRoot(pf, tr, mid.sys, old_, new_, hasStore, full, y);
  }
}
