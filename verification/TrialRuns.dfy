/** Trial boots over whole runs: what each event of a run may cost or give back. */
module TrialRuns {
  import opened Common
  import opened DeploymentWal
  import opened Device
  import opened Loader
  import opened Runs
  import BootSuccess
  import PromoteSlots
  import PromotionSafety
  import RollForward
  import Stage
  import Trials

  // --- A potential ---

  /** Trial boots the loader would still make. */
  function Left(boot: Option<BootState>): nat {
    if boot.Some? && boot.value.target == TargetNext && boot.value.trial && boot.value.attempts > 0
    then boot.value.attempts else 0
  }

  /** The limits of a run: the threshold `t` and the budget `m` are set once and kept. */
  predicate LimitedWal(w: Wal, t: int, m: int) {
    && w.stableThreshold == t && w.maxAttempts == m && m >= 1
    && 0 <= w.stableBoots < t && w.bootAttempts <= m
  }

  predicate Limited(s: Sys, t: int, m: int) {
    s.wal.primary.Some? && LimitedWal(s.wal.primary.value, t, m) && Left(s.boot) <= m
  }

  function WalPotential(w: Wal): int {
    if w.HasPending() then (w.stableThreshold - w.stableBoots - 1) * w.maxAttempts else 0
  }

  /** What is missing to the threshold, in budgets, and the attempts left. */
  function Potential(s: Sys): int
    requires s.wal.primary.Some?
  {
    WalPotential(s.wal.primary.value) + Left(s.boot)
  }

  lemma PotentialBounds(s: Sys, t: int, m: int)
    requires Limited(s, t, m)
    ensures 0 <= Potential(s) <= t * m
  {
    var w := s.wal.primary.value;
    assert (t - w.stableBoots - 1) * m >= 0;
    assert t * m == (t - w.stableBoots - 1) * m + w.stableBoots * m + m;
    assert w.stableBoots * m >= 0 && t * m >= m;
  }

  // --- What an event costs and gives ---

  /** A trial boot: the loader charges its budget. */
  function Charges(st: State, e: Event): nat {
    if e.Reboot? && CascadeOf(st.sys.boot, e.unlockArmed) == TrialCascade then 1 else 0
  }

  predicate Reports(st: State, e: Event) {
    e.Report? && e.healthy && st.running.Some? && st.sys.wal.primary.Some? && st.sys.wal.primary.value.HasPending()
  }

  predicate OnTrialBoot(boot: Option<BootState>) {
    boot.Some? && boot.value.target == TargetNext && boot.value.trial
  }

  /** A missed report that finds no trial boot-state writes one with the WAL's budget. */
  predicate Refills(s: Sys, w: Wal, writes: nat) {
    !BootSuccess.Exhausted(w, s.boot) && !OnTrialBoot(s.boot) && writes >= 1
  }

  /** A missed report that keeps the candidate but none of its good boots. */
  predicate Wipes(s: Sys, w: Wal, writes: nat) {
    !BootSuccess.Exhausted(w, s.boot) && w.stableBoots > 0 && writes >= 3
  }

  /** A good boot whose refreshed budget reached the boot-state but not the WAL. */
  predicate Torn(s: Sys, w: Wal, writes: nat) {
    !Promotes(w, true) && 1 <= writes <= 2 && Left(s.boot) < w.maxAttempts
  }

  /** The loader gets new attempts, and the count of good boots is where it was. */
  predicate Stalled(st: State, e: Event) {
    Reports(st, e)
    && if BootSuccess.Confirmed(st.sys.wal.primary.value, st.running.value)
       then Torn(st.sys, st.sys.wal.primary.value, e.writes) else Refills(st.sys, st.sys.wal.primary.value, e.writes)
  }

  /** A staging that gets to its WAL commit. */
  predicate Restages(tr: Stage.Trust, s: Sys, man: Stage.Manifest, dl: Stage.Delivery, host: Stage.Host, writes: nat) {
    var running := BootSuccess.RunningPlan(s, host.id);
    && !BootSuccess.RunningRefused(s, host.id) && Stage.Completes(tr, Exec(s, running), man, dl, host)
    && writes >= |running| + |Stage.ArtifactPlan(tr, man, dl, host)| + 2
  }

  /** The count of good boots starts over: at a missed report that wipes them out, or with a new
      candidate. */
  predicate Restarted(tr: Stage.Trust, st: State, e: Event) {
    || (e.Update? && st.running.Some?
        && Restages(tr, st.sys, e.man, e.dl, Stage.Host(st.running.value, e.chips, e.kernel, e.firmwareDir), e.writes))
    || (Reports(st, e) && !BootSuccess.Confirmed(st.sys.wal.primary.value, st.running.value)
        && Wipes(st.sys, st.sys.wal.primary.value, e.writes))
  }

  function Count(b: bool): nat { if b then 1 else 0 }

  function If(b: bool, a: int): int { if b then a else 0 }

  // --- One routine at a time ---

  /** After a routine: the limits kept, and the potential raised by no more than `more`. */
  ghost predicate Within(s: Sys, u: Sys, t: int, m: int, more: int) {
    Limited(u, t, m) && s.wal.primary.Some? && Potential(u) <= Potential(s) + more
  }

  /** Neither the WAL nor the loader's budget moved. */
  lemma Unchanged(s: Sys, u: Sys, t: int, m: int)
    requires Limited(s, t, m) && u.wal.primary == s.wal.primary && u.boot == s.boot
    ensures Within(s, u, t, m, 0)
  {
  }

  /** A routine that settles the boot-state on active first and then the WAL on no candidate. */
  lemma Settled(s: Sys, u: Sys, g: Wal, t: int, m: int)
    requires Limited(s, t, m) && LimitedWal(g, t, m) && !g.HasPending()
    requires u.boot == Some(BOOT_ACTIVE) && (u.wal.primary == s.wal.primary || u.wal.primary == Some(g))
    ensures Within(s, u, t, m, 0)
  {
    PotentialBounds(s, t, m);
  }

  lemma PromotionWithin(s: Sys, g: Wal, c: Commit, hasStore: bool, p: nat, t: int, m: int)
    requires Limited(s, t, m) && LimitedWal(g, t, m) && !g.HasPending() && PromoteSlots.Preflight(s.disk)
    ensures Within(s, Cut(s, PromoteSlots.Plan(s.disk) + RollForward.CommitTail(g, c, hasStore), p), t, m, 0)
  {
    var slots := PromoteSlots.Plan(s.disk);
    var n := PromotionSafety.CutIsHalfway(s, Min(p, |slots|));
    var d := PromotionSafety.Halfway(s.disk, n);
    RollForward.ThenTail(s, slots, d, g, c, hasStore, p);
    TailWithin(s, d, g, c, hasStore, p - |slots|, t, m);
  }

  lemma TailWithin(s: Sys, d: Disk, g: Wal, c: Commit, hasStore: bool, q: int, t: int, m: int)
    requires Limited(s, t, m) && LimitedWal(g, t, m) && !g.HasPending()
    ensures q <= 0 ==> Within(s, s.(disk := d), t, m, 0)
    ensures q > 0 ==> Within(s, RollForward.TailState(s.(disk := d), g, c, hasStore, q), t, m, 0)
  {
    if q <= 0 {
      Unchanged(s, s.(disk := d), t, m);
    } else {
      Settled(s, RollForward.TailState(s.(disk := d), g, c, hasStore, q), g, t, m);
    }
  }

  lemma MissedWithin(s: Sys, w: Wal, p: nat, t: int, m: int)
    requires Limited(s, t, m) && s.wal.primary == Some(w) && w.HasPending()
    ensures var u := Cut(s, BootSuccess.MissedPlan(s, w), p);
      && Within(s, u, t, m, If(Refills(s, w, p), m) + If(Wipes(s, w, p), t * m))
      && (Potential(u) > Potential(s) <==> Refills(s, w, p) || Wipes(s, w, p))
  {
    var x := BootSuccess.Missed(w, s.boot);
    var u := Cut(s, BootSuccess.MissedPlan(s, w), p);
    Trials.MissedCut(s, w, p);
    MissedLimits(w, s.boot, t, m);
    assert Limited(u, t, m);
    MissedLeft(s, w);
    if BootSuccess.Exhausted(w, s.boot) {
      PotentialBounds(s, t, m);
    } else {
      WipedOut(t, w.stableBoots, m);
    }
  }

  lemma WipedOut(t: int, sb: int, m: int)
    requires 0 <= sb < t && m >= 1
    ensures (t - 1) * m == (t - sb - 1) * m + sb * m && 0 <= sb * m <= t * m - m && (sb > 0 ==> sb * m >= m)
  {
    NotNegative(t - sb - 1, m);
    NotNegative(sb, m);
    assert t * m == (t - sb - 1) * m + sb * m + m;
    if sb > 0 { NotNegative(sb - 1, m); }
  }

  lemma NotNegative(k: int, m: int)
    requires k >= 0 && m >= 1
    ensures k * m >= 0 && (k + 1) * m == k * m + m
  {
  }

  /** The loader's attempts after a missed boot. */
  lemma MissedLeft(s: Sys, w: Wal)
    requires w.HasPending()
    ensures var x := BootSuccess.Missed(w, s.boot);
      var b := Left(Some(BootStateOf(x)));
      if BootSuccess.Exhausted(w, s.boot) then b == 0 && !x.HasPending()
      else x.HasPending() && x.stableBoots == 0 && x.bootAttempts == b >= 1
           && if OnTrialBoot(s.boot) then b <= Left(s.boot) else Left(s.boot) == 0
  {
  }

  lemma MissedLimits(w: Wal, b: Option<BootState>, t: int, m: int)
    requires LimitedWal(w, t, m) && w.HasPending()
    ensures var x := BootSuccess.Missed(w, b); LimitedWal(x, t, m) && Left(Some(BootStateOf(x))) <= m
  {
  }

  /** A good boot: one more towards the threshold for a whole budget. */
  lemma GoodWithin(s: Sys, w: Wal, id: Identity, p: nat, t: int, m: int)
    requires Limited(s, t, m) && s.wal.primary == Some(w) && w.HasPending() && !Promotes(w, true)
    ensures var u := Cut(s, BootSuccess.GoodBootPlan(w, id), p);
      Within(s, u, t, m, If(Torn(s, w, p), m)) && (Potential(u) > Potential(s) <==> Torn(s, w, p))
  {
    var g := GoodBoot(w, true);
    Trials.GoodCut(s, w, id, p);
    var u := Cut(s, BootSuccess.GoodBootPlan(w, id), p);
    if p >= 3 {
      assert WalPotential(g) == (t - w.stableBoots - 2) * m;
      assert (t - w.stableBoots - 1) * m == (t - w.stableBoots - 2) * m + m;
    }
  }

  lemma StableWithin(s: Sys, hasStore: bool, p: nat, t: int, m: int)
    requires Limited(s, t, m) && !s.wal.primary.value.HasPending()
    ensures Within(s, Cut(s, BootSuccess.StablePlan(s, s.wal.primary.value, hasStore), p), t, m, 0)
  {
    var g := s.wal.primary.value;
    RollForward.StableCut(s, g, hasStore, p);
  }

  /** A report raises the potential exactly when it stalls or restarts the trial. */
  lemma ReportWithin(tr: Stage.Trust, st: State, e: Event, t: int, m: int)
    requires Limited(st.sys, t, m) && e.Report? && st.running.Some?
    ensures var u := Cut(st.sys, BootSuccess.Plan(st.sys, e.healthy, st.running.value, e.hasStore), e.writes);
      && Within(st.sys, u, t, m, If(Stalled(st, e), m) + If(Restarted(tr, st, e), t * m))
      && (Potential(u) > Potential(st.sys) <==> Stalled(st, e) || Restarted(tr, st, e))
  {
    var s, id := st.sys, st.running.value;
    var w := s.wal.primary.value;
    if !w.HasPending() {
      StableWithin(s, e.hasStore, e.writes, t, m);
    } else if !e.healthy {
      Unchanged(s, s, t, m);
    } else if !BootSuccess.Confirmed(w, id) {
      MissedWithin(s, w, e.writes, t, m);
    } else if !Promotes(w, true) {
      GoodWithin(s, w, id, e.writes, t, m);
    } else if !PromoteSlots.Preflight(s.disk) {
      Unchanged(s, s, t, m);
    } else {
      RollForward.PromotionIsSlotsThenTail(s, w, id, e.hasStore);
      PromotionWithin(s, GoodBoot(w, true), Promotion(ByBootSuccess, w.pending, w.pendingHash, id), e.hasStore,
        e.writes, t, m);
    }
  }

  lemma UndoWithin(s: Sys, p: nat, t: int, m: int)
    requires Limited(s, t, m)
    ensures Within(s, Cut(s, BootSuccess.RollbackPlan(s), p), t, m, 0)
  {
    var w := RolledBack(s.wal.primary.value);
    assert BootSuccess.RollbackPlan(s) == [SetBoot(BootStateOf(w))] + SavePlan(w, RolledBackByHand) + [];
    Trials.SaveCut(s, BootStateOf(w), w, RolledBackByHand, [], p);
    var u := Cut(s, BootSuccess.RollbackPlan(s), p);
    if p == 0 { Unchanged(s, u, t, m); } else { Settled(s, u, w, t, m); }
  }

  lemma LimitedWithin(s: Sys, u: Sys, t: int, m: int)
    requires Limited(s, t, m) && Limited(u, t, m)
    ensures Within(s, u, t, m, t * m)
  {
    PotentialBounds(s, t, m);
    PotentialBounds(u, t, m);
  }

  lemma UpdateWithin(tr: Stage.Trust, s: Sys, man: Stage.Manifest, dl: Stage.Delivery, host: Stage.Host, p: nat,
                     u: Sys, t: int, m: int)
    requires Limited(s, t, m) && u == Cut(s, Stage.Plan(tr, s, man, dl, host), p)
    ensures Within(s, u, t, m, If(Restages(tr, s, man, dl, host, p), t * m))
  {
    if BootSuccess.RunningRefused(s, host.id) {
      Unchanged(s, u, t, m);
    } else {
      var running := BootSuccess.RunningPlan(s, host.id);
      var r := Cut(s, running, Min(p, |running|));
      PlanSplits(tr, s, man, dl, host, p);
      RunningWithin(s, host.id, Min(p, |running|), t, m);
      if p > |running| {
        FetchWithin(tr, s, r, man, dl, host, p - |running|, u, t, m);
      } else {
        assert u == r;
        PotentialBounds(s, t, m);
      }
    }
  }

  lemma FetchWithin(tr: Stage.Trust, s: Sys, r: Sys, man: Stage.Manifest, dl: Stage.Delivery, host: Stage.Host, q: nat,
                    u: Sys, t: int, m: int)
    requires Limited(s, t, m) && Within(s, r, t, m, 0) && u == Cut(r, Stage.FetchPlan(tr, r, man, dl, host), q)
    ensures var commits := Stage.Completes(tr, r, man, dl, host) && q >= |Stage.ArtifactPlan(tr, man, dl, host)| + 2;
      Within(s, u, t, m, If(commits, t * m))
  {
    if Stage.Completes(tr, r, man, dl, host) && q >= |Stage.ArtifactPlan(tr, man, dl, host)| + 2 {
      FetchLimited(tr, r, man, dl, host, q, u, t, m);
      LimitedWithin(s, u, t, m);
    } else {
      FetchSpares(tr, r, man, dl, host, q);
    }
  }

  /** Until its WAL commit a staging leaves the record and the boot-state alone. */
  lemma FetchSpares(tr: Stage.Trust, r: Sys, man: Stage.Manifest, dl: Stage.Delivery, host: Stage.Host, q: nat)
    requires r.wal.primary.Some?
    requires !Stage.Completes(tr, r, man, dl, host) || q <= |Stage.ArtifactPlan(tr, man, dl, host)| + 1
    ensures var u := Cut(r, Stage.FetchPlan(tr, r, man, dl, host), q);
      u.wal.primary == r.wal.primary && u.boot == r.boot
  {
    if Stage.Admitted(r, man, host) {
      var fetch, fin := Stage.ArtifactPlan(tr, man, dl, host), Stage.FinalPlan(tr, r, man, dl, host);
      CutAppend(r, fetch, fin, q);
      Stage.FetchesOnlyNext(tr, man, dl, host);
      Stage.OnlyNextKeeps(r, fetch, q);
      Stage.OnlyNextKeeps(r, fetch, |fetch|);
      if q > |fetch| && Stage.Completes(tr, r, man, dl, host) {
        Stage.CommitCut(Exec(r, fetch), Stage.StagedWal(r.wal.primary.value, man, host).value, man, q - |fetch|);
      }
    }
  }

  lemma RunningWithin(s: Sys, id: Identity, p: nat, t: int, m: int)
    requires Limited(s, t, m)
    ensures Within(s, Cut(s, BootSuccess.RunningPlan(s, id), p), t, m, 0)
  {
    if BootSuccess.PromotesRunning(s, id) && PromoteSlots.Preflight(s.disk) {
      var w := s.wal.primary.value;
      var g, c := Promoted(w), Promotion(ByStage, w.pending, w.pendingHash, id);
      RunningIsSlotsThenTail(s, id);
      PromotionWithin(s, g, c, false, p, t, m);
    } else {
      Unchanged(s, s, t, m);
    }
  }

  lemma FetchLimited(tr: Stage.Trust, r: Sys, man: Stage.Manifest, dl: Stage.Delivery, host: Stage.Host, q: nat,
                     u: Sys, t: int, m: int)
    requires Limited(r, t, m) && u == Cut(r, Stage.FetchPlan(tr, r, man, dl, host), q)
    ensures Limited(u, t, m)
  {
    Stage.FetchAtomic(tr, r, man, dl, host, q);
  }

  // --- Whole runs ---

  lemma StepWithin(pf: Platform, tr: Stage.Trust, st: State, e: Event, t: int, m: int, u: Sys)
    requires Limited(st.sys, t, m) && u == Step(pf, tr, st, e).sys
    ensures Limited(u, t, m)
    ensures Charges(st, e) + Potential(u)
      <= Potential(st.sys) + If(Stalled(st, e), m) + If(Restarted(tr, st, e), t * m)
    ensures e.Report? ==> (Potential(u) > Potential(st.sys) <==> Stalled(st, e) || Restarted(tr, st, e))
  {
    match e
    case Reboot(unlockArmed) =>
    case Pick(slot) =>
    case Report(healthy, hasStore, writes) => if st.running.Some? { ReportWithin(tr, st, e, t, m); }
    case Update(man, dl, chips, kernel, firmwareDir, writes) =>
      if st.running.Some? {
        UpdateWithin(tr, st.sys, man, dl, Stage.Host(st.running.value, chips, kernel, firmwareDir), writes, u, t, m);
      }
    case UndoByHand(writes) => UndoWithin(st.sys, writes, t, m);
  }

  /** Trial boots, stalls and restarts of a run. */
  function TrialBoots(pf: Platform, tr: Stage.Trust, st: State, events: seq<Event>): nat {
    if events == [] then 0
    else
      var n := |events| - 1;
      TrialBoots(pf, tr, st, events[..n]) + Charges(Run(pf, tr, st, events[..n]), events[n])
  }

  function Stalls(pf: Platform, tr: Stage.Trust, st: State, events: seq<Event>): nat {
    if events == [] then 0
    else
      var n := |events| - 1;
      Stalls(pf, tr, st, events[..n]) + Count(Stalled(Run(pf, tr, st, events[..n]), events[n]))
  }

  function Restarts(pf: Platform, tr: Stage.Trust, st: State, events: seq<Event>): nat {
    if events == [] then 0
    else
      var n := |events| - 1;
      Restarts(pf, tr, st, events[..n]) + Count(Restarted(tr, Run(pf, tr, st, events[..n]), events[n]))
  }

  function Times(n: nat, a: int): int { if n == 0 then 0 else Times(n - 1, a) + a }

  lemma {:induction false} TimesIs(n: nat, a: int)
    ensures Times(n, a) == a * n
  {
    if n > 0 {
      TimesIs(n - 1, a);
      assert a * n == a * (n - 1) + a;
    }
  }

  /** And in the counts of a run. */
  lemma CountsLast(pf: Platform, tr: Stage.Trust, st: State, events: seq<Event>)
    requires events != []
    ensures var n := |events| - 1;
      var init, before := events[..n], Run(pf, tr, st, events[..n]);
      && Run(pf, tr, st, events) == Step(pf, tr, before, events[n])
      && TrialBoots(pf, tr, st, events) == TrialBoots(pf, tr, st, init) + Charges(before, events[n])
      && Stalls(pf, tr, st, events) == Stalls(pf, tr, st, init) + Count(Stalled(before, events[n]))
      && Restarts(pf, tr, st, events) == Restarts(pf, tr, st, init) + Count(Restarted(tr, before, events[n]))
  {
  }

  /** Trial boots made and still possible, less what the run was allowed on top. */
  function Balance(pf: Platform, tr: Stage.Trust, st: State, events: seq<Event>, m: int, tm: int): int
    requires Run(pf, tr, st, events).sys.wal.primary.Some?
  {
    TrialBoots(pf, tr, st, events) + Potential(Run(pf, tr, st, events).sys)
    - Times(Stalls(pf, tr, st, events), m) - Times(Restarts(pf, tr, st, events), tm)
  }

  lemma TimesNext(n: nat, b: bool, a: int, k: nat)
    requires k == n + Count(b)
    ensures Times(k, a) == Times(n, a) + If(b, a)
  {
  }

  lemma Carry(b0: int, b1: int, c: int, p: int, q: int, s0: int, s1: int, ds: int, r0: int, r1: int, dr: int)
    requires b1 == b0 + c && s1 == s0 + ds && r1 == r0 + dr && c + q <= p + ds + dr
    ensures b1 + q - s1 - r1 <= b0 + p - s0 - r0
  {
  }

  lemma BalanceFalls(pf: Platform, tr: Stage.Trust, st: State, events: seq<Event>, t: int, m: int, tm: int)
    requires events != [] && tm == t * m
    requires Limited(Run(pf, tr, st, events[..|events| - 1]).sys, t, m)
    ensures Limited(Run(pf, tr, st, events).sys, t, m)
    ensures Balance(pf, tr, st, events, m, tm) <= Balance(pf, tr, st, events[..|events| - 1], m, tm)
  {
    var n := |events| - 1;
    var init, before, e := events[..n], Run(pf, tr, st, events[..n]), events[n];
    CountsLast(pf, tr, st, events);
    StepWithin(pf, tr, before, e, t, m, Run(pf, tr, st, events).sys);
    TimesNext(Stalls(pf, tr, st, init), Stalled(before, e), m, Stalls(pf, tr, st, events));
    TimesNext(Restarts(pf, tr, st, init), Restarted(tr, before, e), tm, Restarts(pf, tr, st, events));
    Carry(TrialBoots(pf, tr, st, init), TrialBoots(pf, tr, st, events), Charges(before, e),
          Potential(before.sys), Potential(Run(pf, tr, st, events).sys),
          Times(Stalls(pf, tr, st, init), m), Times(Stalls(pf, tr, st, events), m), If(Stalled(before, e), m),
          Times(Restarts(pf, tr, st, init), tm), Times(Restarts(pf, tr, st, events), tm),
          If(Restarted(tr, before, e), tm));
  }

  lemma {:induction false} Ledger(pf: Platform, tr: Stage.Trust, st: State, events: seq<Event>, t: int, m: int, tm: int)
    requires Limited(st.sys, t, m) && tm == t * m
    ensures Limited(Run(pf, tr, st, events).sys, t, m)
    ensures Balance(pf, tr, st, events, m, tm) <= Potential(st.sys)
    decreases |events|
  {
    if events != [] {
      Ledger(pf, tr, st, events[..|events| - 1], t, m, tm);
      BalanceFalls(pf, tr, st, events, t, m, tm);
    }
  }

  /** Over any run -- with boots of any slot, picked or automatic, reports cut anywhere, stagings and
      rollbacks -- the trial boots number at most what the start allows, a budget for each stalled
      report, and threshold times budget for each missed report that wipes out a good boot without
      giving the candidate up, and for each staging that commits. */
  lemma TrialBootsBounded(pf: Platform, tr: Stage.Trust, st: State, events: seq<Event>, t: int, m: int)
    requires Limited(st.sys, t, m)
    ensures Limited(Run(pf, tr, st, events).sys, t, m)
    ensures TrialBoots(pf, tr, st, events) + Potential(Run(pf, tr, st, events).sys)
      <= Potential(st.sys) + m * Stalls(pf, tr, st, events) + t * m * Restarts(pf, tr, st, events)
  {
    Ledger(pf, tr, st, events, t, m, t * m);
    TimesIs(Stalls(pf, tr, st, events), m);
    TimesIs(Restarts(pf, tr, st, events), t * m);
  }

  /** So a candidate is decided within threshold times budget trial boots, whatever else happens, if
      no good boot of it is wiped out, no good report of it is torn, no missed report finds the
      boot-state gone, and nothing else is staged. Missed reports are free until one boot was good. */
  lemma DecidedInTime(pf: Platform, tr: Stage.Trust, st: State, events: seq<Event>, t: int, m: int)
    requires Limited(st.sys, t, m)
    requires Stalls(pf, tr, st, events) == 0 && Restarts(pf, tr, st, events) == 0
    ensures TrialBoots(pf, tr, st, events) <= t * m
  {
    TrialBootsBounded(pf, tr, st, events, t, m);
    PotentialBounds(st.sys, t, m);
    PotentialBounds(Run(pf, tr, st, events).sys, t, m);
  }

  /** A staging that completes puts its candidate on trial, within the bounds. */
  lemma StagingEntersTrial(tr: Stage.Trust, s: Sys, man: Stage.Manifest, dl: Stage.Delivery, host: Stage.Host)
    requires s.wal.primary.Some? && Stage.Completes(tr, s, man, dl, host) && man.version != ""
    requires s.wal.primary.value.maxAttempts >= 1 && s.wal.primary.value.stableThreshold >= 1
    ensures var u := Exec(s, Stage.FetchPlan(tr, s, man, dl, host));
      Trials.OnTrial(u) && Trials.Bounded(u) && u.boot.value.attempts == s.wal.primary.value.maxAttempts
  {
    var fetch, fin := Stage.ArtifactPlan(tr, man, dl, host), Stage.FinalPlan(tr, s, man, dl, host);
    ExecAppend(s, fetch, fin);
    Stage.CommitCut(Exec(s, fetch), Stage.StagedWal(s.wal.primary.value, man, host).value, man, |fin|);
  }

  // --- A candidate that is never decided ---

  /** The candidate has one good boot and the whole budget; the platform starts it from the trial
      slot, and another system from the active one. */
  ghost predicate Flaps(pf: Platform, st: State, pending: string, hash: string) {
    && var s := st.sys;
    && Trials.OnTrial(s)
    && var w := s.wal.primary.value;
    && w.stableBoots == 1 && w.stableThreshold >= 2 && w.maxAttempts >= 1
    && w.bootAttempts == w.maxAttempts == s.boot.value.attempts
    && w.pending == pending && w.pendingHash == hash
    && Chainloads(pf, s.disk, s.counter, Os(Active)) && Chainloads(pf, s.disk, s.counter, Os(Next))
    && !BootSuccess.Matches(pf.identity(s.disk.kcImage.active.value), pending, hash)
    && BootSuccess.Matches(pf.identity(s.disk.kcImage.next.value), pending, hash)
  }

  /** The user picks the active slot, the daemon reports, the next boot tries the candidate, the
      daemon reports. */
  function Round(hasStore: bool, full: nat): seq<Event> {
    [Pick(Os(Active)), Report(true, hasStore, full), Reboot(false), Report(true, hasStore, full)]
  }

  function Rounds(n: nat, hasStore: bool, full: nat): seq<Event> {
    if n == 0 then [] else Rounds(n - 1, hasStore, full) + Round(hasStore, full)
  }

  lemma PickedActive(pf: Platform, tr: Stage.Trust, st: State, pending: string, hash: string, hasStore: bool, full: nat)
    requires Flaps(pf, st, pending, hash) && full >= 3
    ensures var a := Step(pf, tr, st, Pick(Os(Active)));
      var b := Step(pf, tr, a, Report(true, hasStore, full));
      var w := st.sys.wal.primary.value;
      b.sys == Sys(st.sys.disk, WalFiles(Some(w.(stableBoots := 0)), Some(w.(stableBoots := 0))), st.sys.boot,
                   st.sys.counter, st.sys.log + [MissedBoot])
  {
    var s, w := st.sys, st.sys.wal.primary.value;
    var id := pf.identity(s.disk.kcImage.active.value);
    assert Step(pf, tr, st, Pick(Os(Active))) == State(s, Some(id));
    var x := BootSuccess.Missed(w, s.boot);
    assert x == w.(stableBoots := 0) && BootStateOf(x) == s.boot.value;
    Trials.SaveCut(s, BootStateOf(x), x, MissedBoot, [], full);
    assert BootSuccess.Plan(s, true, id, hasStore) == [SetBoot(BootStateOf(x))] + SavePlan(x, MissedBoot) + [];
  }

  lemma TriedNext(pf: Platform, tr: Stage.Trust, st: State, hasStore: bool, full: nat)
    requires Trials.OnTrial(st.sys) && st.sys.boot.value.attempts >= 1 && full >= 3
    requires var w := st.sys.wal.primary.value; 0 <= w.stableBoots && w.stableBoots + 1 < w.stableThreshold
    requires Chainloads(pf, st.sys.disk, st.sys.counter, Os(Next))
    requires BootSuccess.Confirmed(st.sys.wal.primary.value, pf.identity(st.sys.disk.kcImage.next.value))
    ensures var a := Step(pf, tr, st, Reboot(false));
      var b := Step(pf, tr, a, Report(true, hasStore, full));
      var g := Switched(st.sys.wal.primary.value);
      && b.sys.disk == st.sys.disk && b.sys.counter == st.sys.counter
      && b.sys.wal == WalFiles(Some(g), Some(g)) && b.sys.boot == Some(BootStateOf(g))
  {
    var s, w := st.sys, st.sys.wal.primary.value;
    var id := pf.identity(s.disk.kcImage.next.value);
    var u := Charged(s, false);
    TrialChoice(pf, u.disk, u.counter);
    assert Step(pf, tr, st, Reboot(false)) == State(u, Some(id));
    var g := GoodBoot(w, true);
    Trials.SaveCut(u, BootStateOf(g), g, Confirmation(id), [], full);
    assert BootSuccess.Plan(u, true, id, hasStore) == [SetBoot(BootStateOf(g))] + SavePlan(g, Confirmation(id)) + [];
  }

  lemma RoundKeeps(pf: Platform, tr: Stage.Trust, st: State, pending: string, hash: string, hasStore: bool, full: nat,
                   after: State)
    requires Flaps(pf, st, pending, hash) && full >= 3
    requires var r := Round(hasStore, full);
      after == Step(pf, tr, Step(pf, tr, Step(pf, tr, Step(pf, tr, st, r[0]), r[1]), r[2]), r[3])
    ensures Flaps(pf, after, pending, hash)
  {
    PickedActive(pf, tr, st, pending, hash, hasStore, full);
    var b := Step(pf, tr, Step(pf, tr, st, Pick(Os(Active))), Report(true, hasStore, full));
    TriedNext(pf, tr, b, hasStore, full);
  }

  lemma NextRound(pf: Platform, tr: Stage.Trust, st: State, pending: string, hash: string, hasStore: bool, full: nat,
                  before: seq<Event>)
    requires Flaps(pf, Run(pf, tr, st, before), pending, hash) && full >= 3
    ensures Flaps(pf, Run(pf, tr, st, before + Round(hasStore, full)), pending, hash)
  {
    RunFour(pf, tr, st, before, Round(hasStore, full));
    RoundKeeps(pf, tr, Run(pf, tr, st, before), pending, hash, hasStore, full,
               Run(pf, tr, st, before + Round(hasStore, full)));
  }

  /** It goes on for any number of rounds, and the loader's budget is whole after each. */
  lemma {:induction false} ChooserNeverDecides(pf: Platform, tr: Stage.Trust, st: State, pending: string, hash: string,
                                               hasStore: bool, full: nat, n: nat)
    requires Flaps(pf, st, pending, hash) && full >= 3
    ensures Flaps(pf, Run(pf, tr, st, Rounds(n, hasStore, full)), pending, hash)
    decreases n
  {
    if n > 0 {
      ChooserNeverDecides(pf, tr, st, pending, hash, hasStore, full, n - 1);
      NextRound(pf, tr, st, pending, hash, hasStore, full, Rounds(n - 1, hasStore, full));
    }
  }

  lemma RunFour(pf: Platform, tr: Stage.Trust, st: State, a: seq<Event>, r: seq<Event>)
    requires |r| == 4
    ensures Run(pf, tr, st, a + r)
      == Step(pf, tr, Step(pf, tr, Step(pf, tr, Step(pf, tr, Run(pf, tr, st, a), r[0]), r[1]), r[2]), r[3])
  {
    var a1, a2, a3 := a + [r[0]], a + [r[0]] + [r[1]], a + [r[0]] + [r[1]] + [r[2]];
    assert a + r == a3 + [r[3]];
    RunOneMore(pf, tr, st, a3, r[3]);
    RunOneMore(pf, tr, st, a2, r[2]);
    RunOneMore(pf, tr, st, a1, r[1]);
    RunOneMore(pf, tr, st, a, r[0]);
  }
}
