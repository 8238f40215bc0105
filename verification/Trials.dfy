/** How long a candidate can stay on trial: the loader's budget and the daemon's count of
    good boots together, over trial boots cut anywhere. */
module Trials {
  import opened Common
  import opened DeploymentWal
  import opened Device
  import opened Loader
  import opened BootSuccess
  import opened RollForward
  import PromoteSlots

  /** What happens after the loader has charged a trial boot: which system comes up, whether
      it is healthy, and after how many writes its BootSuccess ends (0: it never reports). */
  datatype Visit = Visit(id: Identity, healthy: bool, hasStore: bool, writes: nat)

  /** One trial boot: the loader's charge, then BootSuccess. */
  function After(s: Sys, v: Visit): Sys {
    var u := Charged(s, false);
    Cut(u, Plan(u, v.healthy, v.id, v.hasStore), v.writes)
  }

  /** A candidate is pending and the loader has been told to try it. */
  predicate OnTrial(s: Sys) {
    && s.wal.primary.Some? && s.wal.primary.value.HasPending()
    && s.boot.Some? && s.boot.value.target == TargetNext && s.boot.value.trial
  }

  /** The bounds the daemon and the loader keep. */
  predicate Bounded(s: Sys)
    requires OnTrial(s)
  {
    var w := s.wal.primary.value;
    && 0 <= w.stableBoots < w.stableThreshold
    && 0 <= s.boot.value.attempts <= w.maxAttempts && w.maxAttempts >= 1
  }

  /** (threshold - stable boots, attempts left), read as one number. */
  function Rank(s: Sys): int
    requires OnTrial(s)
  {
    var w := s.wal.primary.value;
    (w.stableThreshold - w.stableBoots - 1) * w.maxAttempts + s.boot.value.attempts
  }

  /** The two trial boots that win nothing: a good boot whose refreshed budget reached the
      boot-state but not the WAL, and a missed boot that wipes out earlier good ones. */
  predicate Stalls(s: Sys, v: Visit)
    requires OnTrial(s)
  {
    var w := s.wal.primary.value;
    && v.healthy
    && if Confirmed(w, v.id) then !Promotes(w, true) && 1 <= v.writes <= 2
       else v.writes >= 3 && w.stableBoots > 0
  }

  lemma SaveCut(s: Sys, b: BootState, w: Wal, c: Commit, rest: seq<Write>, p: nat)
    ensures var t := Cut(s, [SetBoot(b)] + SavePlan(w, c) + rest, p);
      && (p == 0 ==> t == s)
      && (p == 1 ==> t == s.(boot := Some(b)))
      && (p == 2 ==> t == s.(boot := Some(b), wal := s.wal.(backup := Some(w))))
      && (p >= 3 ==> t == Cut(s.(boot := Some(b), wal := WalFiles(Some(w), Some(w)), log := s.log + [c]), rest, p - 3))
  {
    var s1 := s.(boot := Some(b));
    var s2 := s1.(wal := s1.wal.(backup := Some(w)));
    assert [SetBoot(b)] + SavePlan(w, c) + rest == [SetBoot(b)] + ([SaveBackup(w)] + ([SavePrimary(w, c)] + rest));
    CutCons(s, SetBoot(b), [SaveBackup(w)] + ([SavePrimary(w, c)] + rest), p);
    if p >= 1 {
      CutCons(s1, SaveBackup(w), [SavePrimary(w, c)] + rest, p - 1);
      if p >= 2 { CutCons(s2, SavePrimary(w, c), rest, p - 2); }
    }
  }

  lemma MissedCut(u: Sys, w: Wal, p: nat)
    requires w.HasPending()
    ensures var m, t := Missed(w, u.boot), Cut(u, MissedPlan(u, w), p);
      && t.boot == (if p >= 1 then Some(BootStateOf(m)) else u.boot)
      && t.wal.backup == (if p >= 2 then Some(m) else u.wal.backup)
      && t.wal.primary == (if p >= 3 then Some(m) else u.wal.primary)
      && t.disk == (if p >= 3 && Exhausted(w, u.boot) then Cleaned(u.disk, p - 3) else u.disk)
      && t.counter == u.counter
  {
    var m := Missed(w, u.boot);
    if Exhausted(w, u.boot) {
      SaveThenClean(u, BootStateOf(m), m, MissedBoot, p);
    } else {
      SaveCut(u, BootStateOf(m), m, MissedBoot, [], p);
    }
  }

  lemma SaveThenClean(s: Sys, b: BootState, w: Wal, c: Commit, p: nat)
    ensures var t := Cut(s, [SetBoot(b)] + SavePlan(w, c) + CLEANUP, p);
      && t.boot == (if p >= 1 then Some(b) else s.boot)
      && t.wal.backup == (if p >= 2 then Some(w) else s.wal.backup)
      && t.wal.primary == (if p >= 3 then Some(w) else s.wal.primary)
      && t.disk == (if p >= 3 then Cleaned(s.disk, p - 3) else s.disk)
      && t.counter == s.counter && t.log == (if p >= 3 then s.log + [c] else s.log)
  {
    SaveCut(s, b, w, c, CLEANUP, p);
    if p >= 3 {
      CleanThenArm(s.(boot := Some(b), wal := WalFiles(Some(w), Some(w)), log := s.log + [c]), w, false, p - 3);
      assert CLEANUP + [] == CLEANUP;
    }
  }

  lemma GoodCut(u: Sys, w: Wal, id: Identity, p: nat)
    ensures var g, t := GoodBoot(w, true), Cut(u, GoodBootPlan(w, id), p);
      && t.boot == (if p >= 1 then Some(BootStateOf(g)) else u.boot)
      && t.wal.primary == (if p >= 3 then Some(g) else u.wal.primary)
      && t.disk == u.disk && t.counter == u.counter
      && (p == 1 ==> t == u.(boot := Some(BootStateOf(g))))
  {
    var g := GoodBoot(w, true);
    SaveCut(u, BootStateOf(g), g, Confirmation(id), [], p);
    assert GoodBootPlan(w, id) == [SetBoot(BootStateOf(g))] + SavePlan(g, Confirmation(id)) + [];
  }

  /** A cut promotion leaves the boot-state alone until it makes the candidate active. */
  lemma PromotionCut(u: Sys, w: Wal, v: Visit)
    requires u.wal.primary == Some(w) && Promotes(w, true) && v.healthy && Confirmed(w, v.id)
    requires OnTrial(Cut(u, Plan(u, true, v.id, v.hasStore), v.writes))
    ensures var t := Cut(u, Plan(u, true, v.id, v.hasStore), v.writes);
      t.boot == u.boot && t.wal == u.wal
  {
    if PromoteSlots.Preflight(u.disk) {
      PromotionIsSlotsThenTail(u, w, v.id, v.hasStore);
      SlotsThenTailCut(u, GoodBoot(w, true), Promotion(ByBootSuccess, w.pending, w.pendingHash, v.id), v.hasStore,
        v.writes);
    }
  }

  lemma SlotsThenTailCut(u: Sys, g: Wal, c: Commit, hasStore: bool, p: nat)
    requires PromoteSlots.Preflight(u.disk)
    ensures var t := Cut(u, PromoteSlots.Plan(u.disk) + CommitTail(g, c, hasStore), p);
      (t.boot == u.boot && t.wal == u.wal) || t.boot == Some(BOOT_ACTIVE)
  {
    var slots := PromoteSlots.Plan(u.disk);
    var n := PromotionSafety.CutIsHalfway(u, Min(p, |slots|));
    ThenTail(u, slots, PromotionSafety.Halfway(u.disk, n), g, c, hasStore, p);
  }

  lemma RankLess(left: int, m: int, a: int)
    requires 0 < a
    ensures (left - 1) * m + m < left * m + a
  {
  }

  lemma RankMore(left: int, k: int, m: int, a: int, b: int)
    requires 0 < a <= m && k >= 1 && b >= 0
    ensures (left + k) * m + b >= left * m + a
  {
  }

  /** A trial boot that leaves the candidate on trial lowers the rank -- exactly when it is
      neither of the two stalling ones. */
  lemma RankFalls(s: Sys, v: Visit)
    requires OnTrial(s) && Bounded(s) && s.boot.value.attempts > 0
    requires OnTrial(After(s, v))
    ensures Bounded(After(s, v)) && SameLimits(s, After(s, v))
    ensures Rank(After(s, v)) < Rank(s) <==> !Stalls(s, v)
  {
    var w, u := s.wal.primary.value, Charged(s, false);
    if v.healthy {
      if !Confirmed(w, v.id) {
        RankAfterMissed(s, v);
      } else if Promotes(w, true) {
        PromotionCut(u, w, v);
      } else {
        GoodCut(u, w, v.id, v.writes);
        RankLess(w.stableThreshold - w.stableBoots - 1, w.maxAttempts, s.boot.value.attempts);
      }
    }
  }

  predicate SameLimits(s: Sys, t: Sys)
    requires OnTrial(s) && OnTrial(t)
  {
    && t.wal.primary.value.maxAttempts == s.wal.primary.value.maxAttempts
    && t.wal.primary.value.stableThreshold == s.wal.primary.value.stableThreshold
  }

  lemma RankAfterMissed(s: Sys, v: Visit)
    requires OnTrial(s) && Bounded(s) && s.boot.value.attempts > 0
    requires v.healthy && !Confirmed(s.wal.primary.value, v.id) && OnTrial(After(s, v))
    ensures Bounded(After(s, v)) && SameLimits(s, After(s, v))
    ensures Rank(After(s, v)) < Rank(s) <==> !Stalls(s, v)
  {
    var w, u, t := s.wal.primary.value, Charged(s, false), After(s, v);
    var a, b := s.boot.value.attempts, t.boot.value.attempts;
    MissedCut(u, w, v.writes);
    assert 0 <= b < a;
    if v.writes >= 3 && w.stableBoots > 0 {
      RankMore(w.stableThreshold - w.stableBoots - 1, w.stableBoots, w.maxAttempts, a, b);
    }
  }

  /** A sequence of trial boots, each of which finds the candidate still on trial with budget
      left, and none of which stalls. */
  ghost predicate Trying(s: Sys, visits: seq<Visit>)
    decreases |visits|
  {
    visits == [] ||
    (OnTrial(s) && s.boot.value.attempts > 0 && !Stalls(s, visits[0]) && Trying(After(s, visits[0]), visits[1..]))
  }

  /** Such a sequence is no longer than threshold times attempts. */
  lemma {:induction false} TrialsBounded(s: Sys, visits: seq<Visit>)
    requires OnTrial(s) && Bounded(s) && Trying(s, visits)
    ensures |visits| <= Rank(s) <= s.wal.primary.value.stableThreshold * s.wal.primary.value.maxAttempts
    decreases |visits|
  {
    var w := s.wal.primary.value;
    RankTop(w.stableThreshold, w.stableBoots, w.maxAttempts, s.boot.value.attempts);
    if |visits| >= 2 {
      assert visits[1..][0] == visits[1];
      RankFalls(s, visits[0]);
      TrialsBounded(After(s, visits[0]), visits[1..]);
    }
  }

  lemma RankTop(threshold: int, stable: int, m: int, a: int)
    requires 0 <= stable < threshold && m >= 1 && 0 <= a <= m
    ensures a <= (threshold - stable - 1) * m + a <= threshold * m
  {
  }

  // --- The unrestricted bound is false ---

  /** Power lost right after the boot-state write of a good boot: nothing has moved, so this
      can go on for ever. */
  lemma CutGoodBootIsNoProgress(s: Sys, v: Visit)
    requires OnTrial(s) && Bounded(s) && s.boot.value.attempts == s.wal.primary.value.maxAttempts
    requires s.wal.primary.value.maxAttempts >= 1
    requires v.healthy && v.writes == 1
    requires Confirmed(s.wal.primary.value, v.id) && !Promotes(s.wal.primary.value, true)
    ensures After(s, v) == s
  {
    GoodCut(Charged(s, false), s.wal.primary.value, v.id, 1);
  }

  // --- The budget ---

  /** A BootSuccess that does not confirm the candidate never raises the loader's budget. */
  lemma MissedNeverRaisesBudget(s: Sys, v: Visit)
    requires OnTrial(s) && !Confirmed(s.wal.primary.value, v.id)
    requires s.boot.value.attempts >= 0
    ensures var t := Cut(s, Plan(s, v.healthy, v.id, v.hasStore), v.writes);
      && t.boot.Some?
      && (t.boot.value == BootState(TargetActive, false, 0) || t.boot.value == BootState(TargetRecovery, false, 0)
          || (t.boot.value.target == TargetNext && t.boot.value.attempts <= s.boot.value.attempts))
  {
    if v.healthy { MissedCut(s, s.wal.primary.value, v.writes); }
  }

  /** Once the budget is spent the loader leaves the trial cascade, and the first healthy boot
      that is not the candidate's returns the WAL to the last known good release and the
      boot-state to active, and clears the staged slots. */
  lemma SpentBudgetReturns(s: Sys, v: Visit)
    requires OnTrial(s) && s.boot.value.attempts == 0 && s.wal.primary.value.lastKnownGood != ""
    requires v.healthy && !Confirmed(s.wal.primary.value, v.id)
    requires v.writes >= |Plan(s, true, v.id, v.hasStore)|
    ensures CascadeOf(s.boot, false) == StableCascade && Charged(s, false) == s
    ensures var t := After(s, v);
      && t.boot == Some(BOOT_ACTIVE) && t.disk == Cleaned(s.disk, 4)
      && t.wal.primary.Some? && t.wal == WalFiles(t.wal.primary, t.wal.primary)
      && !t.wal.primary.value.HasPending()
      && t.wal.primary.value.current == s.wal.primary.value.lastKnownGood == t.wal.primary.value.lastKnownGood
      && t.wal.primary.value.counter == s.wal.primary.value.counter && t.counter == s.counter
  {
    var w := s.wal.primary.value;
    assert Exhausted(w, s.boot) && MissedPlan(s, w) == Plan(s, true, v.id, v.hasStore);
    MissedCut(s, w, v.writes);
    CleanedAll(s.disk, v.writes - 3);
  }

  lemma CleanedAll(d: Disk, p: int)
    requires p >= 4
    ensures Cleaned(d, p) == Cleaned(d, 4)
  {
  }
}
