/** Where a report of BootSuccess that is not cut leaves the device, field by field
    (internal/otad/otad.go:86-210). A promotion's end is in `Promotions`. */
module ReportEnds {
  import opened Common
  import opened Versions
  import opened DeploymentWal
  import opened Device
  import opened Loader
  import opened Promotions
  import opened Runs
  import BootSuccess
  import PromoteSlots
  import PromotionSafety
  import RollForward
  import Stage
  import StagedSlots
  import Trials

  /** The attempts left after a boot that was not the candidate's: what the loader has left if that
      can be read, nothing if the loader was sent back to active, and otherwise one less. */
  function Remaining(w: Wal, boot: Option<BootState>): int {
    match boot
    case Some(BootState(TargetActive, _, _)) => 0
    case Some(BootState(TargetNext, true, attempts)) =>
      if attempts <= w.bootAttempts then attempts else w.bootAttempts - 1
    case _ => w.bootAttempts - 1
  }

  /** The staged slots are empty, the others as they were. */
  ghost predicate CleanedUp(d: Disk, e: Disk) {
    forall f: File, x: Slot :: e.Content(f, x) == if x == Next then None else d.Content(f, x)
  }

  predicate Saved(t: Sys, x: Wal) { t.wal == WalFiles(Some(x), Some(x)) }

  /** The record of a candidate that was given up: back to the last good release, or to the one
      before, with nothing pending. */
  predicate GivenUp(w: Wal, x: Wal) {
    && x.pending == "" && x.bootAttempts == 0 && x.stableBoots == 0 && x.counter == w.counter
    && x.lastKnownGood == w.lastKnownGood && SameLimits(w, x)
    && x.kcPending == 0 && x.kcCurrent == (if KcOf(x.current).Some? then KcOf(x.current).value else w.kcCurrent)
    && x.current == if w.lastKnownGood != "" then w.lastKnownGood
                    else if w.rollback != "" then w.rollback else w.current
  }

  lemma RollsBack(w: Wal, u: Wal)
    requires u == w.(stableBoots := 0, bootAttempts := u.bootAttempts)
    ensures GivenUp(w, RolledBack(u)) && BootStateOf(RolledBack(u)) == BOOT_ACTIVE
  {
  }

  lemma MissedRecord(w: Wal, boot: Option<BootState>)
    requires w.HasPending()
    ensures var x, left := BootSuccess.Missed(w, boot), Remaining(w, boot);
      && (BootSuccess.Exhausted(w, boot) <==> left <= 0)
      && if left <= 0 then GivenUp(w, x) && BootStateOf(x) == BOOT_ACTIVE
         else x == w.(stableBoots := 0, bootAttempts := left) && BootStateOf(x) == BootState(TargetNext, true, left)
  {
    if BootSuccess.Exhausted(w, boot) { RollsBack(w, BootSuccess.Reconciled(w, boot)); }
  }

  lemma MissedEnds(s: Sys, w: Wal, id: Identity, hasStore: bool)
    requires s.wal.primary == Some(w) && w.HasPending() && !IsCandidate(id, w.pending, w.pendingHash)
    ensures var t, left := Exec(s, BootSuccess.Plan(s, true, id, hasStore)), Remaining(w, s.boot);
      && t.wal.primary.Some? && Saved(t, t.wal.primary.value)
      && t.counter == s.counter && t.log == s.log + [MissedBoot]
      && var x := t.wal.primary.value;
      if left <= 0 then GivenUp(w, x) && t.boot == Some(BOOT_ACTIVE) && CleanedUp(s.disk, t.disk)
      else x == w.(stableBoots := 0, bootAttempts := left) && t.disk == s.disk
           && t.boot == Some(BootState(TargetNext, true, left))
  {
    ConfirmedMeans(id, w.pending, w.pendingHash);
    MissedRecord(w, s.boot);
    var m := BootSuccess.Missed(w, s.boot);
    var plan := BootSuccess.MissedPlan(s, w);
    if BootSuccess.Exhausted(w, s.boot) {
      Trials.SaveThenClean(s, BootStateOf(m), m, MissedBoot, |plan|);
      forall f: File, x: Slot { StagedSlots.CleanedKeeps(s.disk, f, x); }
    } else {
      Trials.SaveCut(s, BootStateOf(m), m, MissedBoot, [], |plan|);
    }
  }

  /** With no candidate pending: the counter is brought up to the record, the loader sent to active,
      the staged slots emptied. */
  lemma StableEnds(s: Sys, w: Wal, healthy: bool, id: Identity, hasStore: bool)
    requires s.wal.primary == Some(w) && !w.HasPending()
    ensures var t := Exec(s, BootSuccess.Plan(s, healthy, id, hasStore));
      && t.wal == s.wal && t.log == s.log && t.boot == Some(BOOT_ACTIVE) && CleanedUp(s.disk, t.disk)
      && t.counter == if hasStore then Max(s.counter, w.counter) else s.counter
  {
    RollForward.StableCut(s, w, hasStore, |BootSuccess.StablePlan(s, w, hasStore)|);
    forall f: File, x: Slot { StagedSlots.CleanedKeeps(s.disk, f, x); }
  }

  /** An unhealthy boot of a candidate is not reported at all. */
  lemma UnhealthyEnds(s: Sys, w: Wal, id: Identity, hasStore: bool)
    requires s.wal.primary == Some(w) && w.HasPending()
    ensures Exec(s, BootSuccess.Plan(s, false, id, hasStore)) == s
  {
  }

  /** The explicit rollback. */
  lemma RollbackEnds(s: Sys, w: Wal)
    requires s.wal.primary == Some(w)
    ensures var t := Exec(s, BootSuccess.RollbackPlan(s));
      && t.wal.primary.Some? && Saved(t, t.wal.primary.value) && GivenUp(w, t.wal.primary.value)
      && t.boot == Some(BOOT_ACTIVE) && t.disk == s.disk && t.counter == s.counter
  {
    var x := RolledBack(w);
    assert BootSuccess.RollbackPlan(s) == [SetBoot(BootStateOf(x))] + SavePlan(x, RolledBackByHand) + [];
    Trials.SaveCut(s, BootStateOf(x), x, RolledBackByHand, [], |BootSuccess.RollbackPlan(s)|);
  }

  // --- The promotion that staging makes first ---

  /** Staging first promotes the candidate if it is what runs and has had a good boot, and refuses to
      start when the slots of such a candidate are incomplete. */
  lemma RunningEnds(s: Sys, w: Wal, id: Identity)
    requires s.wal.primary == Some(w)
    ensures var mine := w.pending != "" && w.stableBoots >= 1 && IsCandidate(id, w.pending, w.pendingHash);
      var t := Exec(s, BootSuccess.RunningPlan(s, id));
      && (BootSuccess.RunningRefused(s, id) <==> mine && !PromoteSlots.Preflight(s.disk))
      && if mine && PromoteSlots.Preflight(s.disk)
         then t.log == s.log + [Promotion(ByStage, w.pending, w.pendingHash, id)] && t.boot == Some(BOOT_ACTIVE)
              && t.counter == s.counter && t.wal.primary.Some? && Saved(t, t.wal.primary.value)
              && t.wal.primary.value.pending == "" && t.wal.primary.value.lastKnownGood == w.current
              && t.wal.primary.value.current == w.current && t.wal.primary.value.counter == w.kcCurrent
         else t == s
  {
    ConfirmedMeans(id, w.pending, w.pendingHash);
    if BootSuccess.PromotesRunning(s, id) && PromoteSlots.Preflight(s.disk) {
      var g, c := Promoted(w), Promotion(ByStage, w.pending, w.pendingHash, id);
      var slots, tail := PromoteSlots.Plan(s.disk), RollForward.CommitTail(g, c, false);
      RunningIsSlotsThenTail(s, id);
      var n := PromotionSafety.CutIsHalfway(s, |slots|);
      ExecAppend(s, slots, tail);
      RollForward.TailCut(Exec(s, slots), g, c, false, |tail|);
    }
  }

  /** A damaged primary copy of the WAL makes no difference: every routine writes what it would write
      with the backup copy in its place. */
  lemma BackupStandsIn(tr: Stage.Trust, s: Sys, w: Wal, other: Option<Wal>, healthy: bool, id: Identity, hasStore: bool,
                       man: Stage.Manifest, host: Stage.Host)
    ensures var damaged, sound := s.(wal := WalFiles(None, Some(w))), s.(wal := WalFiles(Some(w), other));
      && BootSuccess.Plan(damaged, healthy, id, hasStore) == BootSuccess.Plan(sound, healthy, id, hasStore)
      && BootSuccess.RollbackPlan(damaged) == BootSuccess.RollbackPlan(sound)
      && BootSuccess.RunningPlan(damaged, id) == BootSuccess.RunningPlan(sound, id)
      && (BootSuccess.RunningRefused(damaged, id) <==> BootSuccess.RunningRefused(sound, id))
      && (Stage.Admitted(damaged, man, host) <==> Stage.Admitted(sound, man, host))
  {
  }

  // --- What the loader is asked for ---

  /** The boot-state the daemon writes for a record, and the cascade that the loader takes from
      it. */
  lemma AskedFor(w: Wal)
    ensures BootStateOf(w) ==
      if w.pending == "" then BootState(TargetActive, false, 0)
      else if w.bootAttempts <= 0 && w.lastKnownGood == "" then BootState(TargetRecovery, false, 0)
      else BootState(TargetNext, true, w.bootAttempts)
    ensures CascadeOf(Some(BootStateOf(w)), false) ==
      if w.pending == "" then StableCascade
      else if w.bootAttempts > 0 then TrialCascade
      else if w.lastKnownGood == "" then RecoveryCascade else StableCascade
    ensures CascadeOf(Some(BootStateOf(w)), true) == RecoveryCascade == CascadeOf(None, true)
    ensures CascadeOf(None, false) == StableCascade
  {
  }
}
