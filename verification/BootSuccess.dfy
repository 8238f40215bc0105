/** internal/otad/otad.go: what the daemon does once the system is up -- confirm, promote,
    charge or abandon the candidate -- and the explicit rollback; and the promotion of the
    running candidate that staging makes first (promote.go). */
module BootSuccess {
  import opened Common
  import opened Versions
  import opened DeploymentWal
  import opened Device
  import Plans
  import PromoteSlots

  /** Root hash and release label both match. */
  predicate Matches(id: Identity, version: string, hash: string) {
    id.hash != "" && hash != "" && id.hash == hash && id.version != "" && SameRelease(id.version, version)
  }

  /** The running system is the candidate. */
  predicate Confirmed(w: Wal, id: Identity) { Matches(id, w.pending, w.pendingHash) }

  /** The WAL's budget brought in line with the loader's, or charged once when the two
      cannot be compared. */
  function Reconciled(w: Wal, boot: Option<BootState>): Wal {
    var u := w.(stableBoots := 0);
    if boot.Some? && boot.value.target == TargetActive then u.(bootAttempts := 0)
    else if boot.Some? && boot.value.target == TargetNext && boot.value.trial
            && boot.value.attempts <= w.bootAttempts then u.(bootAttempts := boot.value.attempts)
    else Spent(u)
  }

  predicate Exhausted(w: Wal, boot: Option<BootState>) { Reconciled(w, boot).bootAttempts <= 0 }

  /** The WAL after a boot that was not the candidate's. */
  function Missed(w: Wal, boot: Option<BootState>): Wal {
    if Exhausted(w, boot) then RolledBack(Reconciled(w, boot)) else Reconciled(w, boot)
  }

  // --- The plans ---

  function StablePlan(s: Sys, w: Wal, hasStore: bool): seq<Write> {
    (if hasStore && w.counter > 0 && s.counter < w.counter then [Arm(w.counter)] else [])
    + [SetBoot(BootStateOf(w))] + CLEANUP
  }

  function MissedPlan(s: Sys, w: Wal): seq<Write> {
    [SetBoot(BootStateOf(Missed(w, s.boot)))] + SavePlan(Missed(w, s.boot), MissedBoot)
    + (if Exhausted(w, s.boot) then CLEANUP else [])
  }

  /** Slots first, then the boot-state, then the WAL: the staged pair stays on disk until
      both state files have committed. */
  function PromotionPlan(s: Sys, w: Wal, path: Path, id: Identity): seq<Write> {
    PromoteSlots.Plan(s.disk) + [SetBoot(BOOT_ACTIVE)]
    + SavePlan(w, Promotion(path, Pending(s), PendingHash(s), id)) + CLEANUP
  }

  function Pending(s: Sys): string { if Load(s.wal).Some? then Load(s.wal).value.pending else "" }

  function PendingHash(s: Sys): string { if Load(s.wal).Some? then Load(s.wal).value.pendingHash else "" }

  function GoodBootPlan(w: Wal, id: Identity): seq<Write> {
    [SetBoot(BootStateOf(GoodBoot(w, true)))] + SavePlan(GoodBoot(w, true), Confirmation(id))
  }

  function Plan(s: Sys, healthy: bool, id: Identity, hasStore: bool): seq<Write> {
    if Load(s.wal).None? then []
    else
      var w := Load(s.wal).value;
      if !w.HasPending() then StablePlan(s, w, hasStore)
      else if !healthy then []
      else if !Confirmed(w, id) then MissedPlan(s, w)
      else if !Promotes(w, true) then GoodBootPlan(w, id)
      else if !PromoteSlots.Preflight(s.disk) then []
      else
        var g := GoodBoot(w, true);
        PromotionPlan(s, g, ByBootSuccess, id) + (if hasStore then [Arm(g.counter)] else [])
  }

  /** Staging first promotes a candidate that is running and had a good boot. */
  predicate PromotesRunning(s: Sys, id: Identity) {
    && Load(s.wal).Some?
    && var w := Load(s.wal).value;
    && w.HasPending() && w.stableBoots >= 1 && Confirmed(w, id)
  }

  function RunningPlan(s: Sys, id: Identity): seq<Write> {
    if !PromotesRunning(s, id) || !PromoteSlots.Preflight(s.disk) then []
    else PromotionPlan(s, Promoted(Load(s.wal).value), ByStage, id)
  }

  predicate RunningRefused(s: Sys, id: Identity) {
    Load(s.wal).None? || (PromotesRunning(s, id) && !PromoteSlots.Preflight(s.disk))
  }

  function RollbackPlan(s: Sys): seq<Write> {
    if Load(s.wal).None? then []
    else
      var w := RolledBack(Load(s.wal).value);
      [SetBoot(BootStateOf(w))] + SavePlan(w, RolledBackByHand)
  }

  // --- The routines ---

  datatype Report =
    | Interrupted | NoWal | Unhealthy | Incomplete | StableBoot
    | DidNotBoot(exhausted: bool) | GoodBootRecorded(stable: int) | PromotedTo(counter: nat)

  method SetBootAndSave(m: Machine, b: BootState, w: Wal, c: Commit) returns (ok: bool)
    requires m.apply == Apply
    modifies m
    ensures Performed(old(m.state), old(m.power), [SetBoot(b)] + SavePlan(w, c), m.state, m.power, ok)
  {
    ghost var s0, p0 := m.state, m.power;
    ok := m.Do(SetBoot(b));
    if !ok { Plans.PerformedCut(Apply, s0, p0, [SetBoot(b)], SavePlan(w, c), m.state, m.power); return; }
    ghost var s1, p1 := m.state, m.power;
    ok := Save(m, w, c);
    Plans.PerformedThen(Apply, s0, p0, [SetBoot(b)], s1, p1, SavePlan(w, c), m.state, m.power, ok);
  }

  /** The commit both promotion paths share. */
  method CommitPromotion(m: Machine, w: Wal, path: Path, id: Identity) returns (ok: bool)
    requires m.apply == Apply
    modifies m
    ensures !PromoteSlots.Preflight(old(m.state).disk) ==>
      !ok && m.state == old(m.state) && m.power == old(m.power)
    ensures PromoteSlots.Preflight(old(m.state).disk) ==>
      Performed(old(m.state), old(m.power), PromotionPlan(old(m.state), w, path, id), m.state, m.power, ok)
  {
    ghost var s0, p0 := m.state, m.power;
    var commit := Promotion(path, Pending(m.state), PendingHash(m.state), id);
    ghost var slots, states := PromoteSlots.Plan(m.state.disk), [SetBoot(BOOT_ACTIVE)] + SavePlan(w, commit);
    assert slots + states + CLEANUP == PromotionPlan(m.state, w, path, id) by {
      assert slots + states == slots + [SetBoot(BOOT_ACTIVE)] + SavePlan(w, commit);
    }
    ok := PromoteSlots.Promote(m);
    if !ok {
      if PromoteSlots.Preflight(s0.disk) {
        Plans.PerformedCut(Apply, s0, p0, slots, states, m.state, m.power);
        Plans.PerformedCut(Apply, s0, p0, slots + states, CLEANUP, m.state, m.power);
      }
      return;
    }
    ghost var s1, p1 := m.state, m.power;
    ok := SetBootAndSave(m, BOOT_ACTIVE, w, commit);
    Plans.Extend(Apply, s0, p0, slots, s1, p1, states, CLEANUP, m.state, m.power, ok);
    if !ok { return; }
    s1, p1 := m.state, m.power;
    ok := CleanupNextSlots(m);
    Plans.PerformedThen(Apply, s0, p0, slots + states, s1, p1, CLEANUP, m.state, m.power, ok);
  }

  method ConfirmStable(m: Machine, w: Wal, hasStore: bool) returns (ok: bool)
    requires m.apply == Apply
    modifies m
    ensures Performed(old(m.state), old(m.power), StablePlan(old(m.state), w, hasStore), m.state, m.power, ok)
  {
    ghost var s0, p0 := m.state, m.power;
    ghost var armed: seq<Write> := [];
    var b := BootStateOf(w);
    if hasStore && w.counter > 0 {
      if m.state.counter < w.counter {
        armed := [Arm(w.counter)];
        ok := m.Do(Arm(w.counter));
        if !ok {
          Plans.PerformedCut(Apply, s0, p0, armed, [SetBoot(b)], m.state, m.power);
          Plans.PerformedCut(Apply, s0, p0, armed + [SetBoot(b)], CLEANUP, m.state, m.power);
          return;
        }
      }
    }
    ghost var s1, p1 := m.state, m.power;
    ok := m.Do(SetBoot(b));
    Plans.Extend(Apply, s0, p0, armed, s1, p1, [SetBoot(b)], CLEANUP, m.state, m.power, ok);
    if !ok { return; }
    s1, p1 := m.state, m.power;
    ok := CleanupNextSlots(m);
    Plans.PerformedThen(Apply, s0, p0, armed + [SetBoot(b)], s1, p1, CLEANUP, m.state, m.power, ok);
  }

  /** The branch for a boot that was not the candidate's. */
  method ChargeMissedBoot(m: Machine, d: Deployment) returns (exhausted: bool, ok: bool)
    requires d.Record().HasPending()
    requires m.apply == Apply
    modifies m, d
    ensures exhausted == Exhausted(old(d.Record()), old(m.state).boot)
    ensures Performed(old(m.state), old(m.power), MissedPlan(old(m.state), old(d.Record())), m.state, m.power, ok)
  {
    ghost var s0, p0, w := m.state, m.power, d.Record();
    d.stableBoots := 0;
    var reconciled := false;
    if m.state.boot.Some? {
      var bs := m.state.boot.value;
      if bs.target == TargetActive {
        d.bootAttempts := 0;
        reconciled := true;
      } else if bs.target == TargetNext && bs.trial && bs.attempts <= d.bootAttempts {
        d.bootAttempts := bs.attempts;
        reconciled := true;
      }
    }
    exhausted := d.bootAttempts <= 0;
    if !reconciled { exhausted := d.DecrementBootAttempt(); }
    assert d.Record() == Reconciled(w, s0.boot);
    if exhausted { d.Rollback(); }
    var u := d.Record();
    assert u == Missed(w, s0.boot);
    ok := SaveMissed(m, u, exhausted);
  }

  /** The commit of that branch. */
  method SaveMissed(m: Machine, u: Wal, exhausted: bool) returns (ok: bool)
    requires m.apply == Apply
    modifies m
    ensures Performed(old(m.state), old(m.power),
      [SetBoot(BootStateOf(u))] + SavePlan(u, MissedBoot) + (if exhausted then CLEANUP else []), m.state, m.power, ok)
  {
    ghost var s0, p0, commit := m.state, m.power, [SetBoot(BootStateOf(u))] + SavePlan(u, MissedBoot);
    ok := SetBootAndSave(m, BootStateOf(u), u, MissedBoot);
    if !ok || !exhausted {
      PerformedCutOrEnd(s0, p0, commit, if exhausted then CLEANUP else [], m.state, m.power, ok);
      return;
    }
    ghost var s1, p1 := m.state, m.power;
    ok := CleanupNextSlots(m);
    Plans.PerformedThen(Apply, s0, p0, commit, s1, p1, CLEANUP, m.state, m.power, ok);
  }

  lemma PerformedCutOrEnd(s0: Sys, p0: nat, a: seq<Write>, b: seq<Write>, s1: Sys, p1: nat, ok: bool)
    requires Performed(s0, p0, a, s1, p1, ok) && (ok ==> b == [])
    ensures Performed(s0, p0, a + b, s1, p1, ok)
  {
    if ok { assert a + b == a; } else { Plans.PerformedCut(Apply, s0, p0, a, b, s1, p1); }
  }

  /** The plan was carried out, or the power ended inside it. */
  ghost predicate Outcome(s0: Sys, p0: nat, plan: seq<Write>, s1: Sys, p1: nat, r: Report) {
    s1 == Cut(s0, plan, p0) && p1 == p0 - Min(p0, |plan|) && (r == Interrupted <==> |plan| > p0)
  }

  method Confirm(m: Machine, healthy: bool, id: Identity, hasStore: bool) returns (r: Report)
    requires m.apply == Apply
    modifies m
    ensures Outcome(old(m.state), old(m.power), Plan(old(m.state), healthy, id, hasStore), m.state, m.power, r)
    ensures r.PromotedTo? ==> Load(old(m.state).wal).Some? && Promotes(Load(old(m.state).wal).value, true)
                              && Confirmed(Load(old(m.state).wal).value, id)
  {
    ghost var s0, p0 := m.state, m.power;
    var loaded := Load(m.state.wal);
    if loaded.None? { return NoWal; }
    var w := loaded.value;
    if w.pending == "" {
      var ok := ConfirmStable(m, w, hasStore);
      return if ok then StableBoot else Interrupted;
    }
    if !healthy { return Unhealthy; }
    var d := new Deployment(w);
    if !Confirmed(w, id) {
      var exhausted, ok := ChargeMissedBoot(m, d);
      return if ok then DidNotBoot(exhausted) else Interrupted;
    }
    var promoted := d.RecordGoodBoot(true);
    var g := d.Record();
    if promoted {
      if !PromoteSlots.Preflight(m.state.disk) { return Incomplete; }
      var ok := CommitPromotion(m, g, ByBootSuccess, id);
      ghost var commit, arm := PromotionPlan(s0, g, ByBootSuccess, id), if hasStore then [Arm(g.counter)] else [];
      if !ok || !hasStore {
        PerformedCutOrEnd(s0, p0, commit, arm, m.state, m.power, ok);
        return if ok then PromotedTo(g.counter) else Interrupted;
      }
      ghost var s1, p1 := m.state, m.power;
      ok := m.Do(Arm(g.counter));
      Plans.PerformedThen(Apply, s0, p0, commit, s1, p1, arm, m.state, m.power, ok);
      return if ok then PromotedTo(g.counter) else Interrupted;
    }
    var ok := SetBootAndSave(m, BootStateOf(g), g, Confirmation(id));
    return if ok then GoodBootRecorded(g.stableBoots) else Interrupted;
  }

  method PromoteRunningCandidate(m: Machine, id: Identity) returns (ok: bool)
    requires m.apply == Apply
    modifies m
    ensures RunningRefused(old(m.state), id) ==> !ok && m.state == old(m.state) && m.power == old(m.power)
    ensures !RunningRefused(old(m.state), id) ==>
      Performed(old(m.state), old(m.power), RunningPlan(old(m.state), id), m.state, m.power, ok)
  {
    var loaded := Load(m.state.wal);
    if loaded.None? { return false; }
    var w := loaded.value;
    if w.pending == "" || w.stableBoots < 1 { return true; }
    if !Confirmed(w, id) { return true; }
    var d := new Deployment(w);
    d.PromoteRunning();
    ok := CommitPromotion(m, d.Record(), ByStage, id);
  }

  method Rollback(m: Machine) returns (ok: bool)
    requires m.apply == Apply
    modifies m
    ensures Load(old(m.state).wal).Some? ==>
      Performed(old(m.state), old(m.power), RollbackPlan(old(m.state)), m.state, m.power, ok)
    ensures Load(old(m.state).wal).None? ==> !ok && m.state == old(m.state)
  {
    var loaded := Load(m.state.wal);
    if loaded.None? { return false; }
    var d := new Deployment(loaded.value);
    d.Rollback();
    ok := SetBootAndSave(m, BootStateOf(d.Record()), d.Record(), RolledBackByHand);
  }
}
