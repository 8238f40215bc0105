/** Whole runs of a device: boots, BootSuccess, staging and rollback in any order, each cut
    after any number of writes. */
module Runs {
  import opened Common
  import opened Versions
  import opened DeploymentWal
  import opened Device
  import opened Loader
  import BootSuccess
  import PromotionSafety
  import RollForward
  import Stage
  import Trials
  import PromoteSlots

  /** The durable state, and the identity of the OS that is up, if one is. */
  datatype State = State(sys: Sys, running: Option<Identity>)

  datatype Event =
    | Reboot(unlockArmed: bool)
    | Pick(slot: BootSlot)                           // the boot chooser
    | Report(healthy: bool, hasStore: bool, writes: nat)
    | Update(man: Stage.Manifest, dl: Stage.Delivery, chips: seq<string>, kernel: string, firmwareDir: bool,
             writes: nat)
    | UndoByHand(writes: nat)

  function IdentityAt(pf: Platform, d: Disk, b: Option<BootSlot>): Option<Identity> {
    if b.Some? && b.value.Os? && ImageOf(d, b.value).Some?
    then Some(pf.identity(ImageOf(d, b.value).value)) else None
  }

  /** The state after the writes a routine got to; a routine that was cut takes the system
      down with it. */
  function Wrote(st: State, plan: seq<Write>, writes: nat): State {
    State(Cut(st.sys, plan, writes), if writes < |plan| then None else st.running)
  }

  function Step(pf: Platform, tr: Stage.Trust, st: State, e: Event): State {
    match e
    case Reboot(unlockArmed) =>
      var s := Charged(st.sys, unlockArmed);
      State(s, IdentityAt(pf, s.disk, Chosen(pf, s.disk, s.counter, CascadeOf(st.sys.boot, unlockArmed))))
    case Pick(slot) =>
      State(st.sys, IdentityAt(pf, st.sys.disk, Picked(pf, st.sys.disk, st.sys.counter, slot)))
    case Report(healthy, hasStore, writes) =>
      if st.running.None? then st
      else Wrote(st, BootSuccess.Plan(st.sys, healthy, st.running.value, hasStore), writes)
    case Update(man, dl, chips, kernel, firmwareDir, writes) =>
      if st.running.None? then st
      else Wrote(st, Stage.Plan(tr, st.sys, man, dl, Stage.Host(st.running.value, chips, kernel, firmwareDir)), writes)
    case UndoByHand(writes) => Wrote(st, BootSuccess.RollbackPlan(st.sys), writes)
  }

  function Run(pf: Platform, tr: Stage.Trust, st: State, events: seq<Event>): State {
    if events == [] then st
    else Step(pf, tr, Run(pf, tr, st, events[..|events| - 1]), events[|events| - 1])
  }

  lemma RunOneMore(pf: Platform, tr: Stage.Trust, st: State, a: seq<Event>, e: Event)
    ensures Run(pf, tr, st, a + [e]) == Step(pf, tr, Run(pf, tr, st, a), e)
  {
    assert (a + [e])[..|a|] == a;
  }

  lemma {:induction false} RunAppend(pf: Platform, tr: Stage.Trust, st: State, a: seq<Event>, b: seq<Event>)
    ensures Run(pf, tr, st, a + b) == Run(pf, tr, Run(pf, tr, st, a), b)
    decreases |b|
  {
    if b == [] {
      assert a + b == a;
    } else {
      var n := |b| - 1;
      var c, e := b[..n], b[n];
      assert b == c + [e] && a + b == (a + c) + [e];
      RunAppend(pf, tr, st, a, c);
      RunOneMore(pf, tr, st, a + c, e);
      RunOneMore(pf, tr, Run(pf, tr, st, a), c, e);
    }
  }

  // --- What one WAL commit does ---

  ghost predicate Commits(w: Wal, c: Commit, x: Wal) {
    match c
    case MissedBoot => w.HasPending() && exists b: Option<BootState> :: x == BootSuccess.Missed(w, b)
    case Confirmation(id) =>
      w.HasPending() && BootSuccess.Confirmed(w, id) && !Promotes(w, true) && x == Switched(w)
    case Promotion(path, version, hash, id) =>
      && w.HasPending() && BootSuccess.Confirmed(w, id) && version == w.pending && hash == w.pendingHash
      && (if path == ByBootSuccess then Promotes(w, true) && x == Promoted(Switched(w))
          else w.stableBoots >= 1 && x == Promoted(w))
    case Staging(version) =>
      && !IsDowngrade(version, w.current)
      && x == Deployed(w, version).(pendingHash := x.pendingHash, firmware := x.firmware)
    case RolledBackByHand => x == RolledBack(w)
  }

  /** Around one routine: the WAL as it was or as one commit left it, and a counter that was
      raised to no more than the WAL's. */
  ghost predicate Moved(s: Sys, t: Sys) {
    && s.wal.primary.Some? && t.wal.primary.Some?
    && (t.counter == s.counter || t.counter == RollForward.Raised(s.counter, t.wal.primary.value.counter))
    && ((t.wal.primary == s.wal.primary && t.log == s.log)
        || (|t.log| == |s.log| + 1 && t.log[..|s.log|] == s.log
            && Commits(s.wal.primary.value, t.log[|s.log|], t.wal.primary.value)))
  }

  lemma Unmoved(s: Sys, t: Sys)
    requires s.wal.primary.Some? && t.wal.primary == s.wal.primary && t.log == s.log && t.counter == s.counter
    ensures Moved(s, t)
  {
  }

  lemma MovedOnce(s: Sys, t: Sys, g: Wal, c: Commit)
    requires s.wal.primary.Some? && Commits(s.wal.primary.value, c, g)
    requires t.wal.primary == Some(g) && t.log == s.log + [c]
    requires t.counter == s.counter || t.counter == RollForward.Raised(s.counter, g.counter)
    ensures Moved(s, t)
  {
  }

  lemma TailMoves(s: Sys, g: Wal, c: Commit, hasStore: bool, q: nat)
    requires s.wal.primary.Some? && Commits(s.wal.primary.value, c, g)
    ensures Moved(s, RollForward.TailState(s, g, c, hasStore, q))
  {
  }

  /** What the disk holds does not matter to Moved. */
  lemma MovedFrom(s: Sys, d: Disk, t: Sys)
    requires Moved(s.(disk := d), t)
    ensures Moved(s, t)
  {
  }

  lemma SlotsThenTailMoves(u: Sys, g: Wal, c: Commit, hasStore: bool, p: nat)
    requires PromoteSlots.Preflight(u.disk) && u.wal.primary.Some? && Commits(u.wal.primary.value, c, g)
    ensures Moved(u, Cut(u, PromoteSlots.Plan(u.disk) + RollForward.CommitTail(g, c, hasStore), p))
  {
    var slots := PromoteSlots.Plan(u.disk);
    var n := PromotionSafety.CutIsHalfway(u, Min(p, |slots|));
    ThenTailMoves(u, slots, PromotionSafety.Halfway(u.disk, n), g, c, hasStore, p);
  }

  lemma ThenTailMoves(u: Sys, slots: seq<Write>, d: Disk, g: Wal, c: Commit, hasStore: bool, p: nat)
    requires u.wal.primary.Some? && Commits(u.wal.primary.value, c, g)
    requires Cut(u, slots, Min(p, |slots|)) == u.(disk := d)
    ensures Moved(u, Cut(u, slots + RollForward.CommitTail(g, c, hasStore), p))
  {
    RollForward.ThenTail(u, slots, d, g, c, hasStore, p);
    var v := u.(disk := d);
    if p > |slots| {
      TailMoves(v, g, c, hasStore, p - |slots|);
      MovedFrom(u, d, RollForward.TailState(v, g, c, hasStore, p - |slots|));
    } else {
      Unmoved(u, v);
    }
  }

  lemma SavedMoves(u: Sys, b: BootState, w: Wal, c: Commit, clean: bool, p: nat)
    requires u.wal.primary.Some? && Commits(u.wal.primary.value, c, w)
    ensures Moved(u, Cut(u, [SetBoot(b)] + SavePlan(w, c) + (if clean then CLEANUP else []), p))
  {
    var rest := if clean then CLEANUP else [];
    Trials.SaveCut(u, b, w, c, rest, p);
    var s3 := u.(boot := Some(b), wal := WalFiles(Some(w), Some(w)), log := u.log + [c]);
    if p >= 3 && clean {
      assert CLEANUP[0..] + [] == CLEANUP && RollForward.Cleaned(s3.disk, 0) == s3.disk;
      RollForward.CleanupCut(s3, 0, [], p - 3);
    }
  }

  lemma ReportMoves(s: Sys, healthy: bool, id: Identity, hasStore: bool, p: nat)
    requires s.wal.primary.Some?
    ensures Moved(s, Cut(s, BootSuccess.Plan(s, healthy, id, hasStore), p))
  {
    var w := s.wal.primary.value;
    if !w.HasPending() {
      RollForward.StableArms(s, w, hasStore, p);
    } else if healthy && !BootSuccess.Confirmed(w, id) {
      var m := BootSuccess.Missed(w, s.boot);
      SavedMoves(s, BootStateOf(m), m, MissedBoot, BootSuccess.Exhausted(w, s.boot), p);
    } else if healthy && Promotes(w, true) {
      if PromoteSlots.Preflight(s.disk) {
        RollForward.PromotionIsSlotsThenTail(s, w, id, hasStore);
        SlotsThenTailMoves(s, GoodBoot(w, true), Promotion(ByBootSuccess, w.pending, w.pendingHash, id), hasStore, p);
      }
    } else if healthy {
      assert BootSuccess.GoodBootPlan(w, id) == BootSuccess.GoodBootPlan(w, id) + [];
      SavedMoves(s, BootStateOf(GoodBoot(w, true)), GoodBoot(w, true), Confirmation(id), false, p);
    }
  }

  lemma UndoMoves(s: Sys, p: nat)
    requires s.wal.primary.Some?
    ensures Moved(s, Cut(s, BootSuccess.RollbackPlan(s), p))
  {
    var w := RolledBack(s.wal.primary.value);
    assert BootSuccess.RollbackPlan(s) == BootSuccess.RollbackPlan(s) + [];
    SavedMoves(s, BootStateOf(w), w, RolledBackByHand, false, p);
  }

  lemma RunningIsSlotsThenTail(s: Sys, id: Identity)
    requires s.wal.primary.Some? && BootSuccess.PromotesRunning(s, id) && PromoteSlots.Preflight(s.disk)
    ensures var w := s.wal.primary.value;
      BootSuccess.RunningPlan(s, id) == PromoteSlots.Plan(s.disk)
        + RollForward.CommitTail(Promoted(w), Promotion(ByStage, w.pending, w.pendingHash, id), false)
  {
    var w := s.wal.primary.value;
    var g, c := Promoted(w), Promotion(ByStage, w.pending, w.pendingHash, id);
    assert BootSuccess.RunningPlan(s, id)
      == PromoteSlots.Plan(s.disk) + [SetBoot(BOOT_ACTIVE)] + SavePlan(g, c) + CLEANUP;
    assert RollForward.CommitTail(g, c, false) == [SetBoot(BOOT_ACTIVE)] + SavePlan(g, c) + CLEANUP;
  }

  lemma RunningMoves(s: Sys, id: Identity, p: nat)
    requires s.wal.primary.Some?
    ensures Moved(s, Cut(s, BootSuccess.RunningPlan(s, id), p))
  {
    if BootSuccess.PromotesRunning(s, id) && PromoteSlots.Preflight(s.disk) {
      var w := s.wal.primary.value;
      var g, c := Promoted(w), Promotion(ByStage, w.pending, w.pendingHash, id);
      RunningIsSlotsThenTail(s, id);
      SlotsThenTailMoves(s, g, c, false, p);
    }
  }

  /** Staging makes at most two commits: the running candidate's promotion, then its own. */
  lemma UpdateMoves(tr: Stage.Trust, s: Sys, man: Stage.Manifest, dl: Stage.Delivery, host: Stage.Host, p: nat)
    returns (r: Sys)
    requires s.wal.primary.Some?
    ensures var t := Cut(s, Stage.Plan(tr, s, man, dl, host), p);
      Moved(s, r) && Moved(r, t) && (t.log != r.log ==> t.log == r.log + [Staging(man.version)])
  {
    if BootSuccess.RunningRefused(s, host.id) {
      Unmoved(s, s);
      return s;
    }
    r := RunningReached(s, host.id, p);
    PlanSplits(tr, s, man, dl, host, p);
    FetchOrNot(tr, s, r, man, dl, host, p, Cut(s, Stage.Plan(tr, s, man, dl, host), p));
  }

  /** How far the running candidate's promotion gets. */
  lemma RunningReached(s: Sys, id: Identity, p: nat) returns (r: Sys)
    requires s.wal.primary.Some?
    ensures r == Cut(s, BootSuccess.RunningPlan(s, id), Min(p, |BootSuccess.RunningPlan(s, id)|)) && Moved(s, r)
  {
    var n := Min(p, |BootSuccess.RunningPlan(s, id)|);
    RunningMoves(s, id, n);
    r := Cut(s, BootSuccess.RunningPlan(s, id), n);
  }

  lemma FetchOrNot(tr: Stage.Trust, s: Sys, r: Sys, man: Stage.Manifest, dl: Stage.Delivery, host: Stage.Host,
                   p: nat, t: Sys)
    requires r.wal.primary.Some?
    requires var n := |BootSuccess.RunningPlan(s, host.id)|;
      t == if p <= n then r else Cut(r, Stage.FetchPlan(tr, r, man, dl, host), p - n)
    ensures Moved(r, t) && (t.log != r.log ==> t.log == r.log + [Staging(man.version)])
  {
    var n := |BootSuccess.RunningPlan(s, host.id)|;
    if p > n { FetchMoves(tr, r, man, dl, host, p - n, t); } else { Unmoved(r, t); }
  }

  lemma PlanSplits(tr: Stage.Trust, s: Sys, man: Stage.Manifest, dl: Stage.Delivery, host: Stage.Host, p: nat)
    requires !BootSuccess.RunningRefused(s, host.id)
    ensures var running := BootSuccess.RunningPlan(s, host.id);
      var r := Cut(s, running, Min(p, |running|));
      Cut(s, Stage.Plan(tr, s, man, dl, host), p)
      == if p <= |running| then r else Cut(r, Stage.FetchPlan(tr, r, man, dl, host), p - |running|)
  {
    var running := BootSuccess.RunningPlan(s, host.id);
    CutAppend(s, running, Stage.FetchPlan(tr, Exec(s, running), man, dl, host), p);
  }

  lemma FetchMoves(tr: Stage.Trust, r: Sys, man: Stage.Manifest, dl: Stage.Delivery, host: Stage.Host, q: nat, t: Sys)
    requires r.wal.primary.Some? && t == Cut(r, Stage.FetchPlan(tr, r, man, dl, host), q)
    ensures Moved(r, t) && (t.log != r.log ==> t.log == r.log + [Staging(man.version)])
  {
    Stage.FetchAtomic(tr, r, man, dl, host, q);
    if t.wal.primary == r.wal.primary && t.log == r.log {
      Unmoved(r, t);
    } else {
      var w := r.wal.primary.value;
      StagedCommits(w, man, host);
      MovedOnce(r, t, Stage.StagedWal(w, man, host).value, Staging(man.version));
    }
  }

  lemma StagedCommits(w: Wal, man: Stage.Manifest, host: Stage.Host)
    requires !IsDowngrade(man.version, w.current) && Stage.StagedWal(w, man, host).Some?
    ensures Commits(w, Staging(man.version), Stage.StagedWal(w, man, host).value)
  {
  }

  /** Every event is at most two moves. */
  lemma StepMoves(pf: Platform, tr: Stage.Trust, st: State, e: Event) returns (r: Sys)
    requires st.sys.wal.primary.Some?
    ensures Moved(st.sys, r) && Moved(r, Step(pf, tr, st, e).sys)
  {
    r := st.sys;
    match e
    case Reboot(unlockArmed) => Unmoved(r, Charged(r, unlockArmed));
    case Pick(slot) =>
    case Report(healthy, hasStore, writes) =>
      if st.running.Some? { ReportMoves(r, healthy, st.running.value, hasStore, writes); }
    case Update(man, dl, chips, kernel, firmwareDir, writes) =>
      if st.running.Some? {
        r := UpdateMoves(tr, r, man, dl, Stage.Host(st.running.value, chips, kernel, firmwareDir), writes);
      }
    case UndoByHand(writes) => UndoMoves(r, writes);
  }

  // --- The anti-rollback ordering ---

  function Kc(version: string): nat { if KcOf(version).Some? then KcOf(version).value else 0 }

  /** WAL counter <= last known good <= current <= pending. */
  predicate OrderedWal(w: Wal) {
    && KcOf(w.lastKnownGood).Some? && KcOf(w.current).Some? && w.kcCurrent == Kc(w.current)
    && w.counter <= Kc(w.lastKnownGood) <= Kc(w.current)
    && w.stableBoots >= 0
    && if w.HasPending()
       then KcOf(w.pending).Some? && w.kcPending == Kc(w.pending) && Kc(w.current) <= Kc(w.pending)
            && (w.stableBoots >= 1 ==> w.current == w.pending)
       else w.kcPending == 0 && w.stableBoots == 0
  }

  /** And the hardware counter below them all. */
  predicate Ordered(s: Sys) {
    s.wal.primary.Some? && OrderedWal(s.wal.primary.value) && s.counter <= s.wal.primary.value.counter
  }

  /** Every version that was staged ends in an integer that fits an int. */
  predicate Numbered(log: seq<Commit>) {
    forall i :: 0 <= i < |log| && log[i].Staging? ==> KcOf(log[i].version).Some?
  }

  lemma StagingKeepsOrder(w: Wal, version: string, x: Wal)
    requires OrderedWal(w) && Commits(w, Staging(version), x) && KcOf(version).Some?
    ensures OrderedWal(x) && x.counter == w.counter
  {
    TailsOf(version);
    TailsOf(w.current);
    ReadingsAgree(version);
    ReadingsAgree(w.current);
  }

  lemma ReconciledOnly(w: Wal, b: Option<BootState>)
    ensures var u := BootSuccess.Reconciled(w, b); u == w.(stableBoots := 0, bootAttempts := u.bootAttempts)
  {
  }

  lemma RollbackKeepsOrder(w: Wal)
    requires OrderedWal(w)
    ensures OrderedWal(RolledBack(w)) && RolledBack(w).counter == w.counter
  {
    TailsOf(w.lastKnownGood);
  }

  lemma MissedKeepsOrder(w: Wal, b: Option<BootState>)
    requires OrderedWal(w)
    ensures OrderedWal(BootSuccess.Missed(w, b)) && BootSuccess.Missed(w, b).counter == w.counter
  {
    var u := BootSuccess.Reconciled(w, b);
    ReconciledOnly(w, b);
    assert OrderedWal(u);
    if BootSuccess.Exhausted(w, b) { RollbackKeepsOrder(u); }
  }

  lemma CommitKeepsOrder(w: Wal, c: Commit, x: Wal)
    requires OrderedWal(w) && Commits(w, c, x)
    requires c.Staging? ==> KcOf(c.version).Some?
    ensures OrderedWal(x) && w.counter <= x.counter
  {
    TailsOf(w.lastKnownGood);
    match c
    case Staging(version) => StagingKeepsOrder(w, version, x);
    case MissedBoot =>
      var b: Option<BootState> :| x == BootSuccess.Missed(w, b);
      MissedKeepsOrder(w, b);
    case Confirmation(_) =>
    case Promotion(_, _, _, _) =>
    case RolledBackByHand => RollbackKeepsOrder(w);
  }

  lemma TailsOf(version: string)
    ensures KcOf(version).Some? ==> version != "" && Tail(version) != ""
  {
  }

  lemma MoveKeepsOrder(s: Sys, t: Sys)
    requires Ordered(s) && Moved(s, t) && Numbered(t.log)
    ensures Ordered(t) && Numbered(s.log)
    ensures s.counter <= t.counter && s.wal.primary.value.counter <= t.wal.primary.value.counter
  {
    if t.log != s.log {
      CommitKeepsOrder(s.wal.primary.value, t.log[|s.log|], t.wal.primary.value);
    }
    forall i | 0 <= i < |s.log| && s.log[i].Staging? ensures KcOf(s.log[i].version).Some? {
      assert t.log[i] == s.log[i];
    }
  }

  /** The ordering holds in every state of every run, neither counter ever falls, and the
      loader's floor check never refuses an image that carries the last known good number,
      the current one or the pending one. */
  lemma {:induction false} OrderKept(pf: Platform, tr: Stage.Trust, st: State, events: seq<Event>)
    requires Ordered(st.sys) && Numbered(Run(pf, tr, st, events).sys.log)
    ensures var t := Run(pf, tr, st, events).sys;
      && Ordered(t) && st.sys.counter <= t.counter
      && st.sys.wal.primary.value.counter <= t.wal.primary.value.counter
      && var w := t.wal.primary.value;
         forall image ::
           (pf.version(image) == KcOf(w.lastKnownGood) || pf.version(image) == KcOf(w.current)
            || (w.HasPending() && pf.version(image) == KcOf(w.pending)))
           ==> AboveFloor(pf, t.counter, image)
    decreases |events|
  {
    if events != [] {
      var before := Run(pf, tr, st, events[..|events| - 1]);
      Alive(pf, tr, st, events[..|events| - 1]);
      var r := StepMoves(pf, tr, before, events[|events| - 1]);
      LogGrows(before.sys, r);
      NumberedBefore(r, Run(pf, tr, st, events).sys);
      NumberedBefore(before.sys, r);
      OrderKept(pf, tr, st, events[..|events| - 1]);
      MoveKeepsOrder(before.sys, r);
      MoveKeepsOrder(r, Run(pf, tr, st, events).sys);
    }
  }

  lemma LogGrows(s: Sys, t: Sys)
    requires Moved(s, t)
    ensures |s.log| <= |t.log| && t.log[..|s.log|] == s.log
  {
  }

  lemma NumberedBefore(s: Sys, t: Sys)
    requires Moved(s, t) && Numbered(t.log)
    ensures Numbered(s.log)
  {
  }

  lemma {:induction false} Alive(pf: Platform, tr: Stage.Trust, st: State, events: seq<Event>)
    requires st.sys.wal.primary.Some?
    ensures Run(pf, tr, st, events).sys.wal.primary.Some?
    decreases |events|
  {
    if events != [] {
      Alive(pf, tr, st, events[..|events| - 1]);
      var r := StepMoves(pf, tr, Run(pf, tr, st, events[..|events| - 1]), events[|events| - 1]);
    }
  }

  /** Why the numbering is needed: a freshly staged version keeps the WAL counter from falling
      when it is promoted exactly when it is numbered, or when the counter has never moved. */
  lemma UnnumberedLowersCounter(s: Sys, version: string)
    requires Ordered(s) && !s.wal.primary.value.HasPending()
    requires version != "" && version != s.wal.primary.value.current
    requires !IsDowngrade(version, s.wal.primary.value.current)
    ensures var w := s.wal.primary.value;
      Promoted(Switched(Deployed(w, version))).counter >= w.counter <==> KcOf(version).Some? || w.counter == 0
  {
    var w := s.wal.primary.value;
    TailsOf(version);
    TailsOf(w.current);
    if KcOf(version).Some? {
      ReadingsAgree(version);
      ReadingsAgree(w.current);
    }
  }

  // --- Who may become the last known good release ---

  /** Good boots of the candidate since it was staged or since the last boot that missed it. */
  function Streak(log: seq<Commit>): nat {
    if log == [] || !log[|log| - 1].Confirmation? then 0 else Streak(log[..|log| - 1]) + 1
  }

  /** The last version staged. */
  function LastStaged(initial: string, log: seq<Commit>): string {
    if log == [] then initial
    else if log[|log| - 1].Staging? then log[|log| - 1].version
    else LastStaged(initial, log[..|log| - 1])
  }

  /** The last version promoted. */
  function LastPromoted(initial: string, log: seq<Commit>): string {
    if log == [] then initial
    else if log[|log| - 1].Promotion? then log[|log| - 1].version
    else LastPromoted(initial, log[..|log| - 1])
  }

  /** The whole streak at the end of this log was of the release with this version and hash. */
  predicate StreakOf(log: seq<Commit>, version: string, hash: string) {
    forall i :: |log| - Streak(log) <= i < |log| ==> StreakEntry(log, i, version, hash)
  }

  predicate StreakEntry(log: seq<Commit>, i: int, version: string, hash: string) {
    0 <= i < |log| && log[i].Confirmation? && BootSuccess.Matches(log[i].id, version, hash)
  }

  /** Entry `k` is no promotion, or one that was earned. */
  predicate Earned(initial: Wal, log: seq<Commit>, k: nat)
    requires k < |log|
  {
    log[k].Promotion? ==>
      var p, before := log[k], log[..k];
      && BootSuccess.Matches(p.id, p.version, p.hash) && StreakOf(before, p.version, p.hash)
      && p.version == LastStaged(initial.pending, before)
      && if p.path == ByBootSuccess then Streak(before) + 1 >= initial.stableThreshold else Streak(before) >= 1
  }

  /** The record agrees with the history of the run. */
  ghost predicate Accounted(initial: Wal, s: Sys) {
    && s.wal.primary.Some?
    && var w := s.wal.primary.value;
    && w.stableThreshold == initial.stableThreshold
    && w.stableBoots == Streak(s.log)
    && (w.HasPending() ==> w.pending == LastStaged(initial.pending, s.log))
    && (w.stableBoots >= 1 ==> w.HasPending() && w.current == w.pending && StreakOf(s.log, w.pending, w.pendingHash))
    && w.lastKnownGood == LastPromoted(initial.lastKnownGood, s.log)
    && forall k :: 0 <= k < |s.log| ==> Earned(initial, s.log, k)
  }

  lemma StreakGrows(log: seq<Commit>, c: Commit, version: string, hash: string)
    requires c.Confirmation? && BootSuccess.Matches(c.id, version, hash) && StreakOf(log, version, hash)
    ensures StreakOf(log + [c], version, hash) && Streak(log + [c]) == Streak(log) + 1
  {
    var more := log + [c];
    assert more[..|log|] == log;
    forall i | |more| - Streak(more) <= i < |more| ensures StreakEntry(more, i, version, hash) {
      if i < |log| { assert StreakEntry(log, i, version, hash); }
    }
  }

  /** Earlier entries are judged by what came before them. */
  lemma EarnedStays(initial: Wal, log: seq<Commit>, c: Commit)
    requires forall k :: 0 <= k < |log| ==> Earned(initial, log, k)
    requires Earned(initial, log + [c], |log|)
    ensures forall k :: 0 <= k < |log + [c]| ==> Earned(initial, log + [c], k)
  {
    var more := log + [c];
    forall k | 0 <= k < |more| ensures Earned(initial, more, k) {
      if k < |log| {
        assert Earned(initial, log, k);
        SameBefore(log, c, k);
      }
    }
  }

  lemma SameBefore(log: seq<Commit>, c: Commit, k: nat)
    requires k < |log|
    ensures (log + [c])[..k] == log[..k] && (log + [c])[k] == log[k]
  {
  }

  lemma CommitKeeps(initial: Wal, s: Sys, c: Commit, t: Sys)
    requires Accounted(initial, s) && t.wal.primary.Some? && Commits(s.wal.primary.value, c, t.wal.primary.value)
    requires t.log == s.log + [c]
    ensures Accounted(initial, t)
  {
    var w, x := s.wal.primary.value, t.wal.primary.value;
    assert t.log[..|s.log|] == s.log;
    CommitKeepsAccount(initial, s, c, t);
    EarnedStays(initial, s.log, c);
    if c.Confirmation? {
      assert StreakOf(s.log, w.pending, w.pendingHash);
      StreakGrows(s.log, c, w.pending, w.pendingHash);
    }
  }

  lemma MoveKeepsAccount(initial: Wal, s: Sys, t: Sys)
    requires Accounted(initial, s) && Moved(s, t)
    ensures Accounted(initial, t)
  {
    if t.log == s.log {
      assert t.wal.primary == s.wal.primary;
    } else {
      assert t.log == s.log + [t.log[|s.log|]];
      CommitKeeps(initial, s, t.log[|s.log|], t);
    }
  }

  /** How the readings of the history take one more commit. */
  lemma OneMore(initial: Wal, log: seq<Commit>, c: Commit)
    ensures var more := log + [c];
      && Streak(more) == (if c.Confirmation? then Streak(log) + 1 else 0)
      && LastStaged(initial.pending, more) == (if c.Staging? then c.version else LastStaged(initial.pending, log))
      && LastPromoted(initial.lastKnownGood, more)
         == (if c.Promotion? then c.version else LastPromoted(initial.lastKnownGood, log))
  {
    assert (log + [c])[..|log|] == log;
  }

  lemma CommitKeepsAccount(initial: Wal, s: Sys, c: Commit, t: Sys)
    requires Accounted(initial, s) && t.wal.primary.Some? && Commits(s.wal.primary.value, c, t.wal.primary.value)
    requires t.log == s.log + [c] && t.log[..|s.log|] == s.log
    ensures var x := t.wal.primary.value;
      && x.stableThreshold == initial.stableThreshold
      && x.stableBoots == Streak(t.log)
      && (x.HasPending() ==> x.pending == LastStaged(initial.pending, t.log))
      && (x.stableBoots >= 1 ==> x.HasPending() && x.current == x.pending && c.Confirmation?)
      && (c.Confirmation? ==>
            x.pending == s.wal.primary.value.pending && x.pendingHash == s.wal.primary.value.pendingHash)
      && x.lastKnownGood == LastPromoted(initial.lastKnownGood, t.log)
      && Earned(initial, t.log, |s.log|)
  {
    OneMore(initial, s.log, c);
    var w, x := s.wal.primary.value, t.wal.primary.value;
    if c.MissedBoot? {
      var b: Option<BootState> :| x == BootSuccess.Missed(w, b);
      ReconciledOnly(w, b);
    } else if c.Promotion? {
      PromotionEarned(initial, s, c, t);
    }
  }

  lemma PromotionEarned(initial: Wal, s: Sys, c: Commit, t: Sys)
    requires Accounted(initial, s) && c.Promotion? && t.wal.primary.Some?
    requires Commits(s.wal.primary.value, c, t.wal.primary.value)
    requires t.log == s.log + [c] && t.log[..|s.log|] == s.log
    ensures Earned(initial, t.log, |s.log|) && t.wal.primary.value.lastKnownGood == c.version
  {
  }

  /** In every run the last known good release is the one promoted last -- the initial one if
      none was -- and every promotion was earned: its identity matched, and it followed the
      good boots its path asks for, all of that candidate and none followed by a missed boot
      or another staging. */
  lemma {:induction false} OnlyEarned(pf: Platform, tr: Stage.Trust, initial: Wal, st: State, events: seq<Event>)
    requires Accounted(initial, st.sys)
    ensures Accounted(initial, Run(pf, tr, st, events).sys)
    decreases |events|
  {
    if events != [] {
      var before := Run(pf, tr, st, events[..|events| - 1]);
      OnlyEarned(pf, tr, initial, st, events[..|events| - 1]);
      var r := StepMoves(pf, tr, before, events[|events| - 1]);
      MoveKeepsAccount(initial, before.sys, r);
      MoveKeepsAccount(initial, r, Run(pf, tr, st, events).sys);
    }
  }

  /** A freshly installed device starts in both invariants. */
  lemma FreshDevice(s: Sys, version: string)
    requires KcOf(version).Some? && s.wal.primary == Some(New(version)) && s.counter == 0 && s.log == []
    ensures Ordered(s) && Accounted(New(version), s)
  {
    TailsOf(version);
  }
}
