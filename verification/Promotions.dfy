/** What a commit to the WAL means in terms of versions, hashes and labels: who is confirmed and
    promoted (internal/otad/otad.go:124-210), and where a promotion puts the counters. */
module Promotions {
  import opened Common
  import opened Versions
  import opened DeploymentWal
  import opened Device
  import opened Loader
  import opened Runs
  import BootSuccess
  import PromoteSlots
  import PromotionSafety
  import RollForward
  import Stage
  import Trials

  // --- Labels ---

  /** The same label, but for a 'v' that only one of them has in front. */
  predicate SameLabel(a: string, b: string) {
    || a == b
    || (a == "v" + b && (b == "" || b[0] != 'v'))
    || (b == "v" + a && (a == "" || a[0] != 'v'))
  }

  lemma SameReleaseMeans(a: string, b: string)
    ensures SameRelease(a, b) <==> SameLabel(a, b)
  {
    assert a != "" && a[0] == 'v' ==> a == "v" + a[1..];
    assert b != "" && b[0] == 'v' ==> b == "v" + b[1..];
    assert ("v" + a)[1..] == a && ("v" + b)[1..] == b;
  }

  /** The running system is the candidate: its root hash is the recorded one, and its label is. */
  predicate IsCandidate(id: Identity, version: string, hash: string) {
    id.hash == hash && hash != "" && id.version != "" && SameLabel(id.version, version)
  }

  lemma ConfirmedMeans(id: Identity, version: string, hash: string)
    ensures BootSuccess.Matches(id, version, hash) <==> IsCandidate(id, version, hash)
  {
    SameReleaseMeans(id.version, version);
  }

  // --- One report ---

  /** A report cut anywhere that finds another system running records at most a missed boot. */
  lemma OthersNeverConfirm(s: Sys, w: Wal, healthy: bool, id: Identity, hasStore: bool, p: nat)
    requires s.wal.primary == Some(w) && w.HasPending()
    requires !healthy || !IsCandidate(id, w.pending, w.pendingHash)
    ensures var t := Cut(s, BootSuccess.Plan(s, healthy, id, hasStore), p);
      t.log == s.log || (healthy && t.log == s.log + [MissedBoot])
  {
    ConfirmedMeans(id, w.pending, w.pendingHash);
    if healthy {
      var m := BootSuccess.Missed(w, s.boot);
      if BootSuccess.Exhausted(w, s.boot) {
        Trials.SaveThenClean(s, BootStateOf(m), m, MissedBoot, p);
      } else {
        Trials.SaveCut(s, BootStateOf(m), m, MissedBoot, [], p);
      }
    }
  }

  /** And a healthy one of the candidate that is not cut always counts: as a good boot below the
      threshold, as its promotion at the threshold. */
  lemma CandidateCounts(s: Sys, w: Wal, id: Identity, hasStore: bool)
    requires s.wal.primary == Some(w) && w.HasPending() && IsCandidate(id, w.pending, w.pendingHash)
    requires w.stableBoots + 1 >= w.stableThreshold ==> PromoteSlots.Preflight(s.disk)
    ensures var t := Exec(s, BootSuccess.Plan(s, true, id, hasStore));
      && t.wal.primary.Some? && t.wal == WalFiles(t.wal.primary, t.wal.primary)
      && var x := t.wal.primary.value;
      if w.stableBoots + 1 >= w.stableThreshold
      then t.log == s.log + [Promotion(ByBootSuccess, w.pending, w.pendingHash, id)]
           && !x.HasPending() && x.current == x.lastKnownGood == w.pending && t.boot == Some(BOOT_ACTIVE)
      else t.log == s.log + [Confirmation(id)]
           && x.pending == x.current == w.pending && x.pendingHash == w.pendingHash
           && x.stableBoots == w.stableBoots + 1 && x.lastKnownGood == w.lastKnownGood
           && (w.maxAttempts >= 1 ==> t.boot == Some(BootState(TargetNext, true, w.maxAttempts)))
  {
    ConfirmedMeans(id, w.pending, w.pendingHash);
    var plan := BootSuccess.Plan(s, true, id, hasStore);
    if w.stableBoots + 1 >= w.stableThreshold {
      PromotionEnds(s, w, id, hasStore);
    } else {
      var g := GoodBoot(w, true);
      Trials.SaveCut(s, BootStateOf(g), g, Confirmation(id), [], |plan|);
      assert plan == [SetBoot(BootStateOf(g))] + SavePlan(g, Confirmation(id)) + [];
    }
  }

  lemma PromotionEnds(s: Sys, w: Wal, id: Identity, hasStore: bool)
    requires s.wal.primary == Some(w) && Promotes(w, true) && BootSuccess.Confirmed(w, id)
    requires PromoteSlots.Preflight(s.disk)
    ensures var t, g := Exec(s, BootSuccess.Plan(s, true, id, hasStore)), GoodBoot(w, true);
      && t.wal == WalFiles(Some(g), Some(g)) && t.boot == Some(BOOT_ACTIVE)
      && t.log == s.log + [Promotion(ByBootSuccess, w.pending, w.pendingHash, id)]
      && t.counter == if hasStore then Max(s.counter, g.counter) else s.counter
  {
    var g, c := GoodBoot(w, true), Promotion(ByBootSuccess, w.pending, w.pendingHash, id);
    var slots, tail := PromoteSlots.Plan(s.disk), RollForward.CommitTail(g, c, hasStore);
    RollForward.PromotionIsSlotsThenTail(s, w, id, hasStore);
    var n := PromotionSafety.CutIsHalfway(s, |slots|);
    ExecAppend(s, slots, tail);
    RollForward.TailCut(Exec(s, slots), g, c, hasStore, |tail|);
  }

  // --- The counters ---

  /** A promotion sets the WAL counter to the number of the version it promotes. */
  lemma PromotionSetsCounter(w: Wal, c: Commit, x: Wal)
    requires OrderedWal(w) && Commits(w, c, x)
    ensures x.counter == if c.Promotion? then Kc(c.version) else w.counter
  {
    match c
    case Staging(_) =>
    case MissedBoot =>
      var b: Option<BootState> :| x == BootSuccess.Missed(w, b);
      MissedKeepsOrder(w, b);
    case Confirmation(_) =>
    case Promotion(_, _, _, _) =>
    case RolledBackByHand => RollbackKeepsOrder(w);
  }

  predicate AnyPromotion(log: seq<Commit>) { exists i :: 0 <= i < |log| && log[i].Promotion? }

  /** The WAL counter as the history has it. */
  function CounterOf(initial: Wal, log: seq<Commit>): nat {
    if AnyPromotion(log) then Kc(LastPromoted(initial.lastKnownGood, log)) else initial.counter
  }

  lemma OneMoreCommit(initial: Wal, log: seq<Commit>, c: Commit)
    ensures CounterOf(initial, log + [c]) == if c.Promotion? then Kc(c.version) else CounterOf(initial, log)
  {
    var more := log + [c];
    OneMore(initial, log, c);
    assert more[|log|] == c;
    if AnyPromotion(log) {
      var i :| 0 <= i < |log| && log[i].Promotion?;
      assert more[i].Promotion?;
    }
    if AnyPromotion(more) && !c.Promotion? {
      var i :| 0 <= i < |more| && more[i].Promotion?;
      assert log[i].Promotion?;
    }
  }

  lemma MoveSetsCounter(initial: Wal, s: Sys, t: Sys)
    requires Ordered(s) && Moved(s, t)
    requires s.wal.primary.value.counter == CounterOf(initial, s.log)
    ensures t.wal.primary.value.counter == CounterOf(initial, t.log)
  {
    if t.log != s.log {
      var c := t.log[|s.log|];
      assert t.log == s.log + [c];
      PromotionSetsCounter(s.wal.primary.value, c, t.wal.primary.value);
      OneMoreCommit(initial, s.log, c);
    }
  }

  /** In every numbered run the WAL counter is the number of the version promoted last, and the
      initial counter as long as none was. */
  lemma {:induction false} CounterFollowsPromotions(pf: Platform, tr: Stage.Trust, initial: Wal, st: State,
                                                    events: seq<Event>)
    requires Ordered(st.sys) && Numbered(Run(pf, tr, st, events).sys.log)
    requires st.sys.wal.primary == Some(initial) && st.sys.log == []
    ensures var t := Run(pf, tr, st, events).sys;
      Ordered(t) && t.wal.primary.value.counter == CounterOf(initial, t.log)
    decreases |events|
  {
    if events != [] {
      var n := |events| - 1;
      var before := Run(pf, tr, st, events[..n]);
      Alive(pf, tr, st, events[..n]);
      var r := StepMoves(pf, tr, before, events[n]);
      var t := Run(pf, tr, st, events).sys;
      NumberedBefore(r, t);
      NumberedBefore(before.sys, r);
      CounterFollowsPromotions(pf, tr, initial, st, events[..n]);
      MoveSetsCounter(initial, before.sys, r);
      MoveKeepsOrder(before.sys, r);
      MoveSetsCounter(initial, r, t);
      MoveKeepsOrder(r, t);
    }
  }

  /** A promotion with a counter store behind it arms the hardware with the number it promotes. */
  lemma PromotionArmsHardware(s: Sys, w: Wal, id: Identity, hasStore: bool)
    requires Ordered(s) && s.wal.primary == Some(w) && w.HasPending() && IsCandidate(id, w.pending, w.pendingHash)
    requires w.stableBoots + 1 >= w.stableThreshold && PromoteSlots.Preflight(s.disk)
    ensures var t := Exec(s, BootSuccess.Plan(s, true, id, hasStore));
      && t.counter == (if hasStore then Max(s.counter, Kc(w.pending)) else s.counter)
      && t.wal.primary.Some? && t.wal.primary.value.counter == Kc(w.pending)
  {
    ConfirmedMeans(id, w.pending, w.pendingHash);
    PromotionEnds(s, w, id, hasStore);
  }

  // --- Who a run confirms and promotes ---

  /** A report cut anywhere makes at most one entry, in the name of the system that is up. */
  lemma ReportSigns(s: Sys, healthy: bool, id: Identity, hasStore: bool, p: nat)
    requires s.wal.primary.Some?
    ensures var t := Cut(s, BootSuccess.Plan(s, healthy, id, hasStore), p);
      || t.log == s.log || t.log == s.log + [MissedBoot] || t.log == s.log + [Confirmation(id)]
      || t.log == s.log + [Promotion(ByBootSuccess, s.wal.primary.value.pending, s.wal.primary.value.pendingHash, id)]
  {
    var w := s.wal.primary.value;
    if !w.HasPending() {
      RollForward.StableArms(s, w, hasStore, p);
    } else if !healthy || !BootSuccess.Confirmed(w, id) {
      ConfirmedMeans(id, w.pending, w.pendingHash);
      OthersNeverConfirm(s, w, healthy, id, hasStore, p);
    } else if !Promotes(w, true) {
      var g := GoodBoot(w, true);
      Trials.SaveCut(s, BootStateOf(g), g, Confirmation(id), [], p);
      assert BootSuccess.GoodBootPlan(w, id) == [SetBoot(BootStateOf(g))] + SavePlan(g, Confirmation(id)) + [];
    } else if PromoteSlots.Preflight(s.disk) {
      RollForward.PromotionIsSlotsThenTail(s, w, id, hasStore);
      PromotionSigns(s, GoodBoot(w, true), Promotion(ByBootSuccess, w.pending, w.pendingHash, id), hasStore, p);
    }
  }

  lemma PromotionSigns(s: Sys, g: Wal, c: Commit, hasStore: bool, p: nat)
    requires PromoteSlots.Preflight(s.disk)
    ensures var t := Cut(s, PromoteSlots.Plan(s.disk) + RollForward.CommitTail(g, c, hasStore), p);
      t.log == s.log || t.log == s.log + [c]
  {
    var slots := PromoteSlots.Plan(s.disk);
    var n := PromotionSafety.CutIsHalfway(s, Min(p, |slots|));
    RollForward.ThenTail(s, slots, PromotionSafety.Halfway(s.disk, n), g, c, hasStore, p);
  }

  /** So does the promotion that staging makes first. */
  lemma RunningSigns(s: Sys, id: Identity, p: nat)
    requires s.wal.primary.Some?
    ensures var t, w := Cut(s, BootSuccess.RunningPlan(s, id), p), s.wal.primary.value;
      t.log == s.log || t.log == s.log + [Promotion(ByStage, w.pending, w.pendingHash, id)]
  {
    if BootSuccess.PromotesRunning(s, id) && PromoteSlots.Preflight(s.disk) {
      var w := s.wal.primary.value;
      RunningIsSlotsThenTail(s, id);
      PromotionSigns(s, Promoted(w), Promotion(ByStage, w.pending, w.pendingHash, id), false, p);
    }
  }

  predicate Vouched(c: Commit) { c.Confirmation? || c.Promotion? }

  /** The entry was made in the name of the running system, which is the recorded candidate by root
      hash and by label. */
  predicate SignedBy(st: State, c: Commit)
    requires Vouched(c)
  {
    && st.sys.wal.primary.Some? && st.running == Some(c.id)
    && var w := st.sys.wal.primary.value;
    && w.HasPending() && IsCandidate(c.id, w.pending, w.pendingHash)
    && (c.Promotion? ==> c.version == w.pending && c.hash == w.pendingHash)
  }

  /** What one event adds to the log. */
  lemma StepSigns(pf: Platform, tr: Stage.Trust, st: State, e: Event, t: Sys, i: nat)
    requires st.sys.wal.primary.Some? && t == Step(pf, tr, st, e).sys
    requires |st.sys.log| <= i < |t.log| && Vouched(t.log[i])
    ensures |st.sys.log| == i && SignedBy(st, t.log[i])
  {
    var s := st.sys;
    var w := s.wal.primary.value;
    match e
    case Reboot(unlockArmed) =>
    case Pick(slot) =>
    case Report(healthy, hasStore, writes) =>
      var id := st.running.value;
      ReportSigns(s, healthy, id, hasStore, writes);
      if !w.HasPending() {
        RollForward.StableArms(s, w, hasStore, writes);
      } else if !healthy || !IsCandidate(id, w.pending, w.pendingHash) {
        OthersNeverConfirm(s, w, healthy, id, hasStore, writes);
      }
    case Update(man, dl, chips, kernel, firmwareDir, writes) =>
      UpdateSigns(tr, s, man, dl, Stage.Host(st.running.value, chips, kernel, firmwareDir), writes, t, i);
    case UndoByHand(writes) =>
      var x := RolledBack(w);
      assert BootSuccess.RollbackPlan(s) == [SetBoot(BootStateOf(x))] + SavePlan(x, RolledBackByHand) + [];
      Trials.SaveCut(s, BootStateOf(x), x, RolledBackByHand, [], writes);
  }

  lemma UpdateSigns(tr: Stage.Trust, s: Sys, man: Stage.Manifest, dl: Stage.Delivery, host: Stage.Host, p: nat,
                    t: Sys, i: nat)
    requires s.wal.primary.Some? && t == Cut(s, Stage.Plan(tr, s, man, dl, host), p)
    requires |s.log| <= i < |t.log| && Vouched(t.log[i])
    ensures |s.log| == i && SignedBy(State(s, Some(host.id)), t.log[i])
  {
    var w := s.wal.primary.value;
    if !BootSuccess.RunningRefused(s, host.id) {
      var n := |BootSuccess.RunningPlan(s, host.id)|;
      var r := RunningReached(s, host.id, p);
      PlanSplits(tr, s, man, dl, host, p);
      FetchOrNot(tr, s, r, man, dl, host, p, t);
      RunningSigns(s, host.id, Min(p, n));
      ConfirmedMeans(host.id, w.pending, w.pendingHash);
      if t.log != r.log { assert t.log == r.log + [Staging(man.version)]; }
    }
  }

  /** The event that made entry `i` of the log. */
  predicate MadeBy(pf: Platform, tr: Stage.Trust, st: State, events: seq<Event>, i: nat, k: nat) {
    && k < |events| && i < |Run(pf, tr, st, events).sys.log| && Vouched(Run(pf, tr, st, events).sys.log[i])
    && |Run(pf, tr, st, events[..k]).sys.log| == i
    && SignedBy(Run(pf, tr, st, events[..k]), Run(pf, tr, st, events).sys.log[i])
  }

  /** Every good boot and every promotion that a run records was recorded for the system that was up
      at that event, and that system was the candidate by root hash and by label. */
  lemma {:induction false} OnlyTheCandidate(pf: Platform, tr: Stage.Trust, st: State, events: seq<Event>, i: nat)
    returns (k: nat)
    requires st.sys.wal.primary.Some?
    requires |st.sys.log| <= i < |Run(pf, tr, st, events).sys.log| && Vouched(Run(pf, tr, st, events).sys.log[i])
    ensures MadeBy(pf, tr, st, events, i, k)
    decreases |events|
  {
    var n := |events| - 1;
    var before, t := Run(pf, tr, st, events[..n]), Run(pf, tr, st, events).sys;
    Alive(pf, tr, st, events[..n]);
    if i < |before.sys.log| {
      var r := StepMoves(pf, tr, before, events[n]);
      LogGrows(before.sys, r);
      LogGrows(r, t);
      assert before.sys.log[i] == r.log[i] == t.log[i];
      k := OnlyTheCandidate(pf, tr, st, events[..n], i);
      assert events[..n][..k] == events[..k];
    } else {
      k := n;
      StepSigns(pf, tr, before, events[n], t, i);
    }
  }
}
