/** A promotion cut by power loss any number of times, with a reboot and a healthy
    BootSuccess after each cut, ends exactly as one that was never cut. */
module RollForward {
  import opened Common
  import opened Versions
  import opened DeploymentWal
  import opened Device
  import opened Loader
  import opened PromotionSafety
  import opened BootSuccess
  import PromoteSlots

  // --- The writes after the slots, and the stable branch, in closed form ---

  /** The first `j` removals of the cleanup. */
  function Cleaned(d: Disk, j: int): Disk {
    d.(kcImage := if j >= 1 then d.kcImage.(next := None) else d.kcImage,
       kcSig := if j >= 2 then d.kcSig.(next := None) else d.kcSig,
       rootImage := if j >= 3 then d.rootImage.(next := None) else d.rootImage,
       rootTree := if j >= 4 then d.rootTree.(next := None) else d.rootTree)
  }

  function Raised(counter: nat, to: nat): nat { if counter < to then to else counter }

  function CommitTail(g: Wal, c: Commit, hasStore: bool): seq<Write> {
    [SetBoot(BOOT_ACTIVE)] + SavePlan(g, c) + CLEANUP + (if hasStore then [Arm(g.counter)] else [])
  }

  /** After `p` writes of the tail. */
  function TailState(s: Sys, g: Wal, c: Commit, hasStore: bool, p: nat): Sys {
    Sys(Cleaned(s.disk, p - 3),
        WalFiles(if p >= 3 then Some(g) else s.wal.primary, if p >= 2 then Some(g) else s.wal.backup),
        if p >= 1 then Some(BOOT_ACTIVE) else s.boot,
        if p >= 8 && hasStore then Raised(s.counter, g.counter) else s.counter,
        if p >= 3 then s.log + [c] else s.log)
  }

  lemma {:induction false} CleanupCut(s: Sys, j: nat, rest: seq<Write>, p: nat)
    requires j <= 4
    ensures Cut(s.(disk := Cleaned(s.disk, j)), CLEANUP[j..] + rest, p) ==
      if p <= 4 - j then s.(disk := Cleaned(s.disk, j + p))
      else Cut(s.(disk := Cleaned(s.disk, 4)), rest, p - (4 - j))
    decreases 4 - j
  {
    var t := s.(disk := Cleaned(s.disk, j));
    if j == 4 {
      assert CLEANUP[4..] + rest == rest;
    } else {
      assert CLEANUP[j..] + rest == [CLEANUP[j]] + (CLEANUP[j + 1..] + rest);
      CutCons(t, CLEANUP[j], CLEANUP[j + 1..] + rest, p);
      assert Apply(t, CLEANUP[j]) == s.(disk := Cleaned(s.disk, j + 1));
      if p > 0 { CleanupCut(s, j + 1, rest, p - 1); }
    }
  }

  lemma CleanThenArm(s: Sys, g: Wal, hasStore: bool, p: nat)
    ensures Cut(s, CLEANUP + (if hasStore then [Arm(g.counter)] else []), p) ==
      s.(disk := Cleaned(s.disk, p), counter := if p >= 5 && hasStore then Raised(s.counter, g.counter) else s.counter)
  {
    var arm := if hasStore then [Arm(g.counter)] else [];
    assert CLEANUP[0..] == CLEANUP && Cleaned(s.disk, 0) == s.disk;
    CleanupCut(s, 0, arm, p);
    if p >= 4 && hasStore {
      assert arm == [Arm(g.counter)] + [];
      CutCons(s.(disk := Cleaned(s.disk, 4)), Arm(g.counter), [], p - 4);
    }
  }

  lemma TailCut(s: Sys, g: Wal, c: Commit, hasStore: bool, p: nat)
    ensures Cut(s, CommitTail(g, c, hasStore), p) == TailState(s, g, c, hasStore, p)
  {
    var rest := CLEANUP + (if hasStore then [Arm(g.counter)] else []);
    var a := [SaveBackup(g)] + ([SavePrimary(g, c)] + rest);
    assert CommitTail(g, c, hasStore) == [SetBoot(BOOT_ACTIVE)] + a;
    CutCons(s, SetBoot(BOOT_ACTIVE), a, p);
    if p >= 1 {
      var s1 := s.(boot := Some(BOOT_ACTIVE));
      CutCons(s1, SaveBackup(g), [SavePrimary(g, c)] + rest, p - 1);
      if p >= 2 {
        var s2 := s1.(wal := s1.wal.(backup := Some(g)));
        CutCons(s2, SavePrimary(g, c), rest, p - 2);
        if p >= 3 { CleanThenArm(Apply(s2, SavePrimary(g, c)), g, hasStore, p - 3); }
      }
    }
  }

  /** A promotion after `p` writes: in its slots, or in its tail. */
  lemma ThenTail(u: Sys, slots: seq<Write>, d: Disk, g: Wal, c: Commit, hasStore: bool, p: nat)
    requires Cut(u, slots, Min(p, |slots|)) == u.(disk := d)
    ensures Cut(u, slots + CommitTail(g, c, hasStore), p) ==
      if p <= |slots| then u.(disk := d) else TailState(u.(disk := d), g, c, hasStore, p - |slots|)
  {
    CutAppend(u, slots, CommitTail(g, c, hasStore), p);
    if p > |slots| { TailCut(u.(disk := d), g, c, hasStore, p - |slots|); }
  }

  /** After `p` writes of the stable branch, where `arms` says whether it arms the counter. */
  function StableState(s: Sys, g: Wal, arms: bool, p: nat): Sys {
    var q := if arms then p - 1 else p;
    Sys(Cleaned(s.disk, q - 1), s.wal, if q >= 1 then Some(BOOT_ACTIVE) else s.boot,
        if arms && p >= 1 then Raised(s.counter, g.counter) else s.counter, s.log)
  }

  predicate Arms(s: Sys, g: Wal, hasStore: bool) { hasStore && g.counter > 0 && s.counter < g.counter }

  lemma {:induction false} StableCut(s: Sys, g: Wal, hasStore: bool, p: nat)
    requires !g.HasPending()
    ensures Cut(s, StablePlan(s, g, hasStore), p) == StableState(s, g, Arms(s, g, hasStore), p)
  {
    var tail := [SetBoot(BOOT_ACTIVE)] + CLEANUP;
    var arms := Arms(s, g, hasStore);
    var s1 := if arms then Apply(s, Arm(g.counter)) else s;
    if arms {
      assert StablePlan(s, g, hasStore) == [Arm(g.counter)] + tail;
      CutCons(s, Arm(g.counter), tail, p);
    } else {
      assert StablePlan(s, g, hasStore) == tail;
    }
    if !arms || p >= 1 {
      var q := if arms then p - 1 else p;
      CutCons(s1, SetBoot(BOOT_ACTIVE), CLEANUP, q);
      if q >= 1 {
        var s2 := Apply(s1, SetBoot(BOOT_ACTIVE));
        assert CLEANUP[0..] + [] == CLEANUP && Cleaned(s2.disk, 0) == s2.disk;
        CleanupCut(s2, 0, [], q - 1);
      }
    }
  }

  lemma StableArms(s: Sys, g: Wal, hasStore: bool, p: nat)
    ensures var t := Cut(s, StablePlan(s, g, hasStore), p);
      t.wal == s.wal && t.log == s.log && (t.counter == s.counter || t.counter == Raised(s.counter, g.counter))
  {
    var tail := [SetBoot(BootStateOf(g))] + CLEANUP;
    var s1 := s;
    var q := p;
    if Arms(s, g, hasStore) {
      assert StablePlan(s, g, hasStore) == [Arm(g.counter)] + tail;
      CutCons(s, Arm(g.counter), tail, p);
      if p == 0 { return; }
      s1, q := Apply(s, Arm(g.counter)), p - 1;
    } else {
      assert StablePlan(s, g, hasStore) == tail;
    }
    CutCons(s1, SetBoot(BootStateOf(g)), CLEANUP, q);
    if q >= 1 {
      var s2 := Apply(s1, SetBoot(BootStateOf(g)));
      assert CLEANUP[0..] + [] == CLEANUP && Cleaned(s2.disk, 0) == s2.disk;
      CleanupCut(s2, 0, [], q - 1);
    }
  }

  // --- The states a cut promotion passes through ---

  /** The fixed facts of one promotion: where it started, the WAL it commits, its candidate. */
  datatype Job = Job(start: Sys, w: Wal, old_: Release, new_: Release, hasStore: bool)
  {
    function Committed(): Wal { GoodBoot(w, true) }

    function Note(): Commit { Promotion(ByBootSuccess, w.pending, w.pendingHash, new_.id) }

    /** Where the uninterrupted promotion ends. */
    function Goal(): Sys {
      Sys(Cleaned(Halfway(start.disk, 8), 4), WalFiles(Some(Committed()), Some(Committed())), Some(BOOT_ACTIVE),
          if hasStore then Raised(start.counter, Committed().counter) else start.counter, start.log + [Note()])
    }
  }

  /** A healthy boot of the candidate that reaches the threshold, with `attempts` trial boots
      left for the loader. */
  ghost predicate Promotable(pf: Platform, j: Job, attempts: nat) {
    && Ready(pf, j.start, j.old_, j.new_)
    && j.start.wal.primary == Some(j.w) && Promotes(j.w, true) && Confirmed(j.w, j.new_.id)
    && AboveFloor(pf, j.Committed().counter, j.new_.uki)
    && j.start.boot.Some? && j.start.boot.value.target == TargetNext && j.start.boot.value.trial
    && j.start.boot.value.attempts >= attempts
  }

  /** The WAL has not committed yet: the slots are somewhere between, and the loader either
      still tries the candidate or finds it already active. */
  ghost predicate Uncommitted(j: Job, s: Sys, attempts: int, n: nat) {
    && n <= 8 && s.disk == Halfway(j.start.disk, n)
    && s.wal.primary == Some(j.w) && s.counter == j.start.counter && s.log == j.start.log
    && ((n == 8 && s.boot == Some(BOOT_ACTIVE))
        || (s.boot.Some? && s.boot.value.target == TargetNext && s.boot.value.trial
            && s.boot.value.attempts >= attempts))
  }

  /** The WAL has committed; cleanup and the counter may be outstanding. */
  ghost predicate Committed(j: Job, s: Sys, k: nat) {
    && k <= 4 && s.disk == Cleaned(Halfway(j.start.disk, 8), k)
    && s.wal == WalFiles(Some(j.Committed()), Some(j.Committed()))
    && s.boot == Some(BOOT_ACTIVE) && s.log == j.start.log + [j.Note()]
    && (s.counter == j.start.counter || s.counter == j.Goal().counter)
  }

  function Routine(j: Job, s: Sys): seq<Write> { Plan(s, true, j.new_.id, j.hasStore) }

  lemma PromotionIsSlotsThenTail(u: Sys, w: Wal, id: Identity, hasStore: bool)
    requires u.wal.primary == Some(w) && Promotes(w, true) && Confirmed(w, id)
    requires PromoteSlots.Preflight(u.disk)
    ensures Plan(u, true, id, hasStore) ==
      PromoteSlots.Plan(u.disk)
      + CommitTail(GoodBoot(w, true), Promotion(ByBootSuccess, w.pending, w.pendingHash, id), hasStore)
  {
  }

  lemma UncommittedPlan(pf: Platform, j: Job, s: Sys, a: int, n: nat, attempts: nat)
    requires Promotable(pf, j, attempts) && Uncommitted(j, s, a, n)
    ensures PromoteSlots.Preflight(s.disk)
    ensures Routine(j, s) == PromoteSlots.Plan(s.disk) + CommitTail(j.Committed(), j.Note(), j.hasStore)
  {
    ReadyPreflight(pf, j.start, j.old_, j.new_);
    HalfwayResumes(j.start.disk, n);
    PromotionIsSlotsThenTail(s, j.w, j.new_.id, j.hasStore);
  }

  lemma SlotsDone(pf: Platform, j: Job, s: Sys, a: int, n: nat, attempts: nat)
    requires Promotable(pf, j, attempts) && Uncommitted(j, s, a, n)
    ensures Exec(s, PromoteSlots.Plan(s.disk)) == s.(disk := Halfway(j.start.disk, 8))
  {
    UncommittedPlan(pf, j, s, a, n, attempts);
    var m := CutIsHalfway(s, |PromoteSlots.Plan(s.disk)|);
    ReadyPreflight(pf, j.start, j.old_, j.new_);
    HalfwayResumes(j.start.disk, n);
  }

  lemma UncommittedCut(pf: Platform, j: Job, s: Sys, a: int, n: nat, attempts: nat, p: nat)
    returns (n': nat, k: nat)
    requires Promotable(pf, j, attempts) && Uncommitted(j, s, a, n)
    ensures var t := Cut(s, Routine(j, s), p); Uncommitted(j, t, a, n') || Committed(j, t, k)
  {
    UncommittedPlan(pf, j, s, a, n, attempts);
    var slots, tail := PromoteSlots.Plan(s.disk), CommitTail(j.Committed(), j.Note(), j.hasStore);
    CutAppend(s, slots, tail, p);
    if p <= |slots| {
      var m := CutIsHalfway(s, p);
      ReadyPreflight(pf, j.start, j.old_, j.new_);
      HalfwayOfHalfway(j.start.disk, n, m);
      n', k := Max(n, m), 0;
    } else {
      SlotsDone(pf, j, s, a, n, attempts);
      n', k := TailPhase(j, s.(disk := Halfway(j.start.disk, 8)), a, p - |slots|);
    }
  }

  lemma TailPhase(j: Job, s: Sys, a: int, q: nat) returns (n: nat, k: nat)
    requires Uncommitted(j, s, a, 8)
    ensures var t := Cut(s, CommitTail(j.Committed(), j.Note(), j.hasStore), q);
      Uncommitted(j, t, a, n) || Committed(j, t, k)
  {
    TailCut(s, j.Committed(), j.Note(), j.hasStore, q);
    n, k := 8, Min(4, if q >= 3 then q - 3 else 0);
  }

  lemma HalfwayOfHalfway(d: Disk, n: nat, m: nat)
    requires Present(d) && n <= 8 && m <= 8
    ensures Halfway(Halfway(d, n), m) == Halfway(d, Max(n, m))
  {
  }

  lemma UncommittedEnds(pf: Platform, j: Job, s: Sys, a: int, n: nat, attempts: nat)
    requires Promotable(pf, j, attempts) && Uncommitted(j, s, a, n)
    ensures Exec(s, Routine(j, s)) == j.Goal()
  {
    UncommittedPlan(pf, j, s, a, n, attempts);
    var slots, tail := PromoteSlots.Plan(s.disk), CommitTail(j.Committed(), j.Note(), j.hasStore);
    ExecAppend(s, slots, tail);
    SlotsDone(pf, j, s, a, n, attempts);
    TailCut(Exec(s, slots), j.Committed(), j.Note(), j.hasStore, |tail|);
  }

  lemma CommittedEnds(pf: Platform, j: Job, s: Sys, k: nat, attempts: nat)
    requires Promotable(pf, j, attempts) && Committed(j, s, k)
    ensures Exec(s, Routine(j, s)) == j.Goal()
  {
    StableCut(s, j.Committed(), j.hasStore, |Routine(j, s)|);
  }

  lemma CommittedCut(pf: Platform, j: Job, s: Sys, k: nat, attempts: nat, p: nat) returns (k': nat)
    requires Promotable(pf, j, attempts) && Committed(j, s, k)
    ensures Committed(j, Cut(s, Routine(j, s), p), k')
  {
    StableCut(s, j.Committed(), j.hasStore, p);
    var q := if Arms(s, j.Committed(), j.hasStore) then p - 1 else p;
    k' := Max(k, Min(4, if q >= 1 then q - 1 else 0));
    CleanedFurther(Halfway(j.start.disk, 8), k, q - 1, k');
  }

  lemma CleanedFurther(d: Disk, k: nat, j: int, m: nat)
    requires k <= 4 && m == Max(k, Min(4, if j >= 0 then j else 0))
    ensures Cleaned(Cleaned(d, k), j) == Cleaned(d, m)
  {
  }

  // --- Reboots ---

  /** What an automatic boot of this state runs, if it is an OS slot. */
  function Running(pf: Platform, s: Sys): Option<Identity> {
    var u := Charged(s, false);
    var b := Chosen(pf, u.disk, u.counter, CascadeOf(s.boot, false));
    if b.Some? && b.value.Os? && ImageOf(u.disk, b.value).Some?
    then Some(pf.identity(ImageOf(u.disk, b.value).value)) else None
  }

  lemma UncommittedReboot(pf: Platform, j: Job, s: Sys, a: nat, n: nat, attempts: nat)
    requires Promotable(pf, j, attempts) && Uncommitted(j, s, a, n) && a >= 1
    ensures Running(pf, s) == Some(j.new_.id)
    ensures BootsInto(pf, s.disk, s.counter, CascadeOf(s.boot, false), j.new_)
    ensures Uncommitted(j, Charged(s, false), a - 1, n)
  {
    RootsStay(pf, j.start, j.old_, j.new_, n);
    if s.boot == Some(BOOT_ACTIVE) {
      ReadyPreflight(pf, j.start, j.old_, j.new_);
      StableChoice(pf, s.disk, s.counter);
      assert s.disk.Content(KcImage, Active) == Some(j.new_.uki);
      assert Chainloads(pf, s.disk, s.counter, Os(Active));
    } else {
      TrialSafe(pf, j.start, j.old_, j.new_, n);
      TrialChoice(pf, s.disk, s.counter);
    }
  }

  lemma CommittedReboot(pf: Platform, j: Job, s: Sys, k: nat, attempts: nat)
    requires Promotable(pf, j, attempts) && Committed(j, s, k)
    ensures Running(pf, s) == Some(j.new_.id)
    ensures BootsInto(pf, s.disk, s.counter, CascadeOf(s.boot, false), j.new_)
    ensures Charged(s, false) == s
  {
    ReadyPreflight(pf, j.start, j.old_, j.new_);
    StableChoice(pf, s.disk, s.counter);
    assert s.disk.Content(KcImage, Active) == Some(j.new_.uki);
    assert s.disk.Content(RootImage, Active) == Some(j.new_.image)
      && s.disk.Content(RootTree, Active) == Some(j.new_.tree);
    assert Chainloads(pf, s.disk, s.counter, Os(Active));
  }

  /** BootSuccess cut once per entry of `cuts`, each cut followed by an automatic reboot of
      whatever then boots, and a last BootSuccess that is not cut. */
  function Recovered(pf: Platform, s: Sys, id: Identity, hasStore: bool, cuts: seq<nat>): Sys
    decreases |cuts|
  {
    if cuts == [] then Exec(s, Plan(s, true, id, hasStore))
    else
      var t := Cut(s, Plan(s, true, id, hasStore), cuts[0]);
      var u := Charged(t, false);
      if Running(pf, t).None? then u else Recovered(pf, u, Running(pf, t).value, hasStore, cuts[1..])
  }

  /** Roll-forward: with at least as many trial boots left as there are cuts, the device ends
      in the state of the promotion that was never cut. */
  lemma RollsForward(pf: Platform, j: Job, cuts: seq<nat>)
    requires Promotable(pf, j, |cuts|)
    ensures Recovered(pf, j.start, j.new_.id, j.hasStore, cuts) == j.Goal()
    ensures j.Goal() == Exec(j.start, Plan(j.start, true, j.new_.id, j.hasStore))
  {
    assert Halfway(j.start.disk, 0) == j.start.disk;
    UncommittedEnds(pf, j, j.start, |cuts|, 0, |cuts|);
    UncommittedRecovers(pf, j, j.start, 0, |cuts|, cuts);
  }

  lemma {:induction false} UncommittedRecovers(pf: Platform, j: Job, s: Sys, n: nat, attempts: nat, cuts: seq<nat>)
    requires Promotable(pf, j, attempts) && Uncommitted(j, s, |cuts|, n)
    ensures Recovered(pf, s, j.new_.id, j.hasStore, cuts) == j.Goal()
    decreases |cuts|
  {
    if cuts == [] {
      UncommittedEnds(pf, j, s, 0, n, attempts);
    } else {
      var n', k := UncommittedCut(pf, j, s, |cuts|, n, attempts, cuts[0]);
      var t := Cut(s, Routine(j, s), cuts[0]);
      if Uncommitted(j, t, |cuts|, n') {
        UncommittedReboot(pf, j, t, |cuts|, n', attempts);
        UncommittedRecovers(pf, j, Charged(t, false), n', attempts, cuts[1..]);
      } else {
        CommittedReboot(pf, j, t, k, attempts);
        CommittedRecovers(pf, j, t, k, attempts, cuts[1..]);
      }
    }
  }

  lemma {:induction false} CommittedRecovers(pf: Platform, j: Job, s: Sys, k: nat, attempts: nat, cuts: seq<nat>)
    requires Promotable(pf, j, attempts) && Committed(j, s, k)
    ensures Recovered(pf, s, j.new_.id, j.hasStore, cuts) == j.Goal()
    decreases |cuts|
  {
    if cuts == [] {
      CommittedEnds(pf, j, s, k, attempts);
    } else {
      var k' := CommittedCut(pf, j, s, k, attempts, cuts[0]);
      var t := Cut(s, Routine(j, s), cuts[0]);
      CommittedReboot(pf, j, t, k', attempts);
      CommittedRecovers(pf, j, t, k', attempts, cuts[1..]);
    }
  }
}
