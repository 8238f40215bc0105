/** What promotion keeps at every point where it can be cut, and that it can be resumed. */
module PromotionSafety {
  import opened Common
  import opened Device
  import opened Loader
  import opened PromoteSlots

  // --- The shape of a half-promoted disk ---

  /** One file after `n` of its two writes; a file whose active already is next has none. */
  function Moved<V(==)>(f: Slots<V>, n: int): Slots<V> {
    if n <= 0 || (f.active.Some? && f.active == f.next) then f
    else if n == 1 then f.(prev := f.active)
    else f.(prev := f.active, active := f.next)
  }

  /** The disk after `n` of the eight writes of a full promotion. */
  function Halfway(d: Disk, n: int): Disk {
    d.(rootImage := Moved(d.rootImage, n), rootTree := Moved(d.rootTree, n - 2),
       kcImage := Moved(d.kcImage, n - 4), kcSig := Moved(d.kcSig, n - 6))
  }

  function Index(f: File): nat {
    match f case RootImage => 0 case RootTree => 1 case KcImage => 2 case KcSig => 3
  }

  predicate Present(d: Disk) {
    && d.rootImage.active.Some? && d.rootImage.next.Some?
    && d.rootTree.active.Some? && d.rootTree.next.Some?
    && d.kcImage.active.Some? && d.kcImage.next.Some?
    && d.kcSig.active.Some? && d.kcSig.next.Some?
  }

  lemma PreflightPresent(d: Disk)
    requires Preflight(d)
    ensures Present(d)
  {
    forall f: File ensures d.Content(f, Active).Some? && d.Content(f, Next).Some? {
      assert NonEmpty(d, f, Next) && NonEmpty(d, f, Active);
    }
    assert d.Content(RootImage, Active).Some? && d.Content(RootTree, Active).Some?;
    assert d.Content(RootImage, Next).Some? && d.Content(RootTree, Next).Some?;
    assert d.Content(KcImage, Active).Some? && d.Content(KcSig, Active).Some?;
    assert d.Content(KcImage, Next).Some? && d.Content(KcSig, Next).Some?;
  }

  /** The first `k` writes of a plan over the files from `i` on are those of the first
      `n` half steps. */
  ghost predicate Corresponds(d: Disk, plan: seq<Write>, k: nat, n: nat, i: nat) {
    && k <= |plan|
    && forall f: File :: Index(f) >= i ==>
         && (Replace(f, Active, Prev) in plan[..k] <==> !Same(d, f) && n >= 2 * Index(f) + 1)
         && (Replace(f, Next, Active) in plan[..k] <==> !Same(d, f) && n >= 2 * Index(f) + 2)
  }

  lemma {:induction false} PlanMentions(d: Disk, i: nat, w: Write)
    requires w in PlanFrom(d, i)
    ensures w.Replace? && Index(w.file) >= i
    decreases 4 - i
  {
    if i < 4 && w !in FilePlan(d, FILES[i]) { PlanMentions(d, i + 1, w); }
  }

  lemma HalfStep(d: Disk, i: nat)
    requires i < 4 && Present(d)
    ensures Same(d, FILES[i]) ==> Halfway(d, 2 * i) == Halfway(d, 2 * i + 2)
    ensures !Same(d, FILES[i]) ==>
      && Replaced(Halfway(d, 2 * i), FILES[i], Active, Prev) == Halfway(d, 2 * i + 1)
      && Replaced(Halfway(d, 2 * i + 1), FILES[i], Next, Active) == Halfway(d, 2 * i + 2)
  {
  }

  /** How many half steps the first `k` writes from file `i` on amount to. */
  function HalfSteps(d: Disk, i: nat, k: nat): (n: nat)
    requires i <= 4
    ensures 2 * i <= n <= 8
    decreases 4 - i
  {
    if i == 4 then 8
    else if Same(d, FILES[i]) then HalfSteps(d, i + 1, k)
    else if k < 2 then 2 * i + k
    else HalfSteps(d, i + 1, k - 2)
  }

  lemma {:induction false} AllHalfSteps(d: Disk, i: nat)
    requires i <= 4
    ensures HalfSteps(d, i, |PlanFrom(d, i)|) == 8
    decreases 4 - i
  {
    if i < 4 { AllHalfSteps(d, i + 1); }
  }

  /** The plan and the half steps at one file. */
  lemma PlanAt(d: Disk, i: nat)
    requires i < 4
    ensures Same(d, FILES[i]) ==>
      PlanFrom(d, i) == PlanFrom(d, i + 1) && forall k: nat :: HalfSteps(d, i, k) == HalfSteps(d, i + 1, k)
    ensures !Same(d, FILES[i]) ==>
      && PlanFrom(d, i) == [Replace(FILES[i], Active, Prev)] + ([Replace(FILES[i], Next, Active)] + PlanFrom(d, i + 1))
      && forall k: nat :: HalfSteps(d, i, k) == if k < 2 then 2 * i + k else HalfSteps(d, i + 1, k - 2)
  {
  }

  lemma TwoWrites(s: Sys, a: Write, b: Write, rest: seq<Write>, k: nat)
    ensures Cut(s, [a] + ([b] + rest), k) ==
      if k == 0 then s else if k == 1 then Apply(s, a) else Cut(Apply(Apply(s, a), b), rest, k - 2)
  {
    CutCons(s, a, [b] + rest, k);
    if k > 0 { CutCons(Apply(s, a), b, rest, k - 1); }
  }

  lemma {:induction false} PrefixIsHalfway(s: Sys, i: nat, k: nat)
    requires Present(s.disk) && i <= 4 && k <= |PlanFrom(s.disk, i)|
    ensures Cut(s.(disk := Halfway(s.disk, 2 * i)), PlanFrom(s.disk, i), k)
         == s.(disk := Halfway(s.disk, HalfSteps(s.disk, i, k)))
    decreases 4 - i
  {
    if i < 4 {
      var d, f := s.disk, FILES[i];
      var s0, rest := s.(disk := Halfway(d, 2 * i)), PlanFrom(d, i + 1);
      HalfStep(d, i);
      PlanAt(d, i);
      if Same(d, f) {
        PrefixIsHalfway(s, i + 1, k);
      } else {
        var keep, install := Replace(f, Active, Prev), Replace(f, Next, Active);
        TwoWrites(s0, keep, install, rest, k);
        if k > 1 { PrefixIsHalfway(s, i + 1, k - 2); }
      }
    }
  }

  lemma {:induction false} PrefixCorresponds(d: Disk, i: nat, k: nat)
    requires i <= 4 && k <= |PlanFrom(d, i)|
    ensures Corresponds(d, PlanFrom(d, i), k, HalfSteps(d, i, k), i)
    decreases 4 - i
  {
    if i < 4 {
      var f, plan, rest := FILES[i], PlanFrom(d, i), PlanFrom(d, i + 1);
      PlanAt(d, i);
      if Same(d, f) {
        PrefixCorresponds(d, i + 1, k);
        NoneWritten(d, i, k, HalfSteps(d, i + 1, k));
      } else {
        var keep, install := Replace(f, Active, Prev), Replace(f, Next, Active);
        if k < 2 {
          OneWritten(d, i, plan, k);
        } else {
          var n := HalfSteps(d, i + 1, k - 2);
          PrefixCorresponds(d, i + 1, k - 2);
          PrefixOfPlan(keep, install, rest, k);
          BothWritten(d, i, plan, k, n);
        }
      }
    }
  }

  lemma NoneWritten(d: Disk, i: nat, k: nat, n: nat)
    requires i < 4 && Same(d, FILES[i]) && Corresponds(d, PlanFrom(d, i + 1), k, n, i + 1)
    ensures Corresponds(d, PlanFrom(d, i + 1), k, n, i)
  {
    OnlyLater(d, i + 1, k);
    forall f: File | Index(f) == i ensures f == FILES[i] {}
  }

  lemma OneWritten(d: Disk, i: nat, plan: seq<Write>, k: nat)
    requires i < 4 && !Same(d, FILES[i]) && k < 2 && k <= |plan|
    requires |plan| >= 1 && plan[0] == Replace(FILES[i], Active, Prev)
    ensures Corresponds(d, plan, k, 2 * i + k, i)
  {
  }

  lemma BothWritten(d: Disk, i: nat, plan: seq<Write>, k: nat, n: nat)
    requires i < 4 && !Same(d, FILES[i]) && n >= 2 * i + 2
    requires 2 <= k <= |PlanFrom(d, i + 1)| + 2 && k <= |plan|
    requires plan[..k] == [Replace(FILES[i], Active, Prev), Replace(FILES[i], Next, Active)]
      + PlanFrom(d, i + 1)[..k - 2]
    requires Corresponds(d, PlanFrom(d, i + 1), k - 2, n, i + 1)
    ensures Corresponds(d, plan, k, n, i)
  {
    forall f: File | Index(f) >= i
      ensures Replace(f, Active, Prev) in plan[..k] <==> !Same(d, f) && n >= 2 * Index(f) + 1
      ensures Replace(f, Next, Active) in plan[..k] <==> !Same(d, f) && n >= 2 * Index(f) + 2
    {
      if f == FILES[i] {
        assert plan[..k][0] == Replace(f, Active, Prev) && plan[..k][1] == Replace(f, Next, Active);
      } else {
        assert Index(f) >= i + 1;
      }
    }
  }

  lemma OnlyLater(d: Disk, i: nat, k: nat)
    requires k <= |PlanFrom(d, i)|
    ensures forall f: File, a: Slot, b: Slot :: Index(f) < i ==> Replace(f, a, b) !in PlanFrom(d, i)[..k]
  {
    forall f: File, a: Slot, b: Slot | Replace(f, a, b) in PlanFrom(d, i)[..k] ensures Index(f) >= i {
      PlanMentions(d, i, Replace(f, a, b));
    }
  }

  lemma PrefixOfPlan(keep: Write, install: Write, rest: seq<Write>, k: nat)
    requires 2 <= k <= |rest| + 2
    ensures ([keep] + ([install] + rest))[..k] == [keep, install] + rest[..k - 2]
  {
  }

  // --- Safety of every prefix ---

  /** Promotion may start: the installed release is active, the candidate is next, both are
      genuine, and neither is below the anti-rollback counter. */
  ghost predicate Ready(pf: Platform, s: Sys, old_: Release, new_: Release) {
    && SignaturesBind(pf) && Genuine(pf, old_) && Genuine(pf, new_)
    && Holds(s.disk, Active, old_) && Holds(s.disk, Next, new_)
    && AboveFloor(pf, s.counter, old_.uki) && AboveFloor(pf, s.counter, new_.uki)
  }

  /** After write `k` the candidate's image is the active one and the signature of the
      previous slot has not been refreshed yet. */
  predicate InWindow(plan: seq<Write>, k: nat)
    requires k <= |plan|
  {
    Replace(KcImage, Next, Active) in plan[..k] && Replace(KcSig, Active, Prev) !in plan[..k]
  }

  lemma ReadyPreflight(pf: Platform, s: Sys, old_: Release, new_: Release)
    requires Ready(pf, s, old_, new_)
    ensures Preflight(s.disk) && Present(s.disk)
  {
  }

  /** At every prefix the trial cascade boots the candidate, and the stable cascade boots the
      old or the new release unless the prefix lies in the window -- where it does exactly
      when the previous slot's signature already was the installed release's. */
  lemma PrefixSafe(pf: Platform, s: Sys, old_: Release, new_: Release, k: nat)
    requires Ready(pf, s, old_, new_) && k <= |Plan(s.disk)|
    ensures var t := Cut(s, Plan(s.disk), k);
      && BootsInto(pf, t.disk, s.counter, TrialCascade, new_)
      && ((BootsInto(pf, t.disk, s.counter, StableCascade, old_)
           || BootsInto(pf, t.disk, s.counter, StableCascade, new_))
          <==> (InWindow(Plan(s.disk), k) ==>
                  s.disk.kcSig.prev.Some? && pf.valid(old_.uki, s.disk.kcSig.prev.value)))
  {
    ReadyPreflight(pf, s, old_, new_);
    var n := HalfSteps(s.disk, 0, k);
    PrefixIsHalfway(s, 0, k);
    PrefixCorresponds(s.disk, 0, k);
    assert Halfway(s.disk, 0) == s.disk;
    TrialSafe(pf, s, old_, new_, n);
    StableSafe(pf, s, old_, new_, n);
    WindowAt(s.disk, k, n);
    SameByContent(pf, s, old_, new_);
  }

  lemma WindowAt(d: Disk, k: nat, n: nat)
    requires k <= |PlanFrom(d, 0)| && Corresponds(d, PlanFrom(d, 0), k, n, 0)
    ensures InWindow(PlanFrom(d, 0), k) <==> !Same(d, KcImage) && n >= 6 && !(!Same(d, KcSig) && n >= 7)
  {
    assert Index(KcImage) == 2 && Index(KcSig) == 3;
  }

  /** Two genuine releases share a signature only if they share the image. */
  lemma SameByContent(pf: Platform, s: Sys, old_: Release, new_: Release)
    requires Ready(pf, s, old_, new_)
    ensures Same(s.disk, KcImage) <==> old_.uki == new_.uki
    ensures Same(s.disk, KcSig) ==> Same(s.disk, KcImage)
  {
  }

  lemma TrialSafe(pf: Platform, s: Sys, old_: Release, new_: Release, n: nat)
    requires Ready(pf, s, old_, new_) && n <= 8
    ensures BootsInto(pf, Halfway(s.disk, n), s.counter, TrialCascade, new_)
  {
    var t := s.(disk := Halfway(s.disk, n));
    assert t.disk.Content(RootImage, Next) == Some(new_.image);
    assert t.disk.Content(RootTree, Next) == Some(new_.tree);
    assert Chainloads(pf, t.disk, s.counter, Os(Next));
  }

  lemma RootsStay(pf: Platform, s: Sys, old_: Release, new_: Release, n: nat)
    requires Ready(pf, s, old_, new_) && n <= 8
    ensures n < 8 ==> RootFound(pf, Halfway(s.disk, n), old_.id.hash)
    ensures RootFound(pf, Halfway(s.disk, n), new_.id.hash)
  {
    var d, e := s.disk, Halfway(s.disk, n);
    assert e.Content(RootImage, Next) == Some(new_.image) && e.Content(RootTree, Next) == Some(new_.tree);
    assert e.Content(RootImage, if n < 1 then Active else Prev) == Some(old_.image)
      || e.Content(RootImage, Active) == Some(old_.image);
    assert e.Content(RootTree, if n < 3 then Active else Prev) == Some(old_.tree)
      || e.Content(RootTree, Active) == Some(old_.tree);
  }

  lemma StableSafe(pf: Platform, s: Sys, old_: Release, new_: Release, n: nat)
    requires Ready(pf, s, old_, new_) && n <= 8
    ensures var t := s.(disk := Halfway(s.disk, n));
      (BootsInto(pf, t.disk, s.counter, StableCascade, old_) || BootsInto(pf, t.disk, s.counter, StableCascade, new_))
      <==> (n == 6 && old_.uki != new_.uki ==>
             s.disk.kcSig.prev.Some? && pf.valid(old_.uki, s.disk.kcSig.prev.value))
  {
    var t := s.(disk := Halfway(s.disk, n));
    StableChoice(pf, t.disk, s.counter);
    RootsStay(pf, s, old_, new_, n);
    if old_.uki == new_.uki || n < 6 || n == 8 {
      assert Chainloads(pf, t.disk, s.counter, Os(Active));
    } else {
      assert t.disk.kcImage.active == Some(new_.uki) && t.disk.kcSig.active == Some(old_.sig);
      assert !Chainloads(pf, t.disk, s.counter, Os(Active));
      assert t.disk.kcImage.prev == Some(old_.uki);
      assert t.disk.kcSig.prev == if n == 6 then s.disk.kcSig.prev else Some(old_.sig);
    }
  }

  // --- Resumption ---

  /** Promotion attempted once per cut, each attempt replanned from what the last one left,
      and finally run to the end. */
  function Retried(s: Sys, cuts: seq<nat>): Sys
    decreases |cuts|
  {
    if cuts == [] then Exec(s, Plan(s.disk)) else Retried(Cut(s, Plan(s.disk), cuts[0]), cuts[1..])
  }

  lemma CutIsHalfway(s: Sys, k: nat) returns (n: nat)
    requires Preflight(s.disk)
    ensures n <= 8 && Cut(s, Plan(s.disk), k) == s.(disk := Halfway(s.disk, n))
    ensures k >= |Plan(s.disk)| ==> n == 8
  {
    PreflightPresent(s.disk);
    var plan := Plan(s.disk);
    assert Halfway(s.disk, 0) == s.disk;
    var j := Min(k, |plan|);
    n := HalfSteps(s.disk, 0, j);
    PrefixIsHalfway(s, 0, j);
    AllHalfSteps(s.disk, 0);
    assert plan + [] == plan;
    CutAppend(s, plan, [], k);
  }

  lemma HalfwayResumes(d: Disk, n: nat)
    requires Preflight(d) && n <= 8
    ensures Preflight(Halfway(d, n)) && Halfway(Halfway(d, n), 8) == Halfway(d, 8)
  {
    PreflightPresent(d);
    var e := Halfway(d, n);
    forall f: File ensures NonEmpty(e, f, Next) && NonEmpty(e, f, Active) {
      assert NonEmpty(d, f, Next) && NonEmpty(d, f, Active);
      assert e.Content(f, Next) == d.Content(f, Next);
      assert e.Content(f, Active) == d.Content(f, Active) || e.Content(f, Active) == d.Content(f, Next);
    }
  }

  /** However often it is interrupted, a completed promotion ends as an uninterrupted one. */
  lemma {:induction false} PromotionResumes(s: Sys, cuts: seq<nat>)
    requires Preflight(s.disk)
    ensures Retried(s, cuts) == Exec(s, Plan(s.disk)) == s.(disk := Halfway(s.disk, 8))
    decreases |cuts|
  {
    var m := CutIsHalfway(s, |Plan(s.disk)|);
    if cuts != [] {
      var n := CutIsHalfway(s, cuts[0]);
      HalfwayResumes(s.disk, n);
      PromotionResumes(s.(disk := Halfway(s.disk, n)), cuts[1..]);
    }
  }

  /** Then every active file is the staged one, and every previous file is the one that was
      active -- except for a file whose active already was the staged one, which keeps its
      previous file. */
  lemma PromotedFiles(s: Sys, cuts: seq<nat>, f: File)
    requires Preflight(s.disk)
    ensures var d, e := s.disk, Retried(s, cuts).disk;
      && e.Content(f, Active) == e.Content(f, Next) == d.Content(f, Next)
      && e.Content(f, Prev) == (if Same(d, f) then d.Content(f, Prev) else d.Content(f, Active))
  {
    PromotionResumes(s, cuts);
    PreflightPresent(s.disk);
  }

  /** Replacing a staged file never reaches another slot, although promotion left the active
      rootfs and the staged one as two names of the same inode. */
  lemma StagingStaysInNext(d: Disk, f: File, bytes: Bytes, g: File, slot: Slot)
    requires d.Linked()
    ensures Installed(d, f, bytes).Linked()
    ensures Installed(d, f, bytes).Content(g, slot) ==
      if g == f && slot == Next then Some(bytes) else d.Content(g, slot)
  {
    var e := Installed(d, f, bytes);
    assert d.rootImage.At(slot).Some? ==> d.rootImage.At(slot).value in d.inodes;
    assert d.rootTree.At(slot).Some? ==> d.rootTree.At(slot).value in d.inodes;
    forall s: Slot
      ensures e.rootImage.At(s).Some? ==> e.rootImage.At(s).value in e.inodes
      ensures e.rootTree.At(s).Some? ==> e.rootTree.At(s).value in e.inodes
    {
      assert d.rootImage.At(s).Some? ==> d.rootImage.At(s).value in d.inodes;
      assert d.rootTree.At(s).Some? ==> d.rootTree.At(s).value in d.inodes;
    }
  }

  // --- What the hypotheses are for ---

  /** dm-verity opens this release's own image with its own tree, and nothing else. */
  ghost predicate OpensOnly(pf: Platform, r: Release) {
    forall i, t :: pf.opens(i, t, r.id.hash) <==> i == r.image && t == r.tree
  }

  /** These contents are still in some slot when promotion has dealt with the file. */
  predicate Survives(d: Disk, f: File, bytes: Bytes) {
    d.Content(f, Next) == Some(bytes) || d.Content(f, if Same(d, f) then Prev else Active) == Some(bytes)
  }

  /** Promotion installs whatever is staged. With a candidate's kernelcache staged, the stable
      cascade boots the candidate afterwards exactly when its rootfs pair survives -- which a
      later staging that was aborted after replacing the rootfs files prevents. */
  lemma PromotedBoots(pf: Platform, s: Sys, r: Release)
    requires Preflight(s.disk) && Genuine(pf, r) && OpensOnly(pf, r) && AboveFloor(pf, s.counter, r.uki)
    requires s.disk.Content(KcImage, Next) == Some(r.uki) && s.disk.Content(KcSig, Next) == Some(r.sig)
    ensures BootsInto(pf, Exec(s, Plan(s.disk)).disk, s.counter, StableCascade, r)
      <==> Survives(s.disk, RootImage, r.image) && Survives(s.disk, RootTree, r.tree)
  {
    PreflightPresent(s.disk);
    var n := CutIsHalfway(s, |Plan(s.disk)|);
    var d, e := s.disk, Halfway(s.disk, 8);
    StableChoice(pf, e, s.counter);
    assert e.Content(KcImage, Active) == Some(r.uki) && e.Content(KcSig, Active) == Some(r.sig);
    assert Chainloads(pf, e, s.counter, Os(Active));
    forall f: File, bytes | f == RootImage || f == RootTree
      ensures Survives(d, f, bytes) <==> exists x: Slot :: e.Content(f, x) == Some(bytes)
    {
      assert e.Content(f, Next) == d.Content(f, Next) == e.Content(f, Active);
      assert e.Content(f, Prev) == d.Content(f, if Same(d, f) then Prev else Active);
    }
  }

  /** What the slots of one rootfs file hold after `m` of its two writes. */
  predicate Held(d: Disk, f: File, m: int, bytes: Bytes) {
    || d.Content(f, Next) == Some(bytes)
    || d.Content(f, if m <= 0 || !Same(d, f) then Active else Prev) == Some(bytes)
    || (m <= 0 && d.Content(f, Prev) == Some(bytes))
  }

  lemma HeldSlots(d: Disk, f: File, n: nat, bytes: Bytes)
    requires Present(d) && (f == RootImage || f == RootTree)
    ensures var m := n - 2 * Index(f);
      (exists x: Slot :: Halfway(d, n).Content(f, x) == Some(bytes)) <==> Held(d, f, m, bytes)
  {
    var e, m := Halfway(d, n), n - 2 * Index(f);
    assert e.Content(f, Next) == d.Content(f, Next);
    if m <= 0 || Same(d, f) {
      assert e.Content(f, Active) == d.Content(f, Active) && e.Content(f, Prev) == d.Content(f, Prev);
      assert Same(d, f) ==> d.Content(f, Active) == d.Content(f, Next);
    } else {
      assert e.Content(f, Prev) == d.Content(f, Active);
      assert e.Content(f, Active) == d.Content(f, if m == 1 then Active else Next);
    }
  }

  /** Until its kernelcache is replaced the installed release is what the stable cascade starts,
      and it boots exactly when some slot still holds its image and some slot its tree. */
  lemma RootAt(pf: Platform, d: Disk, floor: nat, r: Release, n: nat)
    requires Present(d) && n < 6 && Genuine(pf, r) && OpensOnly(pf, r) && AboveFloor(pf, floor, r.uki)
    requires d.Content(KcImage, Active) == Some(r.uki) && d.Content(KcSig, Active) == Some(r.sig)
    ensures Chosen(pf, Halfway(d, n), floor, StableCascade) == Some(Os(Active))
    ensures ImageOf(Halfway(d, n), Os(Active)) == Some(r.uki)
    ensures RootFound(pf, Halfway(d, n), r.id.hash)
      <==> Held(d, RootImage, n, r.image) && Held(d, RootTree, n - 2, r.tree)
    ensures BootsInto(pf, Halfway(d, n), floor, StableCascade, r)
      <==> Held(d, RootImage, n, r.image) && Held(d, RootTree, n - 2, r.tree)
  {
    var e := Halfway(d, n);
    StableChoice(pf, e, floor);
    assert e.Content(KcImage, Active) == Some(r.uki) && e.Content(KcSig, Active) == Some(r.sig);
    assert Chainloads(pf, e, floor, Os(Active));
    HeldSlots(d, RootImage, n, r.image);
    HeldSlots(d, RootTree, n, r.tree);
  }

  /** Every prefix of a promotion up to the kernelcache keeps the installed release bootable from
      the stable cascade exactly when its rootfs pair survives the promotion -- whether or not a
      file is skipped because active already is next. */
  lemma PrefixesKeepRoot(pf: Platform, d: Disk, floor: nat, r: Release)
    requires Present(d) && Genuine(pf, r) && OpensOnly(pf, r) && AboveFloor(pf, floor, r.uki)
    requires d.Content(KcImage, Active) == Some(r.uki) && d.Content(KcSig, Active) == Some(r.sig)
    ensures (forall n: nat :: n < 6 ==> BootsInto(pf, Halfway(d, n), floor, StableCascade, r))
      <==> Survives(d, RootImage, r.image) && Survives(d, RootTree, r.tree)
  {
    RootAt(pf, d, floor, r, 4);
    if Survives(d, RootImage, r.image) && Survives(d, RootTree, r.tree) {
      forall n: nat | n < 6 ensures BootsInto(pf, Halfway(d, n), floor, StableCascade, r) {
        RootAt(pf, d, floor, r, n);
        SurvivorHeld(d, RootImage, n, r.image);
        SurvivorHeld(d, RootTree, n - 2, r.tree);
      }
    } else {
      assert !BootsInto(pf, Halfway(d, 4), floor, StableCascade, r);
    }
  }

  lemma SurvivorHeld(d: Disk, f: File, m: int, bytes: Bytes)
    ensures Survives(d, f, bytes) ==> Held(d, f, m, bytes)
    ensures m > 0 ==> (Survives(d, f, bytes) <==> Held(d, f, m, bytes))
  {
  }

  /** The number of writes that deal with the rootfs. */
  function RootWrites(d: Disk): nat { |FilePlan(d, RootImage)| + |FilePlan(d, RootTree)| }

  lemma RootWritesReach(d: Disk)
    requires !Same(d, KcImage)
    ensures RootWrites(d) <= |PlanFrom(d, 0)| && HalfSteps(d, 0, RootWrites(d)) == 4
  {
    PlanAt(d, 0);
    PlanAt(d, 1);
    PlanAt(d, 2);
  }

  predicate KernelInstalled(plan: seq<Write>, k: nat)
    requires k <= |plan|
  {
    Replace(KcImage, Next, Active) in plan[..k]
  }

  /** The same over the writes of the plan, for a candidate with a kernelcache of its own. */
  lemma WritesKeepRoot(pf: Platform, s: Sys, r: Release)
    requires Preflight(s.disk) && !Same(s.disk, KcImage)
    requires Genuine(pf, r) && OpensOnly(pf, r) && AboveFloor(pf, s.counter, r.uki)
    requires s.disk.Content(KcImage, Active) == Some(r.uki) && s.disk.Content(KcSig, Active) == Some(r.sig)
    ensures (forall k: nat :: k <= |Plan(s.disk)| && !KernelInstalled(Plan(s.disk), k) ==>
              BootsInto(pf, Cut(s, Plan(s.disk), k).disk, s.counter, StableCascade, r))
      <==> Survives(s.disk, RootImage, r.image) && Survives(s.disk, RootTree, r.tree)
  {
    PreflightPresent(s.disk);
    PrefixesKeepRoot(pf, s.disk, s.counter, r);
    assert Halfway(s.disk, 0) == s.disk;
    forall k: nat | k <= |Plan(s.disk)|
      ensures Cut(s, Plan(s.disk), k).disk == Halfway(s.disk, HalfSteps(s.disk, 0, k))
      ensures KernelInstalled(Plan(s.disk), k) <==> HalfSteps(s.disk, 0, k) >= 6
    {
      PrefixIsHalfway(s, 0, k);
      PrefixCorresponds(s.disk, 0, k);
      assert Index(KcImage) == 2;
    }
    RootWritesReach(s.disk);
    RootAt(pf, s.disk, s.counter, r, 4);
    assert !KernelInstalled(Plan(s.disk), RootWrites(s.disk));
  }

  /** The stable cascade starts this release's kernel and finds no root for it. */
  ghost predicate StartsWithoutRoot(pf: Platform, s: Sys, r: Release) {
    && Chosen(pf, s.disk, s.counter, StableCascade) == Some(Os(Active))
    && ImageOf(s.disk, Os(Active)) == Some(r.uki) && !RootFound(pf, s.disk, r.id.hash)
  }

  /** A disk on which the installed release's rootfs image is left in the previous slot only: the
      first write of a promotion overwrites it, so from there the stable cascade starts a kernel
      without a root. */
  lemma LeftoverLosesRoot(pf: Platform, s: Sys, r: Release)
    requires Preflight(s.disk) && Genuine(pf, r) && OpensOnly(pf, r) && AboveFloor(pf, s.counter, r.uki)
    requires s.disk.Content(KcImage, Active) == Some(r.uki) && s.disk.Content(KcSig, Active) == Some(r.sig)
    requires !Same(s.disk, RootImage) && !Survives(s.disk, RootImage, r.image)
    ensures StartsWithoutRoot(pf, Cut(s, Plan(s.disk), 1), r)
  {
    PreflightPresent(s.disk);
    PrefixIsHalfway(s, 0, 1);
    assert Halfway(s.disk, 0) == s.disk;
    PlanAt(s.disk, 0);
    RootAt(pf, s.disk, s.counter, r, 1);
    SurvivorHeld(s.disk, RootImage, 1, r.image);
  }
}
