/** internal/otad/slots.go: promotion of the staged slots. The plan of writes is read off
    the disk; the methods make those writes in the source's own loops. */
module PromoteSlots {
  import opened Common
  import opened Device
  import Plans

  const FILES := [RootImage, RootTree, KcImage, KcSig]

  predicate NonEmpty(d: Disk, file: File, slot: Slot) {
    var c := d.Content(file, slot);
    c.Some? && c.value != ""
  }

  /** preflightSlots accepts exactly the disks whose next and active slots are complete. */
  predicate Preflight(d: Disk) {
    forall f: File :: NonEmpty(d, f, Next) && NonEmpty(d, f, Active)
  }

  /** Whether active already is next: by inode for the rootfs, by contents on the ESP. */
  predicate Same(d: Disk, file: File) {
    match file
    case RootImage => d.rootImage.active.Some? && d.rootImage.active == d.rootImage.next
    case RootTree => d.rootTree.active.Some? && d.rootTree.active == d.rootTree.next
    case KcImage => d.kcImage.active.Some? && d.kcImage.active == d.kcImage.next
    case KcSig => d.kcSig.active.Some? && d.kcSig.active == d.kcSig.next
  }

  function FilePlan(d: Disk, file: File): seq<Write> {
    if Same(d, file) then [] else [Replace(file, Active, Prev), Replace(file, Next, Active)]
  }

  /** The writes left when the loop has reached file `i`. */
  function PlanFrom(d: Disk, i: nat): seq<Write>
    decreases 4 - i
  {
    if i >= 4 then [] else FilePlan(d, FILES[i]) + PlanFrom(d, i + 1)
  }

  function Plan(d: Disk): seq<Write> { if Preflight(d) then PlanFrom(d, 0) else [] }

  method PreflightSlots(d: Disk) returns (ok: bool)
    ensures ok == Preflight(d)
    ensures ok <==> forall f: File ::
      && d.Content(f, Next).Some? && d.Content(f, Next).value != ""
      && d.Content(f, Active).Some? && d.Content(f, Active).value != ""
  {
    var groups := [[RootImage, RootTree], [KcImage, KcSig]];
    for g := 0 to 2
      invariant forall h, i :: 0 <= h < g && 0 <= i < 2 ==>
        NonEmpty(d, groups[h][i], Next) && NonEmpty(d, groups[h][i], Active)
    {
      var staged := 0;
      for i := 0 to 2
        invariant 0 <= staged <= i
        invariant staged == 0 ==> forall k :: 0 <= k < i ==> !NonEmpty(d, groups[g][k], Next)
      {
        if NonEmpty(d, groups[g][i], Next) { staged := staged + 1; }
      }
      if staged == 0 {
        assert !NonEmpty(d, groups[g][0], Next);
        return false;
      }
      for i := 0 to 2
        invariant forall k :: 0 <= k < i ==>
          NonEmpty(d, groups[g][k], Next) && NonEmpty(d, groups[g][k], Active)
      {
        if !NonEmpty(d, groups[g][i], Next) { return false; }
        if !NonEmpty(d, groups[g][i], Active) { return false; }
      }
    }
    forall f: File
      ensures NonEmpty(d, f, Next) && NonEmpty(d, f, Active)
      ensures d.Content(f, Next).Some? && d.Content(f, Next).value != ""
      ensures d.Content(f, Active).Some? && d.Content(f, Active).value != ""
    {
      match f
      case RootImage => assert groups[0][0] == f;
      case RootTree => assert groups[0][1] == f;
      case KcImage => assert groups[1][0] == f;
      case KcSig => assert groups[1][1] == f;
    }
    return true;
  }

  /** The body of the promotion loop for one file. */
  method PromoteFile(m: Machine, f: File) returns (ok: bool)
    requires m.apply == Apply
    modifies m
    ensures Performed(old(m.state), old(m.power), FilePlan(old(m.state).disk, f), m.state, m.power, ok)
    ensures ok ==> forall g: File :: g != f ==> Untouched(old(m.state).disk, m.state.disk, g)
  {
    if Same(m.state.disk, f) { return true; }
    var keep, install := Replace(f, Active, Prev), Replace(f, Next, Active);
    ghost var s0, p0 := m.state, m.power;
    ok := m.Do(keep);
    assert [keep, install] == [keep] + [install];
    if !ok { Plans.PerformedCut(Apply, s0, p0, [keep], [install], m.state, m.power); return; }
    ghost var s1, p1 := m.state, m.power;
    ok := m.Do(install);
    Plans.PerformedThen(Apply, s0, p0, [keep], s1, p1, [install], m.state, m.power, ok);
  }

  /** PromoteSlots refuses an incomplete disk untouched, and otherwise makes the planned
      writes, stopping where the power ends. */
  method Promote(m: Machine) returns (ok: bool)
    requires m.apply == Apply
    modifies m
    ensures !Preflight(old(m.state).disk) ==> !ok && m.state == old(m.state) && m.power == old(m.power)
    ensures Preflight(old(m.state).disk) ==>
      Performed(old(m.state), old(m.power), Plan(old(m.state).disk), m.state, m.power, ok)
  {
    ok := PreflightSlots(m.state.disk);
    if !ok { return; }
    ghost var s0, p0 := m.state, m.power;
    ghost var done: seq<Write> := [];
    for i := 0 to 4
      invariant ok && Midway(s0, p0, done, m.state, m.power, i)
    {
      ghost var s1, p1 := m.state, m.power;
      ok := PromoteFile(m, FILES[i]);
      LoopStep(s0, p0, done, s1, p1, i, m.state, m.power, ok);
      if !ok { return; }
      done := done + FilePlan(s1.disk, FILES[i]);
    }
    assert done == done + PlanFrom(m.state.disk, 4);
  }

  /** The promotion loop at file `i`: `done` of the plan is written, the rest still holds. */
  ghost predicate Midway(s0: Sys, p0: nat, done: seq<Write>, s: Sys, p: nat, i: nat) {
    && Performed(s0, p0, done, s, p, true)
    && done + PlanFrom(s.disk, i) == PlanFrom(s0.disk, 0)
  }

  lemma LoopStep(s0: Sys, p0: nat, done: seq<Write>, s1: Sys, p1: nat, i: nat, s2: Sys, p2: nat, ok: bool)
    requires i < 4 && Midway(s0, p0, done, s1, p1, i)
    requires Performed(s1, p1, FilePlan(s1.disk, FILES[i]), s2, p2, ok)
    requires ok ==> forall g: File :: g != FILES[i] ==> Untouched(s1.disk, s2.disk, g)
    ensures ok ==> Midway(s0, p0, done + FilePlan(s1.disk, FILES[i]), s2, p2, i + 1)
    ensures !ok ==> Performed(s0, p0, PlanFrom(s0.disk, 0), s2, p2, false)
  {
    var step, rest := FilePlan(s1.disk, FILES[i]), PlanFrom(s1.disk, i + 1);
    Plans.PerformedThen(Apply, s0, p0, done, s1, p1, step, s2, p2, ok);
    assert PlanFrom(s1.disk, i) == step + rest;
    Associate(done, step, rest);
    if ok {
      PlanDepends(s1.disk, s2.disk, i + 1);
    } else {
      Plans.PerformedCut(Apply, s0, p0, done + step, rest, s2, p2);
    }
  }

  /** The name table of one file is as it was. */
  ghost predicate Untouched(d: Disk, e: Disk, file: File) {
    match file
    case RootImage => d.rootImage == e.rootImage
    case RootTree => d.rootTree == e.rootTree
    case KcImage => d.kcImage == e.kcImage
    case KcSig => d.kcSig == e.kcSig
  }

  lemma {:induction false} PlanDepends(d: Disk, e: Disk, i: nat)
    requires forall j :: i <= j < 4 ==> Untouched(d, e, FILES[j])
    ensures PlanFrom(d, i) == PlanFrom(e, i)
    decreases 4 - i
  {
    if i < 4 { PlanDepends(d, e, i + 1); }
  }
}
