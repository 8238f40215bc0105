/** internal/otad/recovery.go: the recovery kernelcache is replaced by renames of two files,
    and repaired on a later boot when the replacement was cut short. */
module Recovery {
  import opened Common
  import opened Directory
  import Plans
  import Device

  datatype Role = Current | Staged | Previous

  /** The names on the ESP: the recovery pair in its three roles, and the OS kernelcaches. */
  datatype Name = Recovery(role: Role, sig: bool) | Kernelcache(slot: Device.Slot, sig: bool)

  const CUR := Recovery(Current, false)
  const CUR_SIG := Recovery(Current, true)
  const NEXT := Recovery(Staged, false)
  const NEXT_SIG := Recovery(Staged, true)
  const PREV := Recovery(Previous, false)
  const PREV_SIG := Recovery(Previous, true)
  const KC_NEXT := Kernelcache(Device.Next, false)

  /** Hashes and signatures, as parameters. */
  datatype Checks = Checks(hashes: (Bytes, string) -> bool, valid: (Bytes, Bytes) -> bool)

  /** What the verified manifest offers and what its URLs deliver. */
  datatype Offer = Offer(carried: bool, image: Option<Bytes>, hash: string, sig: Option<Bytes>, sigHash: string)

  function Pair(d: Dir<Name>): (Option<Bytes>, Option<Bytes>) { (Lookup(d, CUR), Lookup(d, CUR_SIG)) }

  // --- The plans ---

  predicate Whole(d: Dir<Name>) { CUR in d && CUR_SIG in d }

  /** The repair puts the previous pair back. */
  predicate Restores(d: Dir<Name>) { !Whole(d) && PREV in d }

  function RepairPlan(d: Dir<Name>): seq<Op<Name>> {
    if Whole(d) then [Remove(PREV), Remove(PREV_SIG)]
    else if PREV !in d then []
    else [Rename(PREV, CUR), Rename(PREV_SIG, CUR_SIG)]
  }

  function Repaired(d: Dir<Name>): Dir<Name> { Exec(d, RepairPlan(d)) }

  const CLEAN: seq<Op<Name>> := [Remove(NEXT), Remove(NEXT_SIG)]
  const INSTALL: seq<Op<Name>> := [Rename(NEXT_SIG, CUR_SIG), Rename(NEXT, CUR), Remove(PREV), Remove(PREV_SIG)]

  function SwapPlan(d: Dir<Name>): seq<Op<Name>> {
    if CUR in d then [Rename(CUR, PREV), Rename(CUR_SIG, PREV_SIG)] + INSTALL else INSTALL
  }

  predicate SigGood(ck: Checks, o: Offer)
    requires o.image.Some?
  {
    o.sig.Some? && ck.hashes(o.sig.value, o.sigHash) && ck.valid(o.image.value, o.sig.value)
  }

  predicate Good(ck: Checks, o: Offer) { o.image.Some? && ck.hashes(o.image.value, o.hash) && SigGood(ck, o) }

  predicate IsCurrent(ck: Checks, d: Dir<Name>, o: Offer) { CUR in d && ck.hashes(d[CUR], o.hash) }

  function SigPlan(ck: Checks, d: Dir<Name>, o: Offer): seq<Op<Name>>
    requires o.image.Some?
  {
    if o.sig.None? then CLEAN
    else [Store(NEXT_SIG, o.sig.value)] + (if SigGood(ck, o) then SwapPlan(d) else CLEAN)
  }

  function FetchPlan(ck: Checks, d: Dir<Name>, o: Offer): seq<Op<Name>> {
    if o.image.None? then CLEAN
    else [Store(NEXT, o.image.value)]
         + (if ck.hashes(o.image.value, o.hash) then SigPlan(ck, d, o) else CLEAN)
  }

  /** Past the repair: nothing, or one fetch and swap. */
  function UpdatePlan(ck: Checks, d: Dir<Name>, o: Offer): seq<Op<Name>> {
    if !o.carried || IsCurrent(ck, d, o) then [] else [Remove(KC_NEXT)] + FetchPlan(ck, d, o)
  }

  predicate RepairFails(d: Dir<Name>) { Restores(d) && PREV_SIG !in d }

  function StagePlan(ck: Checks, d: Dir<Name>, pending: bool, o: Offer): seq<Op<Name>> {
    if pending then []
    else if RepairFails(d) then RepairPlan(d)
    else RepairPlan(d) + UpdatePlan(ck, Repaired(d), o)
  }

  /** After a repair: a current pair is kept and no previous one is left beside it; otherwise a
      previous image is put back, with its signature if that is there -- without one it fails. */
  predicate RepairEnds(d: Dir<Name>, t: Dir<Name>, failed: bool) {
    if CUR in d && CUR_SIG in d then t == d - {PREV, PREV_SIG} && !failed
    else if PREV !in d then t == d && !failed
    else
      && Lookup(t, CUR) == Some(d[PREV]) && PREV !in t && PREV_SIG !in t
      && Lookup(t, CUR_SIG) == (if PREV_SIG in d then Some(d[PREV_SIG]) else Lookup(d, CUR_SIG))
      && (failed <==> PREV_SIG !in d)
  }

  // --- The routines ---

  datatype Report = Interrupted | Failed | Done

  method RepairRecoverySlot(v: Volume<Name>) returns (r: Report)
    requires v.apply == Apply
    modifies v
    ensures Performed(old(v.state), old(v.power), RepairPlan(old(v.state)), v.state, v.power, r != Interrupted)
    ensures r != Interrupted ==>
      && (r == Failed <==> RepairFails(old(v.state))) && RepairEnds(old(v.state), v.state, r == Failed)
  {
    RepairCut(v.state, v.power);
    if CUR in v.state && CUR_SIG in v.state {
      var ok := v.DoAll([Remove(PREV), Remove(PREV_SIG)]);
      return if ok then Done else Interrupted;
    }
    if PREV !in v.state { return Done; }
    var missing := PREV_SIG !in v.state;
    var ok := v.DoAll([Rename(PREV, CUR), Rename(PREV_SIG, CUR_SIG)]);
    return if !ok then Interrupted else if missing then Failed else Done;
  }

  method Swap(v: Volume<Name>) returns (ok: bool)
    requires v.apply == Apply
    modifies v
    ensures Performed(old(v.state), old(v.power), SwapPlan(old(v.state)), v.state, v.power, ok)
  {
    ghost var d0, p0 := v.state, v.power;
    ghost var kept: seq<Op<Name>> := [];
    if CUR in v.state {
      kept := [Rename(CUR, PREV), Rename(CUR_SIG, PREV_SIG)];
      ok := v.DoAll([Rename(CUR, PREV), Rename(CUR_SIG, PREV_SIG)]);
      if !ok { Plans.PerformedCut(Apply, d0, p0, kept, INSTALL, v.state, v.power); return; }
    }
    ghost var d1, p1 := v.state, v.power;
    ghost var installs: seq<Op<Name>>, drops: seq<Op<Name>> :=
      [Rename(NEXT_SIG, CUR_SIG), Rename(NEXT, CUR)], [Remove(PREV), Remove(PREV_SIG)];
    assert INSTALL == installs + drops && kept + INSTALL == SwapPlan(d0);
    ok := v.DoAll([Rename(NEXT_SIG, CUR_SIG), Rename(NEXT, CUR)]);
    if !ok {
      Plans.PerformedCut(Apply, d1, p1, installs, drops, v.state, v.power);
    } else {
      ghost var d2, p2 := v.state, v.power;
      ok := v.DoAll([Remove(PREV), Remove(PREV_SIG)]);
      Plans.PerformedThen(Apply, d1, p1, installs, d2, p2, drops, v.state, v.power, ok);
    }
    Plans.PerformedThen(Apply, d0, p0, kept, d1, p1, INSTALL, v.state, v.power, ok);
  }

  lemma StoreKeepsPlan(d: Dir<Name>, bytes: Bytes, sig: bool)
    ensures SwapPlan(Apply(d, Store(Recovery(Staged, sig), bytes))) == SwapPlan(d)
  {
  }

  method FetchSignatureAndSwap(v: Volume<Name>, ck: Checks, o: Offer) returns (r: Report)
    requires o.image.Some?
    requires v.apply == Apply
    modifies v
    ensures Performed(old(v.state), old(v.power), SigPlan(ck, old(v.state), o), v.state, v.power, r != Interrupted)
    ensures r == Done ==> SigGood(ck, o)
    ensures r == Failed ==> !SigGood(ck, o)
  {
    if o.sig.None? {
      var ok := v.DoAll([Remove(NEXT), Remove(NEXT_SIG)]);
      return if ok then Failed else Interrupted;
    }
    ghost var d0, p0 := v.state, v.power;
    var store := Store(NEXT_SIG, o.sig.value);
    ghost var rest := if SigGood(ck, o) then SwapPlan(d0) else CLEAN;
    var ok := v.Do(store);
    if !ok { Plans.PerformedCut(Apply, d0, p0, [store], rest, v.state, v.power); return Interrupted; }
    ghost var d1, p1 := v.state, v.power;
    StoreKeepsPlan(d0, o.sig.value, true);
    if !ck.hashes(o.sig.value, o.sigHash) || !ck.valid(o.image.value, o.sig.value) {
      ok := v.DoAll([Remove(NEXT), Remove(NEXT_SIG)]);
      r := if ok then Failed else Interrupted;
    } else {
      ok := Swap(v);
      r := if ok then Done else Interrupted;
    }
    Plans.PerformedThen(Apply, d0, p0, [store], d1, p1, rest, v.state, v.power, r != Interrupted);
  }

  method FetchAndSwap(v: Volume<Name>, ck: Checks, o: Offer) returns (r: Report)
    requires v.apply == Apply
    modifies v
    ensures Performed(old(v.state), old(v.power), FetchPlan(ck, old(v.state), o), v.state, v.power, r != Interrupted)
    ensures r == Done ==> Good(ck, o)
    ensures r == Failed ==> !Good(ck, o)
  {
    if o.image.None? {
      var ok := v.DoAll([Remove(NEXT), Remove(NEXT_SIG)]);
      return if ok then Failed else Interrupted;
    }
    ghost var d0, p0 := v.state, v.power;
    var store := Store(NEXT, o.image.value);
    ghost var rest := if ck.hashes(o.image.value, o.hash) then SigPlan(ck, d0, o) else CLEAN;
    var ok := v.Do(store);
    if !ok { Plans.PerformedCut(Apply, d0, p0, [store], rest, v.state, v.power); return Interrupted; }
    ghost var d1, p1 := v.state, v.power;
    StoreKeepsPlan(d0, o.image.value, false);
    if !ck.hashes(o.image.value, o.hash) {
      ok := v.DoAll([Remove(NEXT), Remove(NEXT_SIG)]);
      r := if ok then Failed else Interrupted;
    } else {
      r := FetchSignatureAndSwap(v, ck, o);
    }
    Plans.PerformedThen(Apply, d0, p0, [store], d1, p1, rest, v.state, v.power, r != Interrupted);
  }

  /** StageRecovery. With a candidate pending it does nothing at all. */
  method StageRecovery(v: Volume<Name>, ck: Checks, pending: bool, o: Offer) returns (r: Report)
    requires v.apply == Apply
    modifies v
    ensures Performed(old(v.state), old(v.power), StagePlan(ck, old(v.state), pending, o), v.state, v.power,
      r != Interrupted)
    ensures pending ==> r == Failed && v.state == old(v.state)
    ensures r == Done ==>
      && !pending && !RepairFails(old(v.state)) && o.carried
      && (IsCurrent(ck, Repaired(old(v.state)), o) || Good(ck, o))
      && CUR in v.state && ck.hashes(v.state[CUR], o.hash)
    ensures r == Failed ==>
      || pending || RepairFails(old(v.state)) || !o.carried
      || (!IsCurrent(ck, Repaired(old(v.state)), o) && !Intact(ck, o))
  {
    if pending { return Failed; }
    ghost var d0, p0 := v.state, v.power;
    ghost var repair := RepairPlan(d0);
    r := RepairRecoverySlot(v);
    if r != Done {
      if r == Interrupted {
        Plans.PerformedCut(Apply, d0, p0, repair, UpdatePlan(ck, Repaired(d0), o), v.state, v.power);
      }
      return;
    }
    Plans.CutAppend(Apply, d0, repair, [], p0);
    ghost var d1, p1 := v.state, v.power;
    r := UpdateRecovery(v, ck, o);
    Plans.PerformedThen(Apply, d0, p0, repair, d1, p1, UpdatePlan(ck, d1, o), v.state, v.power, r != Interrupted);
  }

  /** Past the repair. */
  method UpdateRecovery(v: Volume<Name>, ck: Checks, o: Offer) returns (r: Report)
    requires v.apply == Apply
    modifies v
    ensures Performed(old(v.state), old(v.power), UpdatePlan(ck, old(v.state), o), v.state, v.power, r != Interrupted)
    ensures r == Done ==>
      && o.carried && (IsCurrent(ck, old(v.state), o) || Good(ck, o))
      && CUR in v.state && ck.hashes(v.state[CUR], o.hash)
    ensures r == Failed ==> !o.carried || (!IsCurrent(ck, old(v.state), o) && !Good(ck, o))
  {
    if !o.carried { return Failed; }
    if CUR in v.state && ck.hashes(v.state[CUR], o.hash) { return Done; }
    ghost var d1, p1, fetch := v.state, v.power, FetchPlan(ck, v.state, o);
    if Good(ck, o) { OfferedInPlace(ck, d1, o, p1); }
    var ok := v.Do(Remove(KC_NEXT));
    assert FetchPlan(ck, v.state, o) == fetch;
    if !ok {
      Plans.PerformedCut(Apply, d1, p1, [Remove(KC_NEXT)], fetch, v.state, v.power);
      return Interrupted;
    }
    ghost var d2, p2 := v.state, v.power;
    r := FetchAndSwap(v, ck, o);
    Plans.PerformedThen(Apply, d1, p1, [Remove(KC_NEXT)], d2, p2, fetch, v.state, v.power, r != Interrupted);
  }

  // --- The swap and its repair ---

  /** No repair outstanding, and a recovery image, if there is one, has its own signature. */
  predicate Idle(ck: Checks, d: Dir<Name>) {
    PREV !in d && PREV_SIG !in d && (CUR in d ==> Bootable(ck, d))
  }

  predicate Bootable(ck: Checks, d: Dir<Name>) { CUR in d && CUR_SIG in d && ck.valid(d[CUR], d[CUR_SIG]) }

  /** The swap after `p` operations, from the position where the old pair is out of the way. */
  lemma InstallCut(d: Dir<Name>, p: nat)
    requires NEXT in d && NEXT_SIG in d
    ensures var t := Cut(d, INSTALL, p);
      && Lookup(t, CUR_SIG) == (if p >= 1 then Some(d[NEXT_SIG]) else Lookup(d, CUR_SIG))
      && Lookup(t, CUR) == (if p >= 2 then Some(d[NEXT]) else Lookup(d, CUR))
      && Lookup(t, PREV) == (if p >= 3 then None else Lookup(d, PREV))
      && Lookup(t, PREV_SIG) == (if p >= 4 then None else Lookup(d, PREV_SIG))
      && (p >= 2 ==> NEXT !in t && NEXT_SIG !in t)
  {
    var a, b, c, e := Rename(NEXT_SIG, CUR_SIG), Rename(NEXT, CUR), Remove(PREV), Remove(PREV_SIG);
    assert INSTALL == [a] + ([b] + ([c] + ([e] + [])));
    Plans.CutCons(Apply, d, a, [b] + ([c] + ([e] + [])), p);
    if p >= 1 {
      var d1 := Apply(d, a);
      Plans.CutCons(Apply, d1, b, [c] + ([e] + []), p - 1);
      if p >= 2 {
        var d2 := Apply(d1, b);
        Plans.CutCons(Apply, d2, c, [e] + [], p - 2);
        if p >= 3 { Plans.CutCons(Apply, Apply(d2, c), e, [], p - 3); }
      }
    }
  }

  lemma SwapCut(d: Dir<Name>, p: nat)
    requires CUR in d
    ensures Cut(d, SwapPlan(d), p) ==
      if p == 0 then d
      else if p == 1 then Apply(d, Rename(CUR, PREV))
      else Cut(Apply(Apply(d, Rename(CUR, PREV)), Rename(CUR_SIG, PREV_SIG)), INSTALL, p - 2)
  {
    var a, b := Rename(CUR, PREV), Rename(CUR_SIG, PREV_SIG);
    assert SwapPlan(d) == [a] + ([b] + INSTALL);
    Plans.CutCons(Apply, d, a, [b] + INSTALL, p);
    if p >= 1 { Plans.CutCons(Apply, Apply(d, a), b, INSTALL, p - 1); }
  }

  /** The repair in closed form. */
  lemma RepairCut(d: Dir<Name>, q: nat)
    ensures Cut(d, RepairPlan(d), q) ==
      if q == 0 || (!Whole(d) && PREV !in d) then d
      else if Whole(d) then (if q == 1 then d - {PREV} else d - {PREV} - {PREV_SIG})
      else if q == 1 then Apply(d, Rename(PREV, CUR))
      else Apply(Apply(d, Rename(PREV, CUR)), Rename(PREV_SIG, CUR_SIG))
  {
    if Whole(d) {
      assert RepairPlan(d) == [Remove(PREV)] + ([Remove(PREV_SIG)] + []);
      Plans.CutCons(Apply, d, Remove(PREV), [Remove(PREV_SIG)] + [], q);
      if q >= 1 { Plans.CutCons(Apply, d - {PREV}, Remove(PREV_SIG), [], q - 1); }
    } else if PREV in d {
      var a, b := Rename(PREV, CUR), Rename(PREV_SIG, CUR_SIG);
      assert RepairPlan(d) == [a] + ([b] + []);
      Plans.CutCons(Apply, d, a, [b] + [], q);
      if q >= 1 { Plans.CutCons(Apply, Apply(d, a), b, [], q - 1); }
    }
  }

  /** How many operations of the swap make the new pair current. */
  function InstalledAt(d: Dir<Name>): nat { if CUR in d then 4 else 2 }

  /** A swap cut anywhere, then one repair: the new pair once its image is in place, and
      before that the old one, with no previous files left over. */
  lemma SwapRepaired(ck: Checks, d: Dir<Name>, p: nat)
    requires Idle(ck, d) && NEXT in d && NEXT_SIG in d && ck.valid(d[NEXT], d[NEXT_SIG])
    ensures var c := Repaired(Cut(d, SwapPlan(d), p));
      && Idle(ck, c)
      && (p >= InstalledAt(d) ==> Pair(c) == (Some(d[NEXT]), Some(d[NEXT_SIG])))
      && (p < InstalledAt(d) ==> Lookup(c, CUR) == Lookup(d, CUR) && (CUR in d ==> Pair(c) == Pair(d)))
  {
    var t := Cut(d, SwapPlan(d), p);
    if CUR in d {
      SwapCut(d, p);
      var d2 := Apply(Apply(d, Rename(CUR, PREV)), Rename(CUR_SIG, PREV_SIG));
      if p >= 2 { InstallCut(d2, p - 2); }
    } else {
      InstallCut(d, p);
    }
    RepairCut(t, |RepairPlan(t)|);
  }

  /** A repair that is itself cut, and run again: it recovers unless it was cut between its two
      renames while the previous signature was still there. */
  lemma InterruptedRepair(ck: Checks, d: Dir<Name>, p: nat, q: nat)
    requires forall i, j, s :: ck.valid(i, s) && ck.valid(j, s) ==> i == j
    requires Idle(ck, d) && CUR in d && NEXT in d && NEXT_SIG in d && ck.valid(d[NEXT], d[NEXT_SIG])
    requires d[CUR] != d[NEXT]
    ensures var t := Cut(d, SwapPlan(d), p);
      Bootable(ck, Repaired(Cut(t, RepairPlan(t), q))) <==> !(Restores(t) && PREV_SIG in t && q == 1)
  {
    var t := Cut(d, SwapPlan(d), p);
    SwapCut(d, p);
    var d2 := Apply(Apply(d, Rename(CUR, PREV)), Rename(CUR_SIG, PREV_SIG));
    if p >= 2 { InstallCut(d2, p - 2); }
    RepairCut(t, q);
    var u := Cut(t, RepairPlan(t), q);
    RepairCut(u, |RepairPlan(u)|);
  }

  // --- Whole updates ---

  /** The fetch touches the staged names only. */
  ghost predicate OnlyStaged(d: Dir<Name>, t: Dir<Name>) {
    forall n :: n != NEXT && n != NEXT_SIG && n != KC_NEXT ==> Lookup(t, n) == Lookup(d, n)
  }

  /** Before the swap, an update changes staged names only; from then on it is the swap. */
  lemma UpdateCut(ck: Checks, d: Dir<Name>, o: Offer, p: nat) returns (e: Dir<Name>, q: nat)
    ensures OnlyStaged(d, e)
    ensures var t := Cut(d, UpdatePlan(ck, d, o), p);
      t == e || (&& o.carried && Good(ck, o) && !IsCurrent(ck, d, o)
                 && Lookup(e, NEXT) == o.image && Lookup(e, NEXT_SIG) == o.sig
                 && t == Cut(e, SwapPlan(e), q))
    ensures p >= |UpdatePlan(ck, d, o)| && o.carried && Good(ck, o) && !IsCurrent(ck, d, o) ==>
      q >= |SwapPlan(e)| && Cut(d, UpdatePlan(ck, d, o), p) == Cut(e, SwapPlan(e), q)
      && Lookup(e, NEXT) == o.image && Lookup(e, NEXT_SIG) == o.sig
  {
    e, q := d, 0;
    if !o.carried || IsCurrent(ck, d, o) || p == 0 { return; }
    var d1 := Apply(d, Remove(KC_NEXT));
    Plans.CutCons(Apply, d, Remove(KC_NEXT), FetchPlan(ck, d, o), p);
    e, q := FetchCut(ck, d1, o, p - 1);
    assert FetchPlan(ck, d1, o) == FetchPlan(ck, d, o);
  }

  lemma CleanCut(d: Dir<Name>, p: nat)
    ensures OnlyStaged(d, Cut(d, CLEAN, p))
  {
    assert CLEAN == [Remove(NEXT)] + ([Remove(NEXT_SIG)] + []);
    Plans.CutCons(Apply, d, Remove(NEXT), [Remove(NEXT_SIG)] + [], p);
    if p >= 1 { Plans.CutCons(Apply, d - {NEXT}, Remove(NEXT_SIG), [], p - 1); }
  }

  lemma FetchCut(ck: Checks, d: Dir<Name>, o: Offer, p: nat) returns (e: Dir<Name>, q: nat)
    ensures OnlyStaged(d, e)
    ensures var t := Cut(d, FetchPlan(ck, d, o), p);
      t == e || (&& Good(ck, o) && Lookup(e, NEXT) == o.image && Lookup(e, NEXT_SIG) == o.sig
                 && t == Cut(e, SwapPlan(e), q))
    ensures p >= |FetchPlan(ck, d, o)| && Good(ck, o) ==>
      q >= |SwapPlan(e)| && Cut(d, FetchPlan(ck, d, o), p) == Cut(e, SwapPlan(e), q)
      && Lookup(e, NEXT) == o.image && Lookup(e, NEXT_SIG) == o.sig
  {
    e, q := Cut(d, FetchPlan(ck, d, o), p), 0;
    if o.image.None? { CleanCut(d, p); return; }
    var first := Store(NEXT, o.image.value);
    var d1 := Apply(d, first);
    if !ck.hashes(o.image.value, o.hash) {
      Plans.CutCons(Apply, d, first, CLEAN, p);
      if p >= 1 { CleanCut(d1, p - 1); }
      return;
    }
    Plans.CutCons(Apply, d, first, SigPlan(ck, d, o), p);
    if p >= 1 {
      StoreKeepsPlan(d, o.image.value, false);
      e, q := SigCut(ck, d1, o, p - 1);
    }
  }

  lemma SigCut(ck: Checks, d: Dir<Name>, o: Offer, p: nat) returns (e: Dir<Name>, q: nat)
    requires o.image.Some? && Lookup(d, NEXT) == o.image
    ensures OnlyStaged(d, e)
    ensures var t := Cut(d, SigPlan(ck, d, o), p);
      t == e || (&& SigGood(ck, o) && Lookup(e, NEXT) == o.image && Lookup(e, NEXT_SIG) == o.sig
                 && t == Cut(e, SwapPlan(e), q))
    ensures p >= |SigPlan(ck, d, o)| && SigGood(ck, o) ==>
      q >= |SwapPlan(e)| && Cut(d, SigPlan(ck, d, o), p) == Cut(e, SwapPlan(e), q)
      && Lookup(e, NEXT) == o.image && Lookup(e, NEXT_SIG) == o.sig
  {
    e, q := Cut(d, SigPlan(ck, d, o), p), 0;
    if o.sig.None? { CleanCut(d, p); return; }
    var store := Store(NEXT_SIG, o.sig.value);
    var d1 := Apply(d, store);
    Plans.CutCons(Apply, d, store, if SigGood(ck, o) then SwapPlan(d) else CLEAN, p);
    if p >= 1 {
      StoreKeepsPlan(d, o.sig.value, true);
      if SigGood(ck, o) { e, q := d1, p - 1; } else { CleanCut(d1, p - 1); }
    }
  }

  /** Operations on the recovery files only. */
  predicate AllOnRecovery(plan: seq<Op<Name>>) { forall op :: op in plan ==> OnRecovery(op) }

  lemma SwapOnRecovery(d: Dir<Name>)
    ensures AllOnRecovery(SwapPlan(d)) && AllOnRecovery(RepairPlan(d)) && AllOnRecovery(CLEAN)
  {
  }

  lemma FetchOnRecovery(ck: Checks, d: Dir<Name>, o: Offer)
    ensures AllOnRecovery(FetchPlan(ck, d, o))
  {
  }

  predicate OnRecovery(op: Op<Name>) {
    match op
    case Rename(src, dst) => src.Recovery? && dst.Recovery?
    case Remove(name) => name.Recovery?
    case Store(name, _) => name.Recovery?
  }

  lemma {:induction false} KernelcachesStay(d: Dir<Name>, plan: seq<Op<Name>>, p: nat)
    requires AllOnRecovery(plan)
    ensures forall slot, sig :: Lookup(Cut(d, plan, p), Kernelcache(slot, sig)) == Lookup(d, Kernelcache(slot, sig))
    decreases p
  {
    if p > 0 && plan != [] {
      assert OnRecovery(plan[0]);
      KernelcachesStay(Apply(d, plan[0]), plan[1..], p - 1);
    }
  }

  /** StageRecovery from an idle directory, cut anywhere, then one repair. */
  function Attempted(ck: Checks, d: Dir<Name>, pending: bool, o: Offer, p: nat): Dir<Name> {
    Repaired(Cut(d, StagePlan(ck, d, pending, o), p))
  }

  /** The pair is wholly the old one or wholly the new, verified one; a run that is not cut
      installs the new one; and of the OS kernelcaches only the staged image is ever removed. */
  lemma SwapSafe(ck: Checks, d: Dir<Name>, pending: bool, o: Offer, p: nat)
    requires Idle(ck, d)
    ensures var c := Attempted(ck, d, pending, o, p);
      && Idle(ck, c)
      && (|| (!pending && o.carried && Good(ck, o) && Pair(c) == (o.image, o.sig))
          || (CUR in d && Pair(c) == Pair(d))
          || (CUR !in d && CUR !in c))
      && (p >= |StagePlan(ck, d, pending, o)| && !pending && o.carried && Good(ck, o) && !IsCurrent(ck, d, o) ==>
            Pair(c) == (o.image, o.sig))
      && (forall slot, sig :: Kernelcache(slot, sig) != KC_NEXT ==>
            Lookup(c, Kernelcache(slot, sig)) == Lookup(d, Kernelcache(slot, sig)))
      && (pending ==> Lookup(c, KC_NEXT) == Lookup(d, KC_NEXT))
  {
    var plan := StagePlan(ck, d, pending, o);
    var t := Cut(d, plan, p);
    RepairCut(d, |RepairPlan(d)|);
    assert Repaired(d) == d;
    SwapOnRecovery(t);
    KernelcachesStay(t, RepairPlan(t), |RepairPlan(t)|);
    if !pending {
      var repair := RepairPlan(d);
      Plans.CutAppend(Apply, d, repair, UpdatePlan(ck, d, o), p);
      if p <= |repair| {
        RepairCut(d, p);
        assert t == d;
      } else {
        UpdateSafe(ck, d, o, p - |repair|);
      }
      UpdateKeepsKernelcaches(ck, d, o, if p <= |repair| then 0 else p - |repair|);
    }
  }

  /** The offered pair is whole: both files arrived, hash to what the manifest says, and belong
      together. */
  predicate Intact(ck: Checks, o: Offer) {
    && o.image.Some? && o.sig.Some?
    && ck.hashes(o.image.value, o.hash) && ck.hashes(o.sig.value, o.sigHash) && ck.valid(o.image.value, o.sig.value)
  }

  /** What one run to the end does: the offered pair is in place afterwards if the release carries
      one, it arrived intact, no candidate is pending, and the recovery image is not already the
      offered one. Otherwise the pair is what it was. */
  lemma InstalledExactly(ck: Checks, d: Dir<Name>, pending: bool, o: Offer, p: nat)
    requires Idle(ck, d) && p >= |StagePlan(ck, d, pending, o)|
    ensures var t := Cut(d, StagePlan(ck, d, pending, o), p);
      Pair(t) == if !pending && o.carried && Intact(ck, o) && !(CUR in d && ck.hashes(d[CUR], o.hash))
                 then (o.image, o.sig) else Pair(d)
  {
    RepairCut(d, |RepairPlan(d)|);
    assert Repaired(d) == d;
    if !pending {
      var repair := RepairPlan(d);
      Plans.CutAppend(Apply, d, repair, UpdatePlan(ck, d, o), p);
      UpdateEnds(ck, d, o, p - |repair|);
    }
  }

  lemma UpdateEnds(ck: Checks, d: Dir<Name>, o: Offer, p: nat)
    requires Idle(ck, d) && p >= |UpdatePlan(ck, d, o)|
    ensures var t := Cut(d, UpdatePlan(ck, d, o), p);
      Pair(t) == if o.carried && Intact(ck, o) && !(CUR in d && ck.hashes(d[CUR], o.hash))
                 then (o.image, o.sig) else Pair(d)
  {
    var e, q := UpdateCut(ck, d, o, p);
    if o.carried && Good(ck, o) && !IsCurrent(ck, d, o) { SwapEnds(e, q); }
  }

  /** An update that gets past the check leaves nothing staged, whether or not the pair was whole. */
  lemma NothingStaged(ck: Checks, d: Dir<Name>, o: Offer)
    requires o.carried && !(CUR in d && ck.hashes(d[CUR], o.hash))
    ensures var t := Exec(d, UpdatePlan(ck, d, o)); NEXT !in t && NEXT_SIG !in t && KC_NEXT !in t
  {
    var d1, fetch := Apply(d, Remove(KC_NEXT)), FetchPlan(ck, d, o);
    Plans.CutCons(Apply, d, Remove(KC_NEXT), fetch, 1 + |fetch|);
    FetchOnRecovery(ck, d, o);
    KernelcachesStay(d1, fetch, |fetch|);
    assert Lookup(Exec(d1, fetch), Kernelcache(Device.Next, false)) == Lookup(d1, Kernelcache(Device.Next, false));
    assert fetch == FetchPlan(ck, d1, o);
    FetchEnds(ck, d1, o);
  }

  lemma FetchEnds(ck: Checks, d: Dir<Name>, o: Offer)
    ensures var t := Exec(d, FetchPlan(ck, d, o)); NEXT !in t && NEXT_SIG !in t
  {
    if o.image.None? {
      CleanEnds(d);
    } else {
      var first := Store(NEXT, o.image.value);
      var d1 := Apply(d, first);
      var rest := if ck.hashes(o.image.value, o.hash) then SigPlan(ck, d, o) else CLEAN;
      Plans.CutCons(Apply, d, first, rest, 1 + |rest|);
      StoreKeepsPlan(d, o.image.value, false);
      if ck.hashes(o.image.value, o.hash) { SigEnds(ck, d1, o); } else { CleanEnds(d1); }
    }
  }

  lemma SigEnds(ck: Checks, d: Dir<Name>, o: Offer)
    requires o.image.Some? && NEXT in d
    ensures var t := Exec(d, SigPlan(ck, d, o)); NEXT !in t && NEXT_SIG !in t
  {
    if o.sig.None? {
      CleanEnds(d);
    } else {
      var store := Store(NEXT_SIG, o.sig.value);
      var d1 := Apply(d, store);
      var rest := if SigGood(ck, o) then SwapPlan(d) else CLEAN;
      Plans.CutCons(Apply, d, store, rest, 1 + |rest|);
      StoreKeepsPlan(d, o.sig.value, true);
      if !SigGood(ck, o) {
        CleanEnds(d1);
      } else if CUR in d1 {
        SwapCut(d1, |rest|);
        InstallCut(Apply(Apply(d1, Rename(CUR, PREV)), Rename(CUR_SIG, PREV_SIG)), |rest| - 2);
      } else {
        InstallCut(d1, |rest|);
      }
    }
  }

  lemma CleanEnds(d: Dir<Name>)
    ensures Exec(d, CLEAN) == d - {NEXT} - {NEXT_SIG}
  {
    assert CLEAN == [Remove(NEXT)] + ([Remove(NEXT_SIG)] + []);
    Plans.CutCons(Apply, d, Remove(NEXT), [Remove(NEXT_SIG)] + [], 2);
    Plans.CutCons(Apply, d - {NEXT}, Remove(NEXT_SIG), [], 1);
  }

  /** Then the image in place is the offered one. */
  lemma OfferedInPlace(ck: Checks, d: Dir<Name>, o: Offer, p: nat)
    requires o.carried && Good(ck, o)
    ensures var t := Cut(d, UpdatePlan(ck, d, o), p);
      p >= |UpdatePlan(ck, d, o)| ==> CUR in t && ck.hashes(t[CUR], o.hash)
  {
    if p >= |UpdatePlan(ck, d, o)| && !IsCurrent(ck, d, o) {
      var e, q := UpdateCut(ck, d, o, p);
      SwapEnds(e, q);
    }
  }

  lemma SwapEnds(d: Dir<Name>, p: nat)
    requires NEXT in d && NEXT_SIG in d && p >= |SwapPlan(d)|
    ensures Pair(Cut(d, SwapPlan(d), p)) == (Some(d[NEXT]), Some(d[NEXT_SIG]))
  {
    if CUR in d {
      SwapCut(d, p);
      InstallCut(Apply(Apply(d, Rename(CUR, PREV)), Rename(CUR_SIG, PREV_SIG)), p - 2);
    } else {
      InstallCut(d, p);
    }
  }

  lemma UpdateKeepsKernelcaches(ck: Checks, d: Dir<Name>, o: Offer, p: nat)
    ensures forall slot, sig :: Kernelcache(slot, sig) != KC_NEXT ==>
      Lookup(Cut(d, UpdatePlan(ck, d, o), p), Kernelcache(slot, sig)) == Lookup(d, Kernelcache(slot, sig))
  {
    if o.carried && !IsCurrent(ck, d, o) && p > 0 {
      Plans.CutCons(Apply, d, Remove(KC_NEXT), FetchPlan(ck, d, o), p);
      FetchOnRecovery(ck, d, o);
      KernelcachesStay(Apply(d, Remove(KC_NEXT)), FetchPlan(ck, d, o), p - 1);
    }
  }

  lemma UpdateSafe(ck: Checks, d: Dir<Name>, o: Offer, p: nat)
    requires Idle(ck, d)
    ensures var c := Repaired(Cut(d, UpdatePlan(ck, d, o), p));
      && Idle(ck, c)
      && (|| (o.carried && Good(ck, o) && Pair(c) == (o.image, o.sig))
          || (CUR in d && Pair(c) == Pair(d))
          || (CUR !in d && CUR !in c))
      && (p >= |UpdatePlan(ck, d, o)| && o.carried && Good(ck, o) && !IsCurrent(ck, d, o) ==>
            Pair(c) == (o.image, o.sig))
  {
    var t := Cut(d, UpdatePlan(ck, d, o), p);
    var e, q := UpdateCut(ck, d, o, p);
    assert Pair(e) == Pair(d) && Lookup(e, PREV) == Lookup(d, PREV) && Lookup(e, PREV_SIG) == Lookup(d, PREV_SIG);
    if t == e {
      RepairCut(t, |RepairPlan(t)|);
      if p >= |UpdatePlan(ck, d, o)| && o.carried && Good(ck, o) && !IsCurrent(ck, d, o) {
        SwapRepaired(ck, e, q);
      }
    } else {
      SwapRepaired(ck, e, q);
    }
  }

  datatype Attempt = Attempt(pending: bool, offer: Offer, writes: nat)

  function Attempts(ck: Checks, d: Dir<Name>, list: seq<Attempt>): Dir<Name> {
    if list == [] then d
    else
      var a := list[|list| - 1];
      Attempted(ck, Attempts(ck, d, list[..|list| - 1]), a.pending, a.offer, a.writes)
  }

  /** Over any number of cut updates the recovery image, once there, keeps its own signature,
      and it is the first one or one that was offered and verified. */
  lemma {:induction false} RecoverySurvives(ck: Checks, d: Dir<Name>, list: seq<Attempt>)
    requires Idle(ck, d)
    ensures var c := Attempts(ck, d, list);
      && Idle(ck, c)
      && (CUR in d ==> Bootable(ck, c))
      && (CUR !in c || Pair(c) == Pair(d)
          || exists i :: 0 <= i < |list| && Good(ck, list[i].offer)
               && Pair(c) == (list[i].offer.image, list[i].offer.sig))
    decreases |list|
  {
    if list != [] {
      var n := |list| - 1;
      RecoverySurvives(ck, d, list[..n]);
      SwapSafe(ck, Attempts(ck, d, list[..n]), list[n].pending, list[n].offer, list[n].writes);
    }
  }
}
