/** What the loader hands over to, in terms of the files and the floor alone
    (loader/src/main.zig:453-518), and what therefore can be running in any run. */
module LoaderFloor {
  import opened Common
  import opened Device
  import opened Loader
  import Runs
  import Stage

  /** The image and signature of a slot are there, verify, start, and carry no version below the
      floor of a machine that has one. */
  predicate Passes(pf: Platform, floor: nat, image: Option<Bytes>, sig: Option<Bytes>) {
    && image.Some? && sig.Some? && pf.valid(image.value, sig.value) && pf.starts(image.value)
    && (!pf.hasTpm || pf.version(image.value).None? || floor <= pf.version(image.value).value)
  }

  predicate SlotPasses(pf: Platform, d: Disk, floor: nat, b: BootSlot) {
    match b
    case Os(s) => Passes(pf, floor, d.Content(KcImage, s), d.Content(KcSig, s))
    case RecoverySlot =>
      d.recovery.Some? && Passes(pf, floor, Some(d.recovery.value.0), Some(d.recovery.value.1))
  }

  /** Candidate, installed release, its predecessor, recovery. */
  function Position(b: BootSlot): nat {
    match b case Os(Next) => 0 case Os(Active) => 1 case Os(Prev) => 2 case RecoverySlot => 3
  }

  /** A trial may boot anything, a stable boot never the candidate, a recovery boot only recovery. */
  predicate Allows(c: Cascade, b: BootSlot) {
    c == TrialCascade || b == RecoverySlot || (c == StableCascade && b != Os(Next))
  }

  /** A cascade starts the first slot that passes, of those it may start. */
  lemma CascadeExactly(pf: Platform, d: Disk, floor: nat, c: Cascade, b: BootSlot)
    ensures Chosen(pf, d, floor, c) == Some(b) <==>
      && Allows(c, b) && SlotPasses(pf, d, floor, b)
      && forall x :: Allows(c, x) && SlotPasses(pf, d, floor, x) ==> Position(b) <= Position(x)
  {
    forall x: BootSlot
      ensures Chainloads(pf, d, floor, x) <==> SlotPasses(pf, d, floor, x)
    {
    }
    StableChoice(pf, d, floor);
    TrialChoice(pf, d, floor);
    RecoveryChoice(pf, d, floor);
    AllSlots(b);
    forall x: BootSlot
      ensures SlotPasses(pf, d, floor, x) ==> x == Os(Next) || x == Os(Active) || x == Os(Prev) || x == RecoverySlot
    {
      AllSlots(x);
    }
  }

  lemma AllSlots(b: BootSlot)
    ensures b == Os(Next) || b == Os(Active) || b == Os(Prev) || b == RecoverySlot
  {
    match b
    case Os(s) => match s { case Active => case Next => case Prev => }
    case RecoverySlot =>
  }

  lemma RecoveryChoice(pf: Platform, d: Disk, floor: nat)
    ensures Chosen(pf, d, floor, RecoveryCascade)
      == if Chainloads(pf, d, floor, RecoverySlot) then Some(RecoverySlot) else None
  {
    assert SlotsOf(RecoveryCascade)[1..] == [];
  }

  /** A slot picked by hand starts if it passes; otherwise the active slot does, if that passes. */
  lemma PickedExactly(pf: Platform, d: Disk, floor: nat, picked: BootSlot, b: BootSlot)
    ensures Picked(pf, d, floor, picked) == Some(b) <==>
      && SlotPasses(pf, d, floor, b)
      && (b == picked || (b == Os(Active) && !SlotPasses(pf, d, floor, picked)))
  {
    forall x: BootSlot
      ensures Chainloads(pf, d, floor, x) <==> SlotPasses(pf, d, floor, x)
    {
    }
  }

  /** On a machine with a TPM nothing below the floor is started, by any cascade or by hand. */
  lemma NothingBelowFloor(pf: Platform, d: Disk, floor: nat, c: Cascade, picked: BootSlot, b: BootSlot, v: nat)
    requires Chosen(pf, d, floor, c) == Some(b) || Picked(pf, d, floor, picked) == Some(b)
    requires pf.hasTpm && ImageOf(d, b).Some? && pf.version(ImageOf(d, b).value) == Some(v)
    ensures floor <= v
  {
    CascadeExactly(pf, d, floor, c, b);
    PickedExactly(pf, d, floor, picked, b);
  }

  // --- Over runs ---

  /** The system that is up was started from this slot, over the counter of this state. */
  predicate StartedFrom(pf: Platform, st: Runs.State, slot: Slot) {
    var image, sig := st.sys.disk.Content(KcImage, slot), st.sys.disk.Content(KcSig, slot);
    && image.Some? && sig.Some? && pf.valid(image.value, sig.value)
    && st.running == Some(pf.identity(image.value))
    && (pf.hasTpm && pf.version(image.value).Some? ==> st.sys.counter <= pf.version(image.value).value)
  }

  /** In every run, what an automatic boot or a picked slot leaves running verified, and is not
      older than the hardware counter. */
  lemma RunningAboveFloor(pf: Platform, tr: Stage.Trust, st: Runs.State, events: seq<Runs.Event>, k: nat)
    requires k < |events| && (events[k].Reboot? || events[k].Pick?)
    ensures var t := Runs.Run(pf, tr, st, events[..k + 1]);
      t.running.Some? ==> exists slot :: StartedFrom(pf, t, slot)
  {
    var before := Runs.Run(pf, tr, st, events[..k]);
    Runs.RunOneMore(pf, tr, st, events[..k], events[k]);
    assert events[..k + 1] == events[..k] + [events[k]];
    var t := Runs.Step(pf, tr, before, events[k]);
    var d, floor := t.sys.disk, t.sys.counter;
    if t.running.Some? {
      var b := if events[k].Reboot?
               then Chosen(pf, d, floor, CascadeOf(before.sys.boot, events[k].unlockArmed))
               else Picked(pf, d, floor, events[k].slot);
      assert b.Some? && b.value.Os?;
      if events[k].Reboot? {
        CascadeExactly(pf, d, floor, CascadeOf(before.sys.boot, events[k].unlockArmed), b.value);
      } else {
        PickedExactly(pf, d, floor, events[k].slot, b.value);
      }
      assert StartedFrom(pf, t, b.value.slot);
    }
  }

  /** The slot was started, and none before it that this boot may start passes. */
  ghost predicate FirstToPass(pf: Platform, t: Runs.State, slot: Slot, trial: bool) {
    && StartedFrom(pf, t, slot) && (trial || slot != Next)
    && forall x: Slot :: Position(Os(x)) < Position(Os(slot)) && (trial || x != Next) ==>
         !SlotPasses(pf, t.sys.disk, t.sys.counter, Os(x))
  }

  /** An automatic boot. A recovery request or an armed unlock starts no installed system and charges
      nothing. A trial with attempts left costs one of them, whatever then starts; any other boot
      charges nothing and never starts the candidate. */
  lemma AutomaticBoot(pf: Platform, tr: Stage.Trust, st: Runs.State, unlockArmed: bool, t: Runs.State)
    requires t == Runs.Step(pf, tr, st, Runs.Reboot(unlockArmed))
    ensures var boot := st.sys.boot;
      var trial := boot.Some? && boot.value.target == TargetNext && boot.value.trial && boot.value.attempts > 0;
      if unlockArmed || (boot.Some? && boot.value.target == TargetRecovery) then t == Runs.State(st.sys, None)
      else
        && t.sys == (if trial then st.sys.(boot := Some(BootState(TargetNext, true, boot.value.attempts - 1)))
                     else st.sys)
        && (t.running.Some? ==> exists slot :: FirstToPass(pf, t, slot, trial))
  {
    var d, floor, c := t.sys.disk, t.sys.counter, CascadeOf(st.sys.boot, unlockArmed);
    RecoveryChoice(pf, d, floor);
    var b := Chosen(pf, d, floor, c);
    if b.Some? && b.value.Os? && t.running.Some? {
      CascadeExactly(pf, d, floor, c, b.value);
      assert StartedFrom(pf, t, b.value.slot);
      forall x: Slot | Position(Os(x)) < Position(b.value) && (c == TrialCascade || x != Next)
        ensures !SlotPasses(pf, d, floor, Os(x))
      {
        assert c == StableCascade ==> Allows(c, Os(x));
      }
    }
  }
}
