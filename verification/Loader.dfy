/** The boot side: slot choice and verification in the EFI loader (loader/src/main.zig),
    and what the initramfs then needs on the system partition (boot/root.go). */
module Loader {
  import opened Common
  import opened Versions
  import opened Device
  import Plans

  /** What the model takes from outside: signatures, the version baked into an image,
      whether the firmware can start it, its signed command line, and dm-verity. */
  datatype Platform = Platform(
    valid: (Bytes, Bytes) -> bool, version: Bytes -> Option<nat>, starts: Bytes -> bool,
    identity: Bytes -> Identity, opens: (Bytes, Bytes, string) -> bool, hasTpm: bool)

  datatype BootSlot = Os(slot: Slot) | RecoverySlot

  datatype Cascade = TrialCascade | StableCascade | RecoveryCascade

  function ImageOf(d: Disk, b: BootSlot): Option<Bytes> {
    match b
    case Os(s) => d.kcImage.At(s)
    case RecoverySlot => if d.recovery.Some? then Some(d.recovery.value.0) else None
  }

  function SignatureOf(d: Disk, b: BootSlot): Option<Bytes> {
    match b
    case Os(s) => d.kcSig.At(s)
    case RecoverySlot => if d.recovery.Some? then Some(d.recovery.value.1) else None
  }

  /** The floor check: an unversioned image, or a machine without TPM, passes. */
  predicate AboveFloor(pf: Platform, floor: nat, image: Bytes) {
    pf.hasTpm && pf.version(image).Some? ==> floor <= pf.version(image).value
  }

  /** chainloadSlot hands over to this slot. */
  predicate Chainloads(pf: Platform, d: Disk, floor: nat, b: BootSlot) {
    var img, sig := ImageOf(d, b), SignatureOf(d, b);
    && img.Some? && sig.Some? && pf.valid(img.value, sig.value)
    && AboveFloor(pf, floor, img.value) && pf.starts(img.value)
  }

  function SlotsOf(c: Cascade): seq<BootSlot> {
    match c
    case TrialCascade => [Os(Next), Os(Active), Os(Prev), RecoverySlot]
    case StableCascade => [Os(Active), Os(Prev), RecoverySlot]
    case RecoveryCascade => [RecoverySlot]
  }

  function FirstThatLoads(pf: Platform, d: Disk, floor: nat, slots: seq<BootSlot>): (b: Option<BootSlot>)
    ensures b.Some? ==> b.value in slots && Chainloads(pf, d, floor, b.value)
    ensures b.None? ==> forall x :: x in slots ==> !Chainloads(pf, d, floor, x)
  {
    if slots == [] then None
    else if Chainloads(pf, d, floor, slots[0]) then Some(slots[0])
    else FirstThatLoads(pf, d, floor, slots[1..])
  }

  function Chosen(pf: Platform, d: Disk, floor: nat, c: Cascade): Option<BootSlot> {
    FirstThatLoads(pf, d, floor, SlotsOf(c))
  }

  lemma StableChoice(pf: Platform, d: Disk, floor: nat)
    ensures Chosen(pf, d, floor, StableCascade) ==
      if Chainloads(pf, d, floor, Os(Active)) then Some(Os(Active))
      else if Chainloads(pf, d, floor, Os(Prev)) then Some(Os(Prev))
      else if Chainloads(pf, d, floor, RecoverySlot) then Some(RecoverySlot) else None
  {
    var two, one := [Os(Prev), RecoverySlot], [RecoverySlot];
    assert SlotsOf(StableCascade)[1..] == two && two[1..] == one && one[1..] == [];
    assert FirstThatLoads(pf, d, floor, one)
      == if Chainloads(pf, d, floor, RecoverySlot) then Some(RecoverySlot) else None;
    assert FirstThatLoads(pf, d, floor, two) ==
      if Chainloads(pf, d, floor, Os(Prev)) then Some(Os(Prev)) else FirstThatLoads(pf, d, floor, one);
  }

  method ChainloadCascade(pf: Platform, d: Disk, floor: nat, c: Cascade) returns (b: Option<BootSlot>)
    ensures b == Chosen(pf, d, floor, c)
  {
    var slots := SlotsOf(c);
    for i := 0 to |slots|
      invariant FirstThatLoads(pf, d, floor, slots) == FirstThatLoads(pf, d, floor, slots[i..])
    {
      if Chainloads(pf, d, floor, slots[i]) { return Some(slots[i]); }
    }
    return None;
  }

  /** The cascade the boot-state selects, and the boot-state the loader leaves. */
  function CascadeOf(boot: Option<BootState>, unlockArmed: bool): Cascade {
    if boot.None? then (if unlockArmed then RecoveryCascade else StableCascade)
    else if boot.value.target == TargetRecovery || unlockArmed then RecoveryCascade
    else if boot.value.trial && boot.value.target == TargetNext && boot.value.attempts > 0 then TrialCascade
    else StableCascade
  }

  function Charged(s: Sys, unlockArmed: bool): Sys {
    if CascadeOf(s.boot, unlockArmed) == TrialCascade
    then s.(boot := Some(BootState(TargetNext, true, s.boot.value.attempts - 1)))
    else s
  }

  /** An automatic boot: the trial budget is charged before anything is chained. */
  method Start(m: Machine, pf: Platform, unlockArmed: bool) returns (b: Option<BootSlot>)
    requires m.power > 0
    requires m.apply == Apply
    modifies m
    ensures m.state == Charged(old(m.state), unlockArmed)
    ensures b == Chosen(pf, m.state.disk, m.state.counter, CascadeOf(old(m.state).boot, unlockArmed))
  {
    var cascade := StableCascade;
    if m.state.boot.Some? {
      var st := m.state.boot.value;
      if st.target == TargetRecovery || unlockArmed {
        cascade := RecoveryCascade;
      } else if st.trial && st.target == TargetNext && st.attempts > 0 {
        var ok := m.Do(SetBoot(BootState(TargetNext, true, st.attempts - 1)));
        cascade := TrialCascade;
      }
    } else if unlockArmed {
      cascade := RecoveryCascade;
    }
    b := ChainloadCascade(pf, m.state.disk, m.state.counter, cascade);
  }

  /** A slot picked by hand, with active to fall back on; the budget is not charged. */
  function Picked(pf: Platform, d: Disk, floor: nat, b: BootSlot): Option<BootSlot> {
    if Chainloads(pf, d, floor, b) then Some(b)
    else if Chainloads(pf, d, floor, Os(Active)) then Some(Os(Active)) else None
  }

  /** The initramfs opens some rootfs slot file with some hash tree under this root hash. */
  ghost predicate RootFound(pf: Platform, d: Disk, hash: string) {
    exists i: Slot, t: Slot ::
      && d.Content(RootImage, i).Some? && d.Content(RootTree, t).Some?
      && pf.opens(d.Content(RootImage, i).value, d.Content(RootTree, t).value, hash)
  }

  // --- Releases ---

  datatype Release = Release(image: Bytes, tree: Bytes, uki: Bytes, sig: Bytes, id: Identity)

  /** A release as built and signed: the four files belong together. */
  predicate Genuine(pf: Platform, r: Release) {
    && r.image != "" && r.tree != "" && r.uki != "" && r.sig != ""
    && pf.valid(r.uki, r.sig) && pf.starts(r.uki) && pf.identity(r.uki) == r.id
    && pf.opens(r.image, r.tree, r.id.hash)
    && r.id.hash != "" && r.id.version != ""
  }

  /** A signature is valid for its own image only. */
  ghost predicate SignaturesBind(pf: Platform) {
    forall i, j, s :: pf.valid(i, s) && pf.valid(j, s) ==> i == j
  }

  lemma TrialChoice(pf: Platform, d: Disk, floor: nat)
    ensures Chosen(pf, d, floor, TrialCascade) ==
      if Chainloads(pf, d, floor, Os(Next)) then Some(Os(Next)) else Chosen(pf, d, floor, StableCascade)
  {
    assert SlotsOf(TrialCascade)[1..] == SlotsOf(StableCascade);
  }

  predicate Holds(d: Disk, slot: Slot, r: Release) {
    && d.Content(RootImage, slot) == Some(r.image) && d.Content(RootTree, slot) == Some(r.tree)
    && d.Content(KcImage, slot) == Some(r.uki) && d.Content(KcSig, slot) == Some(r.sig)
  }

  /** The cascade hands over to this release in an OS slot and its rootfs can be opened. */
  ghost predicate BootsInto(pf: Platform, d: Disk, floor: nat, c: Cascade, r: Release) {
    && var b := Chosen(pf, d, floor, c);
    && b.Some? && b.value.Os? && ImageOf(d, b.value) == Some(r.uki)
    && RootFound(pf, d, r.id.hash)
  }
}
