/** internal/otad/otad.go FirmwareBootConfirm: a device probe decides a bundle's candidate,
    first in the WAL and then on the firmware partition. */
module FirmwareConfirm {
  import opened Common
  import opened Directory
  import Plans
  import FirmwareTrack
  import opened FirmwareSlot

  /** The bundles as the WAL on disk has them, and one bundle's directory. */
  datatype Sys = Sys(saved: FirmwareTrack.Bundles, files: Dir<Name>)

  function Decided(b: FirmwareTrack.Bundle, probeOk: bool): FirmwareTrack.Bundle {
    if probeOk then FirmwareTrack.Probed(b) else FirmwareTrack.RolledBack(b)
  }

  function SlotPlan(b: FirmwareTrack.Bundle, files: Dir<Name>, probeOk: bool): seq<Op<Name>> {
    if !probeOk then RollbackPlan(files)
    else if b.probes + 1 >= b.threshold then DropPlan(FILES) else []
  }

  /** One confirmation, cut after `p` writes: the WAL save is the first of them. */
  function Confirmed(s: Sys, name: string, probeOk: bool, p: nat): Sys {
    if p == 0 || !FirmwareTrack.HasPending(s.saved, name) then s
    else
      var b := s.saved[name];
      Sys(s.saved[name := Decided(b, probeOk)], Cut(s.files, SlotPlan(b, s.files, probeOk), p - 1))
  }

  datatype Outcome = Stopped | NoCandidate | Reverted | Promoted | Recorded

  /** `saved` is the WAL on disk, before and after. */
  method FirmwareBootConfirm(v: Volume<Name>, saved: FirmwareTrack.Bundles, name: string, probeOk: bool)
    returns (after: FirmwareTrack.Bundles, r: Outcome)
    requires v.apply == Apply
    modifies v
    ensures Sys(after, v.state) == Confirmed(Sys(saved, old(v.state)), name, probeOk, old(v.power))
    ensures r == NoCandidate <==> !FirmwareTrack.HasPending(saved, name)
    ensures r == NoCandidate <==>
      !(name in saved && saved[name].pending != 0 && saved[name].state == FirmwareTrack.Updating)
    ensures r == Stopped <==>
      && FirmwareTrack.HasPending(saved, name)
      && old(v.power) < 1 + |SlotPlan(saved[name], old(v.state), probeOk)|
    ensures r == Promoted ==> probeOk && saved[name].probes + 1 >= saved[name].threshold
  {
    if !FirmwareTrack.HasPending(saved, name) { return saved, NoCandidate; }
    var d := new FirmwareTrack.Track(saved);
    var promoted := false;
    if probeOk { promoted := d.RecordProbe(name); } else { d.Rollback(name); }
    if v.power == 0 { return saved, Stopped; }
    v.power := v.power - 1;
    after := d.bundles;
    var ok := true;
    if !probeOk {
      ok := RollbackFirmwareSlot(v);
      r := Reverted;
    } else if promoted {
      ok := FinalizeFirmwareSlot(v);
      r := Promoted;
    } else {
      r := Recorded;
    }
    if !ok { r := Stopped; }
  }

  /** Later confirmations, each with its probe result and the writes it gets to. */
  function Later(s: Sys, name: string, rest: seq<(bool, nat)>): Sys {
    if rest == [] then s
    else Confirmed(Later(s, name, rest[..|rest| - 1]), name, rest[|rest| - 1].0, rest[|rest| - 1].1)
  }

  lemma {:induction false} NothingMore(s: Sys, name: string, rest: seq<(bool, nat)>)
    requires !FirmwareTrack.HasPending(s.saved, name)
    ensures Later(s, name, rest) == s
    decreases |rest|
  {
    if rest != [] { NothingMore(s, name, rest[..|rest| - 1]); }
  }

  function Dropped(v: Trio, files: seq<File>, f: File): Trio { if f in files then v.(backup := None) else v }

  lemma {:induction false} DropEnds(d: Dir<Name>, files: seq<File>)
    ensures forall f: File :: View(Exec(d, DropPlan(files)), f) == Dropped(View(d, f), files, f)
    decreases |files|
  {
    if files != [] {
      var op := Remove(Name(files[0], Backup));
      assert files == [files[0]] + files[1..];
      Plans.CutCons(Apply, d, op, DropPlan(files[1..]), |DropPlan(files)|);
      DropEnds(Apply(d, op), files[1..]);
      forall f: File ensures View(Exec(d, DropPlan(files)), f) == Dropped(View(d, f), files, f) {
        assert View(Apply(d, op), f) == Dropped(View(d, f), [files[0]], f);
      }
    }
  }

  /** A probe that decides the candidate, not cut. A clean one at the threshold makes the candidate
      the good version and the floor, and keeps every active file without a way back; a failed one
      returns to the good version, if there is one, and every file to its predecessor, if it has one. */
  lemma Decides(s: Sys, name: string, probeOk: bool, p: nat)
    requires name in s.saved && s.saved[name].pending != 0 && s.saved[name].state == FirmwareTrack.Updating
    requires probeOk ==> s.saved[name].probes + 1 >= s.saved[name].threshold
    requires p >= 7
    ensures var b, t := s.saved[name], Confirmed(s, name, probeOk, p);
      && name in t.saved && t.saved[name].pending == 0
      && (if probeOk
          then t.saved[name].current == t.saved[name].lastKnownGood == t.saved[name].minVersion == b.pending
          else t.saved[name].current == (if b.lastKnownGood != 0 then b.lastKnownGood else b.current)
               && t.saved[name].minVersion == b.minVersion)
      && forall f: File :: FileDecided(View(s.files, f), View(t.files, f), probeOk)
  {
    if probeOk {
      DropEnds(s.files, FILES);
      forall f: File ensures f in FILES { AnyFile(f); }
      Plans.CutAppend(Apply, s.files, DropPlan(FILES), [], p - 1);
      assert DropPlan(FILES) + [] == DropPlan(FILES);
    } else {
      RestoreLength(s.files, ANCHOR_FIRST);
      RestoreCut(s.files, ANCHOR_FIRST, p - 1);
      forall f: File ensures f in ANCHOR_FIRST { InAnchorFirst(f); }
    }
  }

  /** A clean probe below the threshold that is not cut counts, and touches no file. */
  lemma Undecided(s: Sys, name: string, p: nat)
    requires name in s.saved && s.saved[name].pending != 0 && s.saved[name].state == FirmwareTrack.Updating
    requires s.saved[name].probes + 1 < s.saved[name].threshold && p >= 1
    ensures var b, t := s.saved[name], Confirmed(s, name, true, p);
      && t.files == s.files && name in t.saved
      && t.saved[name] == b.(current := b.pending, probes := b.probes + 1)
  {
  }

  predicate FileDecided(v: Trio, x: Trio, probeOk: bool) {
    x.next == v.next && x.backup == None && x.active == if !probeOk && v.backup.Some? then v.backup else v.active
  }

  lemma {:induction false} RestoreLength(d: Dir<Name>, files: seq<File>)
    ensures |RestorePlan(d, files)| <= |files| && |DropPlan(files)| == |files|
    decreases |files|
  {
    if files != [] { RestoreLength(d, files[1..]); }
  }

  lemma AnyFile(f: File)
    ensures f in FILES
  {
  }

  /** Restored on the partition as the WAL says. */
  ghost predicate SlotRestored(s: Sys, t: Sys) { forall f: File :: View(t.files, f) == View(s.files, f).Restored() }

  /** A failed probe whose confirmation is cut: as long as the WAL was not saved the next one
      starts over, and once it is saved no later confirmation touches the slot again. So the
      slot follows the WAL back exactly when the cut came before the save or after the last
      rename. */
  lemma FailedProbeCut(s: Sys, name: string, p: nat, rest: seq<(bool, nat)>)
    requires FirmwareTrack.HasPending(s.saved, name)
    ensures var t := Confirmed(s, name, false, p);
      && (p == 0 ==> t == s)
      && (p >= 1 ==>
            && Later(t, name, rest) == t
            && !FirmwareTrack.HasPending(t.saved, name)
            && (SlotRestored(s, t) <==> p > |RollbackPlan(s.files)|))
  {
    if p >= 1 {
      NothingMore(Confirmed(s, name, false, p), name, rest);
      RestoredExactly(s.files, p - 1);
    }
  }

  /** A cut rollback has restored everything exactly when no rename was left. */
  lemma RestoredExactly(d: Dir<Name>, p: nat)
    ensures (forall f: File :: View(Cut(d, RollbackPlan(d), p), f) == View(d, f).Restored()) <==> p >= |RollbackPlan(d)|
  {
    RestoreCut(d, ANCHOR_FIRST, p);
    var t := Cut(d, RollbackPlan(d), p);
    if p >= |RollbackPlan(d)| {
      forall f: File ensures View(t, f) == View(d, f).Restored() { InAnchorFirst(f); }
    } else {
      var f :| f in ANCHOR_FIRST && View(t, f).backup.Some?;
      assert View(t, f) != View(d, f).Restored();
    }
  }

  /** Clean probes of one candidate, as many as given. */
  function ProbedTimes(b: FirmwareTrack.Bundle, probes: nat): FirmwareTrack.Bundle {
    if probes == 0 then b else FirmwareTrack.Probed(ProbedTimes(b, probes - 1))
  }

  lemma {:induction false} ProbesCount(b: FirmwareTrack.Bundle, probes: nat)
    requires FirmwareTrack.Pending(b) && b.probes == 0 && probes < b.threshold
    ensures ProbedTimes(b, probes) ==
      b.(probes := probes, current := if probes == 0 then b.current else b.pending)
    decreases probes
  {
    if probes > 0 { ProbesCount(b, probes - 1); }
  }

  /** A candidate that is deployed, activated (even partly), probed clean any number of times short
      of the threshold and then failed, with a save that survives: the floor and all six files are
      as before, and so is the running version -- unless the candidate probed clean and the bundle
      never had a good version to go back to. */
  lemma FailedCandidateLeavesNothing(s: Sys, name: string, version: int, hash: string, cut: nat, probes: nat)
    requires name in s.saved && !FirmwareTrack.Pending(s.saved[name])
    requires s.saved[name].lastKnownGood == s.saved[name].current != version
    requires version > s.saved[name].minVersion && version != 0 && probes < s.saved[name].threshold
    requires Undoable(s.files)
    ensures var b := s.saved[name];
      var tried := ProbedTimes(FirmwareTrack.Deployed(b, version, hash), probes);
      var staged := Sys(s.saved[name := tried], Cut(s.files, ActivatePlan(s.files), cut));
      var t := Confirmed(staged, name, false, 1 + |RollbackPlan(staged.files)|);
      && (t.saved[name].current == b.current <==> probes == 0 || b.lastKnownGood != 0)
      && t.saved[name].minVersion == b.minVersion && !FirmwareTrack.HasPending(t.saved, name)
      && forall f: File :: View(t.files, f).active == View(s.files, f).active
  {
    ProbesCount(FirmwareTrack.Deployed(s.saved[name], version, hash), probes);
    UndoneFrom(s.files, cut, []);
  }

  lemma OneCleanProbe(s: Sys, name: string, b: FirmwareTrack.Bundle)
    requires FirmwareTrack.Pending(b) && b.probes + 1 < b.threshold
    ensures Confirmed(Sys(s.saved[name := b], s.files), name, true, 1)
      == Sys(s.saved[name := FirmwareTrack.Probed(b)], s.files)
  {
    var c := FirmwareTrack.Probed(b);
    assert s.saved[name := b][name := c] == s.saved[name := c];
  }

  function CleanRun(probes: nat): seq<(bool, nat)> { if probes == 0 then [] else CleanRun(probes - 1) + [(true, 1)] }

  /** The probes themselves, as confirmations that are not cut, get there and leave the slot alone. */
  lemma {:induction false} CleanProbes(s: Sys, name: string, probes: nat)
    requires FirmwareTrack.HasPending(s.saved, name) && s.saved[name].probes == 0 && probes < s.saved[name].threshold
    ensures Later(s, name, CleanRun(probes)) == Sys(s.saved[name := ProbedTimes(s.saved[name], probes)], s.files)
    decreases probes
  {
    ProbesCount(s.saved[name], probes);
    if probes > 0 {
      var rest := CleanRun(probes);
      assert rest[..|rest| - 1] == CleanRun(probes - 1);
      CleanProbes(s, name, probes - 1);
      ProbesCount(s.saved[name], probes - 1);
      OneCleanProbe(s, name, ProbedTimes(s.saved[name], probes - 1));
      assert rest[|rest| - 1] == (true, 1);
    } else {
      assert s.saved[name := s.saved[name]] == s.saved;
    }
  }
}
