/** boot/firmware.go: the initramfs mounts the verified firmware bundles and decides where each
    one goes. */
module FirmwareMount {
  import opened Common

  /** A bundle that names a directory to cover, and its version. */
  datatype Overlay = Overlay(target: string, version: nat)

  /** One bundle directory as the loop meets it: whether it verifies and mounts, what its
      `.overlay` says (None inside for one that does not parse), whether that is newer than the
      directory it covers, and the kernel its drivers are for. */
  datatype Bundle = Bundle(mounts: bool, overlay: Option<Option<Overlay>>, wanted: bool, abi: Option<string>)

  predicate IsOverlay(b: Bundle, target: string) {
    b.mounts && b.overlay.Some? && b.overlay.value.Some? && b.wanted && b.overlay.value.value.target == target
  }

  predicate Covers(b: Bundle) { b.overlay.Some? && b.overlay.value.Some? && IsOverlay(b, b.overlay.value.value.target) }

  function Version(b: Bundle): nat { if Covers(b) then b.overlay.value.value.version else 0 }

  predicate IsDriver(b: Bundle, kernel: string) { b.mounts && b.overlay.None? && b.abi == Some(kernel) }

  predicate IsFirmware(b: Bundle) { b.mounts && b.overlay.None? && b.abi.None? }

  /** It mounts, and a valid `.overlay` names this directory, which it is newer than. */
  predicate ForTarget(b: Bundle, t: string) {
    b.mounts && b.wanted && b.overlay.Some? && b.overlay.value.Some? && b.overlay.value.value.target == t
  }

  /** Where the mounted bundles are, by their position among the directories. */
  class Mounts {
    var overlays: map<string, nat>
    var firmware: seq<nat>
    var drivers: seq<nat>
    var released: seq<nat>

    constructor ()
      ensures overlays == map[] && firmware == [] && drivers == [] && released == []
    {
      overlays, firmware, drivers, released := map[], [], [], [];
    }

    method Release(i: nat)
      modifies this`released
      ensures released == old(released) + [i]
    {
      released := released + [i];
    }

    /** The part of the loop that handles a bundle with a valid, wanted `.overlay`. */
    method Cover(dirs: seq<Bundle>, i: nat)
      requires i < |dirs| && Covers(dirs[i])
      requires forall t :: t in overlays ==> overlays[t] < |dirs|
      modifies this`overlays, this`released
      ensures var o := dirs[i].overlay.value.value;
        && var was := old(overlays);
        if o.target in was && Version(dirs[was[o.target]]) >= o.version
        then overlays == was && released == old(released) + [i]
        else overlays == was[o.target := i]
             && released == old(released) + (if o.target in was then [was[o.target]] else [])
    {
      var o := dirs[i].overlay.value.value;
      if o.target in overlays {
        if Version(dirs[overlays[o.target]]) >= o.version {
          Release(i);
          return;
        }
        Release(overlays[o.target]);
      }
      overlays := overlays[o.target := i];
    }

    /** The body of the loop. */
    method Place(dirs: seq<Bundle>, kernel: string, i: nat)
      requires i < |dirs| && Settled(dirs, kernel, i, overlays, firmware, drivers, released)
      modifies this
      ensures Settled(dirs, kernel, i + 1, overlays, firmware, drivers, released)
    {
      var b := dirs[i];
      ghost var was, gone := overlays, released;
      if !b.mounts {
        Uncovered(dirs, kernel, i, overlays, firmware, drivers, gone, firmware, drivers, gone);
        return;
      }
      if b.overlay.Some? {
        if b.overlay.value.None? || !b.wanted {
          Release(i);
          Uncovered(dirs, kernel, i, overlays, firmware, drivers, gone, firmware, drivers, released);
          return;
        }
        Cover(dirs, i);
        Covered(dirs, kernel, i, was, firmware, drivers, gone, overlays, released);
        return;
      }
      if b.abi.Some? && b.abi.value != kernel {
        Release(i);
        Uncovered(dirs, kernel, i, overlays, firmware, drivers, gone, firmware, drivers, released);
        return;
      }
      if b.abi.Some? {
        Uncovered(dirs, kernel, i, overlays, firmware, drivers, gone, firmware, drivers + [i], gone);
        drivers := drivers + [i];
        return;
      }
      Uncovered(dirs, kernel, i, overlays, firmware, drivers, gone, [i] + firmware, drivers, gone);
      firmware := [i] + firmware;
    }

    /** The selection loop of MountFirmware. */
    method Select(dirs: seq<Bundle>, kernel: string)
      requires overlays == map[] && firmware == [] && drivers == [] && released == []
      modifies this
      ensures Settled(dirs, kernel, |dirs|, overlays, firmware, drivers, released)
      ensures forall t :: t in overlays ==> overlays[t] < |dirs| && ForTarget(dirs[overlays[t]], t)
      ensures forall i, t :: 0 <= i < |dirs| && ForTarget(dirs[i], t) ==>
        && t in overlays
        && var v, won := dirs[i].overlay.value.value.version, dirs[overlays[t]].overlay.value.value.version;
           v < won || (v == won && overlays[t] <= i)
      ensures forall i: nat :: i in firmware <==>
        i < |dirs| && dirs[i].mounts && dirs[i].overlay.None? && dirs[i].abi.None?
      ensures forall i: nat :: i in drivers <==>
        i < |dirs| && dirs[i].mounts && dirs[i].overlay.None? && dirs[i].abi == Some(kernel)
      ensures forall i: nat :: i in released <==>
        && i < |dirs| && dirs[i].mounts && i !in firmware && i !in drivers
        && forall t :: t in overlays ==> overlays[t] != i
    {
      for i := 0 to |dirs|
        invariant Settled(dirs, kernel, i, overlays, firmware, drivers, released)
      {
        Place(dirs, kernel, i);
      }
    }

    /** A winner that could not be mounted over its target. */
    method Discard(ghost dirs: seq<Bundle>, t: string)
      requires Conserved(dirs, overlays, firmware, drivers, released) && t in overlays
      modifies this`overlays, this`released
      ensures Conserved(dirs, overlays, firmware, drivers, released)
      ensures overlays == old(overlays) - {t}
    {
      ReleaseWinner(dirs, overlays, firmware, drivers, released, t);
      Release(overlays[t]);
      overlays := overlays - {t};
    }

    /** The winners, in no fixed order: the map is walked as it comes. */
    method ApplyOverlays(ghost dirs: seq<Bundle>, overlayMounts: string -> bool)
      requires Conserved(dirs, overlays, firmware, drivers, released)
      modifies this`overlays, this`released
      ensures Conserved(dirs, overlays, firmware, drivers, released)
      ensures overlays == map t | t in old(overlays) && overlayMounts(t) :: old(overlays)[t]
    {
      ghost var before := overlays;
      var left := overlays.Keys;
      while left != {}
        invariant Walked(before, overlays, left, overlayMounts)
        invariant Conserved(dirs, overlays, firmware, drivers, released)
        decreases |left|
      {
        var t :| t in left;
        WalkOn(before, overlays, left, overlayMounts, t);
        if !overlayMounts(t) { Discard(dirs, t); }
        left := left - {t};
      }
      assert overlays == map t | t in before && overlayMounts(t) :: before[t];
    }

    /** A union that could not be mounted takes all its bundles with it. */
    method ReleaseUnion(ghost dirs: seq<Bundle>)
      requires Conserved(dirs, overlays, firmware, drivers, released)
      modifies this`firmware, this`released
      ensures Conserved(dirs, overlays, firmware, drivers, released) && firmware == []
    {
      Joined(released, firmware);
      released := released + firmware;
      firmware := [];
    }

    /** What follows the loop: each winner is mounted over its target or released; the firmware
        bundles all join one union, or all are released. */
    method Finish(ghost dirs: seq<Bundle>, overlayMounts: string -> bool, unionMounts: bool)
      requires Conserved(dirs, overlays, firmware, drivers, released)
      modifies this
      ensures Conserved(dirs, overlays, firmware, drivers, released)
      ensures overlays == map t | t in old(overlays) && overlayMounts(t) :: old(overlays)[t]
      ensures firmware == (if unionMounts then old(firmware) else []) && drivers == old(drivers)
    {
      ApplyOverlays(dirs, overlayMounts);
      if !unionMounts { ReleaseUnion(dirs); }
    }
  }

  /** The walk over the winners, with those in `left` still to come. */
  ghost predicate Walked(before: map<string, nat>, overlays: map<string, nat>, left: set<string>,
                         mounts: string -> bool) {
    && left <= overlays.Keys <= before.Keys
    && (forall t :: t in before && t !in left ==> (t in overlays <==> mounts(t)))
    && (forall t :: t in overlays ==> overlays[t] == before[t])
  }

  lemma WalkOn(before: map<string, nat>, overlays: map<string, nat>, left: set<string>, mounts: string -> bool,
               t: string)
    requires Walked(before, overlays, left, mounts) && t in left
    ensures t in overlays
    ensures Walked(before, if mounts(t) then overlays else overlays - {t}, left - {t}, mounts)
  {
  }

  // --- What the loop settles ---

  /** The highest wanted version for this target among the first `n`; of equals, the first. */
  predicate Wins(dirs: seq<Bundle>, n: nat, target: string, i: nat)
    requires n <= |dirs|
  {
    && i < n && IsOverlay(dirs[i], target)
    && (forall j :: 0 <= j < n && IsOverlay(dirs[j], target) ==> Version(dirs[j]) <= Version(dirs[i]))
    && (forall j :: 0 <= j < i && IsOverlay(dirs[j], target) ==> Version(dirs[j]) < Version(dirs[i]))
  }

  predicate Descending(s: seq<nat>) { forall i, j :: 0 <= i < j < |s| ==> s[i] > s[j] }

  predicate Ascending(s: seq<nat>) { forall i, j :: 0 <= i < j < |s| ==> s[i] < s[j] }

  predicate NoRepeats(s: seq<nat>) { forall i, j :: 0 <= i < j < |s| ==> s[i] != s[j] }

  lemma Prepended(i: nat, s: seq<nat>)
    requires Descending(s) && forall x :: x in s ==> x < i
    ensures Descending([i] + s)
  {
    forall k | 0 <= k < |s| ensures s[k] < i { assert s[k] in s; }
  }

  lemma Appended(s: seq<nat>, i: nat)
    requires Ascending(s) && forall x :: x in s ==> x < i
    ensures Ascending(s + [i])
  {
    forall k | 0 <= k < |s| ensures s[k] < i { assert s[k] in s; }
  }

  lemma Joined(a: seq<nat>, b: seq<nat>)
    requires NoRepeats(a) && NoRepeats(b) && forall x :: x in a ==> x !in b
    ensures NoRepeats(a + b)
  {
    forall k | 0 <= k < |a| ensures a[k] !in b { assert a[k] in a; }
  }

  predicate Winner(overlays: map<string, nat>, i: nat) { exists t :: t in overlays && overlays[t] == i }

  /** After the first `n` directories. */
  ghost predicate Settled(dirs: seq<Bundle>, kernel: string, n: nat, overlays: map<string, nat>, firmware: seq<nat>,
                          drivers: seq<nat>, released: seq<nat>)
  {
    && n <= |dirs|
    && OverlaysSettled(dirs, n, overlays)
    && (forall i: nat :: i in firmware <==> i < n && IsFirmware(dirs[i])) && Descending(firmware)
    && (forall i: nat :: i in drivers <==> i < n && IsDriver(dirs[i], kernel)) && Ascending(drivers)
    && ReleasedSettled(dirs, kernel, n, overlays, released)
  }

  ghost predicate OverlaysSettled(dirs: seq<Bundle>, n: nat, overlays: map<string, nat>)
    requires n <= |dirs|
  {
    && (forall t :: t in overlays ==> Wins(dirs, n, t, overlays[t]))
    && (forall i :: 0 <= i < n && Covers(dirs[i]) ==> dirs[i].overlay.value.value.target in overlays)
  }

  ghost predicate ReleasedSettled(dirs: seq<Bundle>, kernel: string, n: nat, overlays: map<string, nat>,
                                  released: seq<nat>)
    requires n <= |dirs|
  {
    && (forall i: nat :: i in released <==>
          i < n && dirs[i].mounts && !IsFirmware(dirs[i]) && !IsDriver(dirs[i], kernel) && !Winner(overlays, i))
    && NoRepeats(released)
  }

  lemma Covered(dirs: seq<Bundle>, kernel: string, i: nat, was: map<string, nat>, firmware: seq<nat>, drivers: seq<nat>,
                released: seq<nat>, overlays: map<string, nat>, after: seq<nat>)
    requires i < |dirs| && Settled(dirs, kernel, i, was, firmware, drivers, released) && Covers(dirs[i])
    requires var o := dirs[i].overlay.value.value;
      if o.target in was && Version(dirs[was[o.target]]) >= o.version
      then overlays == was && after == released + [i]
      else overlays == was[o.target := i] && after == released + (if o.target in was then [was[o.target]] else [])
    ensures Settled(dirs, kernel, i + 1, overlays, firmware, drivers, after)
  {
    OverlaysCover(dirs, i, was, overlays);
    WinnersChange(dirs, kernel, i, was, released, overlays, after);
  }

  /** A bundle that covers nothing goes to one of the lists, or nowhere if it did not mount. */
  lemma Uncovered(dirs: seq<Bundle>, kernel: string, i: nat, overlays: map<string, nat>, firmware: seq<nat>,
                  drivers: seq<nat>, released: seq<nat>,
                  firmware': seq<nat>, drivers': seq<nat>, released': seq<nat>)
    requires i < |dirs| && Settled(dirs, kernel, i, overlays, firmware, drivers, released) && !Covers(dirs[i])
    requires firmware' == if IsFirmware(dirs[i]) then [i] + firmware else firmware
    requires drivers' == if IsDriver(dirs[i], kernel) then drivers + [i] else drivers
    requires released'
      == if dirs[i].mounts && !IsFirmware(dirs[i]) && !IsDriver(dirs[i], kernel) then released + [i] else released
    ensures Settled(dirs, kernel, i + 1, overlays, firmware', drivers', released')
  {
    Prepended(i, firmware);
    Appended(drivers, i);
    OverlaysStay(dirs, i, overlays);
    ReleasedStay(dirs, kernel, i, overlays, released, released');
  }

  lemma OverlaysStay(dirs: seq<Bundle>, i: nat, overlays: map<string, nat>)
    requires i < |dirs| && OverlaysSettled(dirs, i, overlays) && !Covers(dirs[i])
    ensures OverlaysSettled(dirs, i + 1, overlays)
  {
    forall t | t in overlays ensures Wins(dirs, i + 1, t, overlays[t]) { assert Wins(dirs, i, t, overlays[t]); }
  }

  lemma ReleasedStay(dirs: seq<Bundle>, kernel: string, i: nat, overlays: map<string, nat>, released: seq<nat>,
                     released': seq<nat>)
    requires i < |dirs| && OverlaysSettled(dirs, i, overlays) && !Covers(dirs[i])
    requires ReleasedSettled(dirs, kernel, i, overlays, released)
    requires released'
      == if dirs[i].mounts && !IsFirmware(dirs[i]) && !IsDriver(dirs[i], kernel) then released + [i] else released
    ensures ReleasedSettled(dirs, kernel, i + 1, overlays, released')
  {
  }

  lemma OverlaysCover(dirs: seq<Bundle>, i: nat, was: map<string, nat>, overlays: map<string, nat>)
    requires i < |dirs| && OverlaysSettled(dirs, i, was) && Covers(dirs[i])
    requires var o := dirs[i].overlay.value.value;
      overlays == if o.target in was && Version(dirs[was[o.target]]) >= o.version then was else was[o.target := i]
    ensures OverlaysSettled(dirs, i + 1, overlays)
  {
  }

  lemma WinnersChange(dirs: seq<Bundle>, kernel: string, i: nat, was: map<string, nat>, released: seq<nat>,
                      overlays: map<string, nat>, after: seq<nat>)
    requires i < |dirs| && OverlaysSettled(dirs, i, was) && ReleasedSettled(dirs, kernel, i, was, released)
      && Covers(dirs[i])
    requires var o := dirs[i].overlay.value.value;
      if o.target in was && Version(dirs[was[o.target]]) >= o.version
      then overlays == was && after == released + [i]
      else overlays == was[o.target := i] && after == released + (if o.target in was then [was[o.target]] else [])
    ensures ReleasedSettled(dirs, kernel, i + 1, overlays, after)
  {
    var target := dirs[i].overlay.value.value.target;
    forall t | t in was ensures was[t] < i && IsOverlay(dirs[was[t]], t) { assert Wins(dirs, i, t, was[t]); }
    if overlays != was {
      NewWinner(was, target, i);
      if target in was { assert Winner(was, was[target]); }
    }
  }

  /** Taking a place at `target` puts out who held it. */
  lemma NewWinner(was: map<string, nat>, target: string, i: nat)
    requires forall t, u :: t in was && u in was && was[t] == was[u] ==> t == u
    requires i !in was.Values
    ensures forall k ::
      Winner(was[target := i], k) <==> k == i || (Winner(was, k) && (target in was ==> k != was[target]))
  {
    var overlays := was[target := i];
    forall k ensures Winner(overlays, k) <==> k == i || (Winner(was, k) && (target in was ==> k != was[target])) {
      assert overlays[target] == i;
      if Winner(was, k) {
        var t :| t in was && was[t] == k;
        if t != target { assert t in overlays && overlays[t] == k; }
      }
      if Winner(overlays, k) && k != i {
        var t :| t in overlays && overlays[t] == k;
        assert t != target && was[t] == k;
      }
    }
  }

  // --- Conservation ---

  /** Of each mounted bundle exactly one of these holds: it covers a directory, it is a kept
      driver, it is in the union, or it was released -- and it is listed there once. */
  ghost predicate Conserved(dirs: seq<Bundle>, overlays: map<string, nat>, firmware: seq<nat>, drivers: seq<nat>,
                            released: seq<nat>) {
    && NoRepeats(firmware) && NoRepeats(drivers) && NoRepeats(released)
    && (forall t, u :: t in overlays && u in overlays && overlays[t] == overlays[u] ==> t == u)
    && forall i: nat ::
         var w, d, f, r := Winner(overlays, i), i in drivers, i in firmware, i in released;
         && ((w || d || f || r) <==> i < |dirs| && dirs[i].mounts)
         && !(w && (d || f || r)) && !(d && (f || r)) && !(f && r)
  }

  lemma SettledConserves(dirs: seq<Bundle>, kernel: string, overlays: map<string, nat>, firmware: seq<nat>,
                         drivers: seq<nat>, released: seq<nat>)
    requires Settled(dirs, kernel, |dirs|, overlays, firmware, drivers, released)
    ensures Conserved(dirs, overlays, firmware, drivers, released)
  {
    forall t | t in overlays ensures IsOverlay(dirs[overlays[t]], t) { assert Wins(dirs, |dirs|, t, overlays[t]); }
  }

  lemma ReleaseWinner(dirs: seq<Bundle>, overlays: map<string, nat>, firmware: seq<nat>, drivers: seq<nat>,
                      released: seq<nat>, t: string)
    requires Conserved(dirs, overlays, firmware, drivers, released) && t in overlays
    ensures Conserved(dirs, overlays - {t}, firmware, drivers, released + [overlays[t]])
  {
    assert Winner(overlays, overlays[t]);
    forall i: nat ensures Winner(overlays - {t}, i) <==> Winner(overlays, i) && i != overlays[t] {
      if Winner(overlays, i) && i != overlays[t] {
        var u :| u in overlays && overlays[u] == i;
        assert u in overlays - {t} && (overlays - {t})[u] == i;
      }
    }
  }
}
