/** The deployment WAL (internal/deployment): which release runs, which one is on trial,
    which one is known good, and the counters that decide between them. */
module DeploymentWal {
  import opened Common
  import opened Versions
  import FirmwareTrack

  /** deployment.json without its clock and bookkeeping fields. `""` is the code's own
      "no version", as in the file. */
  datatype Wal = Wal(
    current: string, pending: string, pendingHash: string, rollback: string,
    bootAttempts: int, maxAttempts: int, lastKnownGood: string,
    kcCurrent: nat, kcPending: nat, stableBoots: int, stableThreshold: int,
    counter: nat, firmware: FirmwareTrack.Bundles)
  {
    predicate HasPending() { pending != "" }

    predicate NeedsRecovery() { HasPending() && bootAttempts <= 0 && lastKnownGood == "" }
  }

  // --- The transitions as functions of the record ---

  function Deployed(w: Wal, version: string): Wal {
    var kc := KcOf(version);
    w.(pending := version, bootAttempts := w.maxAttempts,
       kcPending := if kc.Some? then kc.value else w.kcPending, stableBoots := 0)
  }

  function Promoted(w: Wal): Wal {
    w.(lastKnownGood := w.current, pending := "", bootAttempts := 0, kcPending := 0,
       stableBoots := 0, counter := w.kcCurrent)
  }

  /** The switch and the count of one good boot, before any promotion. */
  function Switched(w: Wal): Wal {
    var s := if w.current != w.pending
             then w.(rollback := w.current, current := w.pending, kcCurrent := w.kcPending)
             else w;
    s.(stableBoots := w.stableBoots + 1, bootAttempts := w.maxAttempts)
  }

  predicate Promotes(w: Wal, identityConfirmed: bool) {
    w.HasPending() && identityConfirmed && w.stableBoots + 1 >= w.stableThreshold
  }

  function GoodBoot(w: Wal, identityConfirmed: bool): Wal {
    if !w.HasPending() then w
    else if Promotes(w, identityConfirmed) then Promoted(Switched(w))
    else Switched(w)
  }

  function Spent(w: Wal): Wal {
    if w.HasPending() && w.bootAttempts > 0 then w.(bootAttempts := w.bootAttempts - 1) else w
  }

  function RolledBack(w: Wal): Wal {
    var current := if w.lastKnownGood != "" then w.lastKnownGood
                   else if w.rollback != "" then w.rollback else w.current;
    var kc := KcOf(current);
    w.(current := current, kcCurrent := if kc.Some? then kc.value else w.kcCurrent,
       pending := "", bootAttempts := 0, kcPending := 0, stableBoots := 0)
  }

  /** deployment.New: the first image is its own last known good. */
  function New(version: string): Wal {
    var kc := KcOf(version);
    Wal(version, "", "", "", 0, 3, version, if kc.Some? then kc.value else 0, 0, 0, 3, 0, map[])
  }

  /** The limits were set once, and the firmware track has its own operations. */
  predicate SameLimits(w: Wal, x: Wal) {
    x.maxAttempts == w.maxAttempts && x.stableThreshold == w.stableThreshold && x.firmware == w.firmware
  }

  /** What is installed, and what there is to go back to. */
  predicate SameInstalled(w: Wal, x: Wal) {
    && SameLimits(w, x) && x.current == w.current && x.kcCurrent == w.kcCurrent
    && x.lastKnownGood == w.lastKnownGood && x.rollback == w.rollback
  }

  /** The loaded record, updated in place by the daemon and written back by Save. */
  class Deployment {
    var current: string
    var pending: string
    var pendingHash: string
    var rollback: string
    var bootAttempts: int
    var maxAttempts: int
    var lastKnownGood: string
    var kcCurrent: nat
    var kcPending: nat
    var stableBoots: int
    var stableThreshold: int
    var counter: nat
    var track: FirmwareTrack.Track

    function Record(): Wal
      reads this, track
    {
      Wal(current, pending, pendingHash, rollback, bootAttempts, maxAttempts, lastKnownGood,
          kcCurrent, kcPending, stableBoots, stableThreshold, counter, track.bundles)
    }

    /** A record as parsed from the file. */
    constructor (w: Wal)
      ensures fresh(track)
      ensures Record() == w
    {
      current, pending, pendingHash, rollback := w.current, w.pending, w.pendingHash, w.rollback;
      bootAttempts, maxAttempts, lastKnownGood := w.bootAttempts, w.maxAttempts, w.lastKnownGood;
      kcCurrent, kcPending, stableBoots := w.kcCurrent, w.kcPending, w.stableBoots;
      stableThreshold, counter := w.stableThreshold, w.counter;
      track := new FirmwareTrack.Track(w.firmware);
    }

    method Deploy(version: string)
      modifies this
      ensures track == old(track)
      ensures Record() == Deployed(old(Record()), version)
      ensures pending == version && bootAttempts == maxAttempts && stableBoots == 0
      ensures kcPending == if KcOf(version).Some? then KcOf(version).value else old(kcPending)
      ensures SameInstalled(old(Record()), Record()) && pendingHash == old(pendingHash) && counter == old(counter)
    {
      pending := version;
      bootAttempts := maxAttempts;
      var kc, ok := ScanKc(version);
      if ok { kcPending := kc; }
      stableBoots := 0;
    }

    method RecordGoodBoot(identityConfirmed: bool) returns (promoted: bool)
      modifies this
      ensures track == old(track)
      ensures promoted == Promotes(old(Record()), identityConfirmed)
      ensures Record() == GoodBoot(old(Record()), identityConfirmed)
      ensures promoted <==>
        old(pending) != "" && identityConfirmed && old(stableBoots) + 1 >= old(stableThreshold)
      ensures old(pending) == "" ==> Record() == old(Record())
      ensures old(pending) != "" ==>
        && current == old(pending)
        && rollback == (if old(current) != old(pending) then old(current) else old(rollback))
        && kcCurrent == (if old(current) != old(pending) then old(kcPending) else old(kcCurrent))
      ensures old(pending) != "" && !promoted ==>
        && pending == old(pending) && kcPending == old(kcPending) && bootAttempts == maxAttempts
        && stableBoots == old(stableBoots) + 1 && lastKnownGood == old(lastKnownGood) && counter == old(counter)
      ensures promoted ==>
        && pending == "" && kcPending == 0 && bootAttempts == 0 && stableBoots == 0
        && lastKnownGood == old(pending) && counter == kcCurrent
      ensures SameLimits(old(Record()), Record()) && pendingHash == old(pendingHash)
    {
      if pending == "" { return false; }
      if current != pending {
        rollback := current;
        current := pending;
        kcCurrent := kcPending;
      }
      stableBoots := stableBoots + 1;
      bootAttempts := maxAttempts;
      if identityConfirmed && stableBoots >= stableThreshold {
        Promote();
        return true;
      }
      return false;
    }

    method PromoteRunning()
      modifies this
      ensures track == old(track)
      ensures Record() == if old(Record()).HasPending() then Promoted(old(Record())) else old(Record())
    {
      if pending != "" { Promote(); }
    }

    method Promote()
      modifies this
      ensures track == old(track)
      ensures Record() == Promoted(old(Record()))
      ensures lastKnownGood == current == old(current) && counter == kcCurrent == old(kcCurrent)
      ensures pending == "" && kcPending == 0 && bootAttempts == 0 && stableBoots == 0
      ensures SameLimits(old(Record()), Record()) && pendingHash == old(pendingHash) && rollback == old(rollback)
    {
      lastKnownGood := current;
      pending := "";
      bootAttempts := 0;
      kcPending := 0;
      stableBoots := 0;
      counter := kcCurrent;
    }

    method DecrementBootAttempt() returns (exhausted: bool)
      modifies this
      ensures track == old(track)
      ensures Record() == Spent(old(Record()))
      ensures exhausted <==> pending != "" && bootAttempts <= 0
      ensures bootAttempts == old(bootAttempts) - if pending != "" && old(bootAttempts) > 0 then 1 else 0
      ensures Record() == old(Record()).(bootAttempts := bootAttempts)
    {
      if pending == "" { return false; }
      if bootAttempts > 0 { bootAttempts := bootAttempts - 1; }
      return bootAttempts <= 0;
    }

    method Rollback()
      modifies this
      ensures track == old(track)
      ensures Record() == RolledBack(old(Record()))
      ensures pending == "" && kcPending == 0 && bootAttempts == 0 && stableBoots == 0
      ensures current == (if old(lastKnownGood) != "" then old(lastKnownGood)
                          else if old(rollback) != "" then old(rollback) else old(current))
      ensures kcCurrent == if KcOf(current).Some? then KcOf(current).value else old(kcCurrent)
      ensures SameLimits(old(Record()), Record()) && pendingHash == old(pendingHash)
      ensures rollback == old(rollback) && lastKnownGood == old(lastKnownGood) && counter == old(counter)
    {
      if lastKnownGood != "" {
        current := lastKnownGood;
      } else if rollback != "" {
        current := rollback;
      }
      var kc, ok := ScanKc(current);
      if ok { kcCurrent := kc; }
      pending := "";
      bootAttempts := 0;
      kcPending := 0;
      stableBoots := 0;
    }
  }
}
