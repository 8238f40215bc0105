/** The firmware track of the WAL (transition.go, deployment.go): independently versioned
    bundles, each with its own candidate, probe count and anti-rollback floor. */
module FirmwareTrack {
  import opened Common

  const DEFAULT_THRESHOLD := 3

  datatype State = Stable | Updating

  datatype Bundle = Bundle(
    current: int, pending: int, pendingHash: string, state: State,
    probes: int, threshold: int, lastKnownGood: int, minVersion: int)

  type Bundles = map<string, Bundle>

  const FRESH := Bundle(0, 0, "", Stable, 0, DEFAULT_THRESHOLD, 0, 0)

  /** What `Bundle(name)` hands out: the stored bundle, or a fresh one on first use. */
  function Get(bundles: Bundles, name: string): Bundle {
    if name in bundles then bundles[name] else FRESH
  }

  predicate HasPending(bundles: Bundles, name: string) {
    name in bundles && Pending(bundles[name])
  }

  predicate Pending(b: Bundle) { b.state == Updating && b.pending != 0 }

  // --- One bundle on its own: what each operation makes of it. ---

  function Deployed(b: Bundle, version: int, hash: string): Bundle {
    if version <= b.minVersion then b
    else b.(pending := version, pendingHash := hash, state := Updating, probes := 0)
  }

  function Promoted(b: Bundle): Bundle {
    b.(lastKnownGood := b.current, minVersion := b.current, pending := 0,
       pendingHash := "", probes := 0, state := Stable)
  }

  function Probed(b: Bundle): Bundle {
    if !Pending(b) then b
    else
      var c := b.(current := b.pending, probes := b.probes + 1);
      if c.probes >= c.threshold then Promoted(c) else c
  }

  function RolledBack(b: Bundle): Bundle {
    b.(current := if b.lastKnownGood != 0 then b.lastKnownGood else b.current,
       pending := 0, pendingHash := "", probes := 0, state := Stable)
  }

  /** Nothing is on trial. */
  predicate Settled(b: Bundle) { b.pending == 0 && b.pendingHash == "" && b.probes == 0 && b.state == Stable }

  /** The track as the daemon holds it: one map of bundles, changed in place. */
  class Track {
    var bundles: Bundles

    constructor (bundles: Bundles)
      ensures this.bundles == bundles
    {
      this.bundles := bundles;
    }

    /** Firmware.Bundle: creates the entry when it is missing. */
    method Bundle(name: string) returns (b: Bundle)
      modifies this
      ensures b == Get(old(bundles), name)
      ensures bundles == old(bundles)[name := b]
    {
      if name !in bundles {
        bundles := bundles[name := FRESH];
      }
      b := bundles[name];
    }

    method Deploy(name: string, version: int, hash: string) returns (accepted: bool)
      modifies this
      ensures accepted == (version > Get(old(bundles), name).minVersion)
      ensures bundles == old(bundles)[name := Deployed(Get(old(bundles), name), version, hash)]
      ensures var b, x := Get(old(bundles), name), bundles[name];
        if !accepted then x == b
        else && x.pending == version && x.pendingHash == hash && x.state == Updating && x.probes == 0
             && x.current == b.current && x.lastKnownGood == b.lastKnownGood && x.minVersion == b.minVersion
             && x.threshold == b.threshold
    {
      var b := Bundle(name);
      if version <= b.minVersion { return false; }
      b := b.(pending := version, pendingHash := hash);
      b := b.(state := Updating, probes := 0);
      bundles := bundles[name := b];
      return true;
    }

    method RecordProbe(name: string) returns (promoted: bool)
      modifies this
      ensures HasPending(old(bundles), name) <==>
        name in old(bundles) && old(bundles)[name].pending != 0 && old(bundles)[name].state == Updating
      ensures !HasPending(old(bundles), name) ==> !promoted && bundles == old(bundles)
      ensures HasPending(old(bundles), name) ==>
        var b := old(bundles)[name];
        && promoted == (b.probes + 1 >= b.threshold)
        && bundles == old(bundles)[name := Probed(b)]
        && var x := bundles[name];
        && x.current == b.pending && x.threshold == b.threshold
        && (promoted ==> x.lastKnownGood == b.pending && x.minVersion == b.pending && Settled(x))
        && (!promoted ==>
              && x.probes == b.probes + 1 && x.pending == b.pending && x.pendingHash == b.pendingHash
              && x.state == Updating && x.lastKnownGood == b.lastKnownGood && x.minVersion == b.minVersion)
    {
      if !HasPending(bundles, name) { return false; }
      var b := Bundle(name);
      if b.current != b.pending {
        b := b.(current := b.pending);
      }
      b := b.(probes := b.probes + 1);
      bundles := bundles[name := b];
      if b.probes >= b.threshold {
        Promote(name);
        return true;
      }
      return false;
    }

    method Promote(name: string)
      modifies this
      ensures bundles == old(bundles)[name := Promoted(Get(old(bundles), name))]
      ensures var b, x := Get(old(bundles), name), bundles[name];
        && x.current == x.lastKnownGood == x.minVersion == b.current && Settled(x) && x.threshold == b.threshold
    {
      var b := Bundle(name);
      b := b.(lastKnownGood := b.current);
      b := b.(minVersion := b.current);
      b := b.(pending := 0, pendingHash := "", probes := 0, state := Stable);
      bundles := bundles[name := b];
    }

    method Rollback(name: string)
      modifies this
      ensures bundles == old(bundles)[name := RolledBack(Get(old(bundles), name))]
      ensures var b, x := Get(old(bundles), name), bundles[name];
        && x.current == (if b.lastKnownGood != 0 then b.lastKnownGood else b.current) && Settled(x)
        && x.lastKnownGood == b.lastKnownGood && x.minVersion == b.minVersion && x.threshold == b.threshold
    {
      var b := Bundle(name);
      if b.lastKnownGood != 0 {
        b := b.(current := b.lastKnownGood);
      }
      b := b.(pending := 0, pendingHash := "", probes := 0, state := Stable);
      bundles := bundles[name := b];
    }
  }

  // --- Traces ---

  datatype Op =
    | DeployOp(name: string, version: int, hash: string)
    | ProbeOp(name: string)
    | RollbackOp(name: string)

  /** One operation on the whole map, as the class methods above leave it. */
  function Step(bundles: Bundles, op: Op): Bundles {
    match op
    case DeployOp(n, v, h) => bundles[n := Deployed(Get(bundles, n), v, h)]
    case ProbeOp(n) => if HasPending(bundles, n) then bundles[n := Probed(bundles[n])] else bundles
    case RollbackOp(n) => bundles[n := RolledBack(Get(bundles, n))]
  }

  /** The same operation on the one bundle it names. */
  function StepOne(b: Bundle, op: Op): Bundle {
    match op
    case DeployOp(_, v, h) => Deployed(b, v, h)
    case ProbeOp(_) => Probed(b)
    case RollbackOp(_) => RolledBack(b)
  }

  function Run(bundles: Bundles, ops: seq<Op>): Bundles {
    if ops == [] then bundles else Step(Run(bundles, ops[..|ops| - 1]), ops[|ops| - 1])
  }

  function RunOne(b: Bundle, ops: seq<Op>): Bundle {
    if ops == [] then b else StepOne(RunOne(b, ops[..|ops| - 1]), ops[|ops| - 1])
  }

  /** The operations of a trace that name one bundle. */
  function Only(ops: seq<Op>, name: string): (r: seq<Op>)
    ensures forall i :: 0 <= i < |r| ==> r[i].name == name
  {
    if ops == [] then []
    else
      var rest, last := Only(ops[..|ops| - 1], name), ops[|ops| - 1];
      if last.name == name then rest + [last] else rest
  }

  /** Bundles are independent: under any interleaving, each one ends where its own
      operations alone would have taken it. */
  lemma {:induction false} BundlesIndependent(bundles: Bundles, ops: seq<Op>, name: string)
    ensures Get(Run(bundles, ops), name) == RunOne(Get(bundles, name), Only(ops, name))
  {
    if ops != [] {
      var init, last := ops[..|ops| - 1], ops[|ops| - 1];
      BundlesIndependent(bundles, init, name);
      var own := Only(init, name);
      if last.name == name {
        assert (own + [last])[..|own|] == own;
      }
    }
  }

  /** What a bundle that was only ever changed through the operations satisfies. */
  predicate Sound(b: Bundle) {
    && 0 <= b.minVersion <= b.current
    && b.minVersion == b.lastKnownGood
    && (b.pending != 0 ==> b.pending > b.minVersion)
    && b.threshold >= 1
    && (Pending(b) ==> 0 <= b.probes < b.threshold)
  }

  lemma StepKeepsSound(b: Bundle, op: Op)
    requires Sound(b)
    ensures Sound(StepOne(b, op))
    ensures b.minVersion <= StepOne(b, op).minVersion
  {
  }

  /** The floor never drops and the running version never falls below it. */
  lemma {:induction false} FloorMonotone(b: Bundle, ops: seq<Op>, k: nat)
    requires Sound(b) && k <= |ops|
    ensures Sound(RunOne(b, ops))
    ensures RunOne(b, ops[..k]).minVersion <= RunOne(b, ops).minVersion
  {
    if k < |ops| {
      var init := ops[..|ops| - 1];
      FloorMonotone(b, init, k);
      assert init[..k] == ops[..k];
      StepKeepsSound(RunOne(b, init), ops[|ops| - 1]);
    } else {
      assert ops[..k] == ops;
      if ops != [] {
        var init := ops[..|ops| - 1];
        FloorMonotone(b, init, 0);
        StepKeepsSound(RunOne(b, init), ops[|ops| - 1]);
      }
    }
  }

  function Probes(ops: seq<Op>): nat {
    if ops == [] then 0
    else Probes(ops[..|ops| - 1]) + if ops[|ops| - 1].ProbeOp? then 1 else 0
  }

  /** The operation at `d` deployed a candidate the floor admitted, and nothing after it
      disturbed that candidate: only probes, and deploys the floor refused. */
  ghost predicate Trial(b: Bundle, ops: seq<Op>, d: nat) {
    && d < |ops| && ops[d].DeployOp?
    && var floor := RunOne(b, ops[..d]).minVersion;
    && floor < ops[d].version
    && forall i :: d < i < |ops| ==>
         ops[i].ProbeOp? || (ops[i].DeployOp? && ops[i].version <= floor)
  }

  /** A candidate in flight is the one of the last admitted deploy, and its probe count
      is the number of clean probes since. */
  lemma {:induction false} CandidateInFlight(b: Bundle, ops: seq<Op>) returns (d: nat)
    requires Sound(b) && !Pending(b) && Pending(RunOne(b, ops))
    ensures Trial(b, ops, d)
    ensures var r := RunOne(b, ops);
      && r.pending == ops[d].version && r.probes == Probes(ops[d + 1..])
      && r.minVersion == RunOne(b, ops[..d]).minVersion && r.threshold == b.threshold
  {
    var n := |ops| - 1;
    var init, last := ops[..n], ops[n];
    FloorMonotone(b, init, 0);
    ThresholdKept(b, init);
    var p := RunOne(b, init);
    assert RunOne(b, ops) == StepOne(p, last) && init + [last] == ops;
    if last.DeployOp? && last.version > p.minVersion {
      TrialBegins(b, init, last);
      return n;
    }
    assert Pending(p) && !last.RollbackOp?;
    d := CandidateInFlight(b, init);
    ExtendTrial(b, init, last, d);
  }

  lemma TrialBegins(b: Bundle, init: seq<Op>, last: Op)
    requires last.DeployOp? && last.version > RunOne(b, init).minVersion
    ensures var ops, d := init + [last], |init|;
      && Trial(b, ops, d) && Probes(ops[d + 1..]) == 0 && ops[..d] == init
      && RunOne(b, ops).pending == last.version && RunOne(b, ops).probes == 0
      && RunOne(b, ops).minVersion == RunOne(b, init).minVersion
  {
    var ops, d := init + [last], |init|;
    assert ops[..d] == init && ops[d + 1..] == [];
  }

  /** A trial goes on through a probe or a refused deploy, and counts the probe. */
  lemma ExtendTrial(b: Bundle, init: seq<Op>, last: Op, d: nat)
    requires Trial(b, init, d)
    requires last.ProbeOp? || (last.DeployOp? && last.version <= RunOne(b, init[..d]).minVersion)
    ensures Trial(b, init + [last], d)
    ensures (init + [last])[..d] == init[..d]
    ensures Probes((init + [last])[d + 1..]) == Probes(init[d + 1..]) + if last.ProbeOp? then 1 else 0
  {
    var ops := init + [last];
    var w := ops[d + 1..];
    assert ops[..d] == init[..d];
    assert w[..|w| - 1] == init[d + 1..] && w[|w| - 1] == last;
  }

  /** The floor rises only on the probe that completes `threshold` clean probes of one
      candidate, and it rises to that candidate's version. */
  lemma FloorRises(b: Bundle, ops: seq<Op>, last: Op) returns (d: nat)
    requires Sound(b) && !Pending(b)
    requires RunOne(b, ops + [last]).minVersion != RunOne(b, ops).minVersion
    ensures last.ProbeOp? && Trial(b, ops, d)
    ensures Probes(ops[d + 1..]) + 1 == b.threshold
    ensures RunOne(b, ops + [last]).minVersion == ops[d].version
  {
    var all := ops + [last];
    assert all[..|all| - 1] == ops;
    FloorMonotone(b, ops, 0);
    d := CandidateInFlight(b, ops);
  }

  lemma {:induction false} ThresholdKept(b: Bundle, ops: seq<Op>)
    ensures RunOne(b, ops).threshold == b.threshold
  {
    if ops != [] { ThresholdKept(b, ops[..|ops| - 1]); }
  }
}
