/** internal/otad/loader.go and the loader's own side of it (loader/src/main.zig): a new boot
    loader is staged in the kernelcache trial slot, chained once, and installed only after it
    has said that it ran. */
module LoaderTrial {
  import opened Common
  import Device
  import opened Plans

  /** Checks on images, as parameters. `versionOf` is the version baked into a loader image,
      which the running loader also reports. */
  datatype Checks = Checks(
    digest: Bytes -> string, versionOf: Bytes -> int, isLoader: Bytes -> bool,
    hashes: (Bytes, string) -> bool, valid: (Bytes, Bytes) -> bool, starts: Bytes -> bool)

  /** The candidate marker. A blank or missing file reads as version 0, which is no marker. */
  datatype Marker = Marker(version: int, digest: string)

  /** What happened, in order; a history of the run, not a file. A staging is noted with the
      signature and the manifest hash its image was checked against. */
  datatype Note =
    | Staged(image: Bytes, sig: Bytes, hash: string)
    | Armed
    | Chained(image: Bytes)
    | Installed(image: Bytes, before: Option<Bytes>)
    | FailedToRun(version: int)
    | RecordCleared                        // the failure file emptied or removed

  datatype Esp = Esp(
    next: Option<Bytes>, sig: Option<Bytes>, installed: Option<Bytes>, previous: Option<Bytes>,
    candidate: Option<Marker>, ran: Option<int>, failed: Option<int>,
    boot: Device.BootState, osPending: bool, log: seq<Note>)

  datatype Write =
    | PutNext(bytes: Option<Bytes>)
    | PutSig(bytes: Option<Bytes>)
    | Mark(marker: Marker, image: Bytes, sig: Bytes, hash: string)
    | Unmark
    | SetRan(version: Option<int>)
    | SetFailed(version: Option<int>)
    | KeepPrevious
    | InstallImage(image: Bytes)
    | Arm
    | Start(image: Bytes)
    | PutBoot(state: Device.BootState)
    | PutPending(pending: bool)

  function Apply(e: Esp, w: Write): Esp {
    match w
    case PutNext(b) => e.(next := b)
    case PutSig(b) => e.(sig := b)
    case Mark(m, image, sig, hash) => e.(candidate := Some(m), log := e.log + [Staged(image, sig, hash)])
    case Unmark => e.(candidate := None)
    case SetRan(v) => e.(ran := v)
    case SetFailed(v) => e.(failed := v, log := e.log + [if v.Some? then FailedToRun(v.value) else RecordCleared])
    case KeepPrevious => e.(previous := e.installed)
    case InstallImage(image) => e.(installed := Some(image), log := e.log + [Installed(image, e.installed)])
    case Arm => e.(boot := Device.BootState(Device.TargetNext, true, 1), log := e.log + [Armed])
    case Start(image) => e.(log := e.log + [Chained(image)])
    case PutBoot(b) => e.(boot := b)
    case PutPending(p) => e.(osPending := p)
  }

  function VersionAt(ck: Checks, image: Option<Bytes>): int { if image.Some? then ck.versionOf(image.value) else 0 }

  // --- StageLoader ---

  /** What the verified manifest offers and its URLs deliver; version 0 stands for none. */
  datatype Offer = Offer(version: nat, image: Option<Bytes>, hash: string, sig: Option<Bytes>, sigHash: string)

  predicate ImageGood(ck: Checks, o: Offer) {
    o.image.Some? && ck.hashes(o.image.value, o.hash) && ck.versionOf(o.image.value) == o.version
  }

  predicate SigGood(ck: Checks, o: Offer)
    requires o.image.Some?
  {
    o.sig.Some? && ck.hashes(o.sig.value, o.sigHash) && ck.valid(o.image.value, o.sig.value)
  }

  /** Image and signature arrived, hash to what the manifest says, belong together, and the image
      carries the version it is offered as. */
  predicate AllGood(ck: Checks, o: Offer) {
    && o.image.Some? && o.sig.Some?
    && ck.hashes(o.image.value, o.hash) && ck.hashes(o.sig.value, o.sigHash) && ck.valid(o.image.value, o.sig.value)
    && ck.versionOf(o.image.value) == o.version
  }

  predicate Refused(ck: Checks, e: Esp, o: Offer, retry: bool) {
    || e.osPending || o.version < 1 || o.version <= VersionAt(ck, e.installed)
    || (e.failed == Some(o.version) && !retry)
  }

  function MarkOf(ck: Checks, o: Offer): Write
    requires o.image.Some? && o.sig.Some?
  {
    Mark(Marker(o.version, ck.digest(o.image.value)), o.image.value, o.sig.value, o.hash)
  }

  function ArmPlan(ck: Checks, o: Offer): seq<Write>
    requires o.image.Some? && o.sig.Some?
  {
    [SetRan(None), Unmark, MarkOf(ck, o), Arm]
  }

  function SigPlan(ck: Checks, o: Offer): seq<Write>
    requires o.image.Some?
  {
    if o.sig.None? then [PutNext(None)]
    else [PutSig(o.sig)] + (if SigGood(ck, o) then ArmPlan(ck, o) else [PutNext(None), PutSig(None)])
  }

  function StagePlan(ck: Checks, e: Esp, o: Offer, retry: bool): seq<Write> {
    if Refused(ck, e, o, retry) || o.image.None? then []
    else [PutNext(o.image)] + (if ImageGood(ck, o) then SigPlan(ck, o) else [PutNext(None)])
  }

  datatype Report = Interrupted | RefusedReport | FailedReport | Done

  method StageLoader(m: Store<Esp, Write>, ck: Checks, o: Offer, retry: bool) returns (r: Report)
    requires m.apply == Apply
    modifies m
    ensures Performed(Apply, old(m.state), old(m.power), StagePlan(ck, old(m.state), o, retry), m.state, m.power,
      r != Interrupted)
    ensures r == Done ==> !Refused(ck, old(m.state), o, retry) && ImageGood(ck, o) && SigGood(ck, o)
    ensures r == RefusedReport <==> Refused(ck, old(m.state), o, retry)
    ensures r == RefusedReport <==>
      || old(m.state).osPending || o.version < 1 || (old(m.state).failed == Some(o.version) && !retry)
      || (old(m.state).installed.Some? && o.version <= ck.versionOf(old(m.state).installed.value))
    ensures r == Done ==> AllGood(ck, o)
    ensures r == FailedReport ==> !AllGood(ck, o)
  {
    if m.state.osPending || o.version < 1 { return RefusedReport; }
    if o.version <= VersionAt(ck, m.state.installed) { return RefusedReport; }
    if m.state.failed == Some(o.version) && !retry { return RefusedReport; }
    if o.image.None? { return FailedReport; }
    ghost var e0, p0 := m.state, m.power;
    ghost var rest := if ImageGood(ck, o) then SigPlan(ck, o) else [PutNext(None)];
    var ok := m.Do(PutNext(o.image));
    if !ok { PerformedCut(Apply, e0, p0, [PutNext(o.image)], rest, m.state, m.power); return Interrupted; }
    ghost var e1, p1 := m.state, m.power;
    if !ck.hashes(o.image.value, o.hash) || ck.versionOf(o.image.value) != o.version {
      ok := m.Do(PutNext(None));
      r := if ok then FailedReport else Interrupted;
    } else {
      r := StageSignature(m, ck, o);
    }
    PerformedThen(Apply, e0, p0, [PutNext(o.image)], e1, p1, rest, m.state, m.power, r != Interrupted);
  }

  method StageSignature(m: Store<Esp, Write>, ck: Checks, o: Offer) returns (r: Report)
    requires m.apply == Apply && o.image.Some?
    modifies m
    ensures Performed(Apply, old(m.state), old(m.power), SigPlan(ck, o), m.state, m.power, r != Interrupted)
    ensures r == Done ==> SigGood(ck, o)
    ensures r == FailedReport ==> !SigGood(ck, o)
    ensures r != RefusedReport
  {
    if o.sig.None? {
      var ok := m.Do(PutNext(None));
      return if ok then FailedReport else Interrupted;
    }
    ghost var e0, p0 := m.state, m.power;
    ghost var rest := if SigGood(ck, o) then ArmPlan(ck, o) else [PutNext(None), PutSig(None)];
    var ok := m.Do(PutSig(o.sig));
    if !ok { PerformedCut(Apply, e0, p0, [PutSig(o.sig)], rest, m.state, m.power); return Interrupted; }
    ghost var e1, p1 := m.state, m.power;
    if !ck.hashes(o.sig.value, o.sigHash) || !ck.valid(o.image.value, o.sig.value) {
      ok := m.DoAll([PutNext(None), PutSig(None)]);
      r := if ok then FailedReport else Interrupted;
    } else {
      ok := m.DoAll(ArmPlan(ck, o));
      r := if ok then Done else Interrupted;
    }
    PerformedThen(Apply, e0, p0, [PutSig(o.sig)], e1, p1, rest, m.state, m.power, r != Interrupted);
  }

  // --- The boot ---

  predicate OnTrial(e: Esp) { e.boot.target == Device.TargetNext && e.boot.trial && e.boot.attempts > 0 }

  /** The budget is charged before the slot is chained; a chained loader then reports. */
  function BootPlan(ck: Checks, e: Esp): seq<Write> {
    if !OnTrial(e) then []
    else
      [PutBoot(Device.BootState(Device.TargetNext, true, e.boot.attempts - 1))]
      + (if e.next.Some? && e.sig.Some? && ck.valid(e.next.value, e.sig.value) && ck.starts(e.next.value)
         then [Start(e.next.value)]
              + (if ck.isLoader(e.next.value) then [SetRan(Some(ck.versionOf(e.next.value)))] else [])
         else [])
  }

  // --- HandleLoaderCandidate ---

  const CANCEL := [Unmark, SetRan(None)]

  function InstallPlan(e: Esp, image: Bytes): seq<Write> {
    (if e.installed.Some? then [KeepPrevious] else []) + [InstallImage(image)]
  }

  /** The candidate's fate, before the markers are cleared. */
  function VerdictPlan(ck: Checks, e: Esp, c: Marker): seq<Write> {
    if e.ran != Some(c.version) then [SetFailed(None), SetFailed(Some(c.version))]
    else if e.next.None? || ck.digest(e.next.value) != c.digest then []
    else InstallPlan(e, e.next.value) + [SetFailed(None)]
  }

  function HandlePlan(ck: Checks, e: Esp): seq<Write> {
    if e.candidate.None? then [] else VerdictPlan(ck, e, e.candidate.value) + CANCEL
  }

  method InstallLoaderImage(m: Store<Esp, Write>, image: Bytes) returns (ok: bool)
    requires m.apply == Apply
    modifies m
    ensures Performed(Apply, old(m.state), old(m.power), InstallPlan(old(m.state), image), m.state, m.power, ok)
  {
    ghost var e0, p0 := m.state, m.power;
    ghost var kept: seq<Write> := [];
    if m.state.installed.Some? {
      kept := [KeepPrevious];
      ok := m.Do(KeepPrevious);
      if !ok { PerformedCut(Apply, e0, p0, kept, [InstallImage(image)], m.state, m.power); return; }
    }
    ghost var e1, p1 := m.state, m.power;
    ok := m.Do(InstallImage(image));
    PerformedThen(Apply, e0, p0, kept, e1, p1, [InstallImage(image)], m.state, m.power, ok);
  }

  datatype Outcome = Stopped | NoCandidate | DidNotStart | Changed | NowInstalled

  method Verdict(m: Store<Esp, Write>, ck: Checks, c: Marker) returns (r: Outcome)
    requires m.apply == Apply
    modifies m
    ensures Performed(Apply, old(m.state), old(m.power), VerdictPlan(ck, old(m.state), c), m.state, m.power,
      r != Stopped)
    ensures r == DidNotStart ==> old(m.state).ran != Some(c.version)
    ensures r == NowInstalled ==>
      && m.state.installed == old(m.state).next
      && (old(m.state).installed.Some? ==> m.state.previous == old(m.state).installed)
    ensures r != NoCandidate
  {
    if m.state.ran != Some(c.version) {
      var ok := m.DoAll([SetFailed(None), SetFailed(Some(c.version))]);
      return if ok then DidNotStart else Stopped;
    }
    if m.state.next.None? || ck.digest(m.state.next.value) != c.digest { return Changed; }
    ghost var e0, p0 := m.state, m.power;
    var image := m.state.next.value;
    ghost var install := InstallPlan(e0, image);
    var ok := InstallLoaderImage(m, image);
    if !ok { PerformedCut(Apply, e0, p0, install, [SetFailed(None)], m.state, m.power); return Stopped; }
    InstallCut(e0, image, p0);
    ghost var e1, p1 := m.state, m.power;
    ok := m.Do(SetFailed(None));
    PerformedThen(Apply, e0, p0, install, e1, p1, [SetFailed(None)], m.state, m.power, ok);
    return if ok then NowInstalled else Stopped;
  }

  lemma InstallCut(e: Esp, image: Bytes, p: nat)
    requires p >= |InstallPlan(e, image)|
    ensures var t := Cut(Apply, e, InstallPlan(e, image), p);
      t.installed == Some(image) && (e.installed.Some? ==> t.previous == e.installed)
  {
    if e.installed.Some? {
      assert InstallPlan(e, image) == [KeepPrevious] + ([InstallImage(image)] + []);
      CutCons(Apply, e, KeepPrevious, [InstallImage(image)] + [], p);
      CutCons(Apply, Apply(e, KeepPrevious), InstallImage(image), [], p - 1);
    } else {
      assert InstallPlan(e, image) == [InstallImage(image)] + [];
      CutCons(Apply, e, InstallImage(image), [], p);
    }
  }

  method HandleLoaderCandidate(m: Store<Esp, Write>, ck: Checks) returns (r: Outcome)
    requires m.apply == Apply
    modifies m
    ensures Performed(Apply, old(m.state), old(m.power), HandlePlan(ck, old(m.state)), m.state, m.power, r != Stopped)
    ensures r == NoCandidate <==> old(m.state).candidate.None?
  {
    if m.state.candidate.None? { return NoCandidate; }
    ghost var e0, p0 := m.state, m.power;
    var c := m.state.candidate.value;
    r := Verdict(m, ck, c);
    if r == Stopped { PerformedCut(Apply, e0, p0, VerdictPlan(ck, e0, c), CANCEL, m.state, m.power); return; }
    ghost var e1, p1 := m.state, m.power;
    var ok := m.DoAll(CANCEL);
    PerformedThen(Apply, e0, p0, VerdictPlan(ck, e0, c), e1, p1, CANCEL, m.state, m.power, ok);
    if !ok { r := Stopped; }
  }

  // --- Runs ---

  /** What happens to these files, each cut after some number of writes: the loader's trial,
      and the parts of the OS update that share the trial slot. */
  datatype Event =
    | StageEvent(offer: Offer, retry: bool)
    | BootEvent
    | ConfirmEvent                                     // BootSuccess with no OS candidate
    | OsStageEvent(image: Bytes, sig: Bytes, attempts: nat)
    | OsRearmEvent(attempts: nat)                      // a good or missed boot of an OS candidate
    | OsDecidedEvent                                   // promoted or rolled back
    | RecoveryEvent                                    // StageRecovery frees the trial slot

  const SETTLE: seq<Write> := [PutBoot(Device.BOOT_ACTIVE), PutNext(None), PutSig(None)]

  function EventPlan(ck: Checks, e: Esp, ev: Event): seq<Write> {
    match ev
    case StageEvent(o, retry) => StagePlan(ck, e, o, retry)
    case BootEvent => BootPlan(ck, e)
    case ConfirmEvent => if e.osPending then [] else HandlePlan(ck, e) + SETTLE
    case OsStageEvent(image, sig, n) =>
      if ck.isLoader(image) then []
      else [Unmark, SetRan(None), PutNext(Some(image)), PutSig(Some(sig)), PutPending(true),
            PutBoot(Device.BootState(Device.TargetNext, true, n))]
    case OsRearmEvent(n) => if e.osPending then [PutBoot(Device.BootState(Device.TargetNext, true, n))] else []
    case OsDecidedEvent =>
      if e.osPending then [PutBoot(Device.BOOT_ACTIVE), PutPending(false), PutNext(None), PutSig(None)] else []
    case RecoveryEvent => if e.osPending then [] else [PutNext(None)]
  }

  function Step(ck: Checks, e: Esp, ev: Event, writes: nat): Esp { Cut(Apply, e, EventPlan(ck, e, ev), writes) }

  function Run(ck: Checks, e: Esp, events: seq<(Event, nat)>): Esp {
    if events == [] then e
    else
      var last := events[|events| - 1];
      Step(ck, Run(ck, e, events[..|events| - 1]), last.0, last.1)
  }

  // --- What the history says ---

  function LastStaged(log: seq<Note>): Option<Note> {
    if log == [] then None
    else if log[|log| - 1].Staged? then Some(log[|log| - 1])
    else LastStaged(log[..|log| - 1])
  }

  /** The staged image has the hash of a verified manifest and a valid signature. */
  predicate Verified(ck: Checks, n: Note) { n.Staged? && ck.hashes(n.image, n.hash) && ck.valid(n.image, n.sig) }

  /** The last staging was of this image, and it was verified. */
  predicate LastVerified(ck: Checks, log: seq<Note>, image: Bytes) {
    var n := LastStaged(log);
    n.Some? && n.value.Staged? && n.value.image == image && Verified(ck, n.value)
  }

  /** A loader reporting this version was chained since the last staging. */
  predicate RanSince(ck: Checks, log: seq<Note>, version: int) {
    log != [] &&
    var n := log[|log| - 1];
    if n.Staged? then false
    else
      || (n.Chained? && ck.isLoader(n.image) && ck.versionOf(n.image) == version)
      || RanSince(ck, log[..|log| - 1], version)
  }

  /** Loaders that may still be chained for the last arming. */
  function Budget(ck: Checks, log: seq<Note>): int {
    if log == [] then 0
    else
      var n, b := log[|log| - 1], Budget(ck, log[..|log| - 1]);
      if n.Armed? then 1 else if n.Chained? && ck.isLoader(n.image) then b - 1 else b
  }

  /** Entry `k` is as it should be. A staged image is verified. An installed image is the one last
      staged and verified, a loader of its version was chained since, and it is newer than what
      it replaced or the same bytes again. A chained loader was within the budget of one per
      arming. */
  predicate Sound(ck: Checks, log: seq<Note>, k: nat)
    requires k < |log|
  {
    var n, before := log[k], log[..k];
    && (n.Staged? ==> Verified(ck, n))
    && (n.Installed? ==>
          && LastVerified(ck, before, n.image) && RanSince(ck, before, ck.versionOf(n.image))
          && (ck.versionOf(n.image) > VersionAt(ck, n.before) || n.before == Some(n.image)))
    && (n.Chained? && ck.isLoader(n.image) ==> Budget(ck, before) >= 1)
  }

  ghost predicate AllSound(ck: Checks, log: seq<Note>) { forall k :: 0 <= k < |log| ==> Sound(ck, log, k) }

  /** A digest stands for one image. */
  ghost predicate Injective(ck: Checks) { forall a, b :: ck.digest(a) == ck.digest(b) ==> a == b }

  predicate CandidateOk(ck: Checks, e: Esp) {
    e.candidate.Some? ==>
      var c, n := e.candidate.value, LastStaged(e.log);
      && n.Some? && n.value.Staged? && Verified(ck, n.value)
      && c == Marker(ck.versionOf(n.value.image), ck.digest(n.value.image))
      && (c.version > VersionAt(ck, e.installed) || e.installed == Some(n.value.image))
      && (e.ran.Some? ==> RanSince(ck, e.log, e.ran.value))
  }

  predicate BudgetOk(ck: Checks, e: Esp) {
    if e.osPending then e.next.Some? ==> !ck.isLoader(e.next.value)
    else OnTrial(e) ==> e.boot.attempts <= Budget(ck, e.log)
  }

  ghost predicate Inv(ck: Checks, e: Esp) {
    CandidateOk(ck, e) && BudgetOk(ck, e) && AllSound(ck, e.log) && Budget(ck, e.log) >= 0
  }

  /** When a write keeps all that. */
  predicate Allowed(ck: Checks, e: Esp, w: Write) {
    match w
    case PutNext(b) => e.osPending && b.Some? ==> !ck.isLoader(b.value)
    case Mark(m, image, sig, hash) =>
      && Verified(ck, Staged(image, sig, hash)) && m == Marker(ck.versionOf(image), ck.digest(image))
      && m.version > VersionAt(ck, e.installed) && e.ran.None?
    case SetRan(v) => v.Some? ==> e.log != [] && e.log[|e.log| - 1].Chained? && ck.isLoader(e.log[|e.log| - 1].image)
                                  && ck.versionOf(e.log[|e.log| - 1].image) == v.value
    case InstallImage(image) =>
      e.candidate.Some? && e.ran == Some(e.candidate.value.version) && ck.digest(image) == e.candidate.value.digest
    case Arm => !e.osPending
    case Start(image) => ck.isLoader(image) ==>
      !e.osPending && Budget(ck, e.log) >= 1 && (OnTrial(e) ==> e.boot.attempts < Budget(ck, e.log))
    case PutBoot(b) => e.osPending || !(b.target == Device.TargetNext && b.trial && b.attempts > 0)
                       || (OnTrial(e) && b.attempts <= e.boot.attempts)
    case PutPending(p) => if p then (e.next.Some? ==> !ck.isLoader(e.next.value)) else !OnTrial(e)
    case _ => true
  }

  lemma LogGrows(ck: Checks, log: seq<Note>, n: Note)
    requires AllSound(ck, log) && Sound(ck, log + [n], |log|)
    ensures AllSound(ck, log + [n])
  {
    var more := log + [n];
    forall k | 0 <= k < |more| ensures Sound(ck, more, k) {
      if k < |log| { assert more[..k] == log[..k] && Sound(ck, log, k); }
    }
  }

  /** How the readings of the history take one more note. */
  lemma OneMore(ck: Checks, log: seq<Note>, n: Note)
    ensures LastStaged(log + [n]) == if n.Staged? then Some(n) else LastStaged(log)
    ensures forall v :: RanSince(ck, log + [n], v) <==>
      !n.Staged? && ((n.Chained? && ck.isLoader(n.image) && ck.versionOf(n.image) == v) || RanSince(ck, log, v))
    ensures Budget(ck, log + [n]) ==
      if n.Armed? then 1 else if n.Chained? && ck.isLoader(n.image) then Budget(ck, log) - 1 else Budget(ck, log)
  {
    assert (log + [n])[..|log|] == log;
  }

  lemma NotedKeeps(ck: Checks, e: Esp, w: Write, n: Note)
    requires Injective(ck) && Inv(ck, e) && Allowed(ck, e, w) && Apply(e, w).log == e.log + [n]
    ensures Inv(ck, Apply(e, w))
  {
    OneMore(ck, e.log, n);
    assert (e.log + [n])[..|e.log|] == e.log;
    LogGrows(ck, e.log, n);
  }

  lemma QuietKeeps(ck: Checks, e: Esp, w: Write)
    requires Inv(ck, e) && Allowed(ck, e, w) && Apply(e, w).log == e.log
    ensures Inv(ck, Apply(e, w))
  {
  }

  lemma WriteKeeps(ck: Checks, e: Esp, w: Write)
    requires Injective(ck) && Inv(ck, e) && Allowed(ck, e, w)
    ensures Inv(ck, Apply(e, w))
  {
    match w
    case Mark(m, image, sig, hash) => NotedKeeps(ck, e, w, Staged(image, sig, hash));
    case SetFailed(v) => NotedKeeps(ck, e, w, if v.Some? then FailedToRun(v.value) else RecordCleared);
    case InstallImage(image) => NotedKeeps(ck, e, w, Installed(image, e.installed));
    case Arm => NotedKeeps(ck, e, w, Armed);
    case Start(image) => NotedKeeps(ck, e, w, Chained(image));
    case _ => QuietKeeps(ck, e, w);
  }

  /** Every write of this plan is allowed when its turn comes. */
  ghost predicate Safe(ck: Checks, e: Esp, plan: seq<Write>)
    decreases |plan|
  {
    plan == [] || (Allowed(ck, e, plan[0]) && Safe(ck, Apply(e, plan[0]), plan[1..]))
  }

  lemma {:induction false} SafeCut(ck: Checks, e: Esp, plan: seq<Write>, p: nat)
    requires Injective(ck) && Inv(ck, e) && Safe(ck, e, plan)
    ensures Inv(ck, Cut(Apply, e, plan, p))
    decreases p
  {
    if p > 0 && plan != [] {
      WriteKeeps(ck, e, plan[0]);
      SafeCut(ck, Apply(e, plan[0]), plan[1..], p - 1);
    }
  }

  lemma SafeCons(ck: Checks, e: Esp, w: Write, rest: seq<Write>)
    requires Allowed(ck, e, w) && Safe(ck, Apply(e, w), rest)
    ensures Safe(ck, e, [w] + rest)
  {
    assert ([w] + rest)[1..] == rest;
  }

  lemma StageSafe(ck: Checks, e: Esp, o: Offer, retry: bool)
    requires Inv(ck, e)
    ensures Safe(ck, e, StagePlan(ck, e, o, retry))
  {
    if !Refused(ck, e, o, retry) && o.image.Some? {
      var e1 := Apply(e, PutNext(o.image));
      if ImageGood(ck, o) && o.sig.Some? {
        var e2 := Apply(e1, PutSig(o.sig));
        if SigGood(ck, o) {
          ArmSafe(ck, e2, o);
          SafeCons(ck, e1, PutSig(o.sig), ArmPlan(ck, o));
        } else {
          assert Safe(ck, e2, [PutNext(None), PutSig(None)]);
          SafeCons(ck, e1, PutSig(o.sig), [PutNext(None), PutSig(None)]);
        }
        SafeCons(ck, e, PutNext(o.image), SigPlan(ck, o));
      } else {
        SafeCons(ck, e, PutNext(o.image), [PutNext(None)]);
      }
    }
  }

  lemma ArmSafe(ck: Checks, e: Esp, o: Offer)
    requires ImageGood(ck, o) && SigGood(ck, o) && o.version > VersionAt(ck, e.installed) && !e.osPending
    ensures Safe(ck, e, ArmPlan(ck, o))
  {
    var mark := MarkOf(ck, o);
    var e1 := Apply(Apply(e, SetRan(None)), Unmark);
    SafeCons(ck, Apply(e1, mark), Arm, []);
    SafeCons(ck, e1, mark, [Arm] + []);
    SafeCons(ck, Apply(e, SetRan(None)), Unmark, [mark] + ([Arm] + []));
    SafeCons(ck, e, SetRan(None), [Unmark] + ([mark] + ([Arm] + [])));
    assert ArmPlan(ck, o) == [SetRan(None)] + ([Unmark] + ([mark] + ([Arm] + [])));
  }

  lemma BootSafe(ck: Checks, e: Esp)
    requires Inv(ck, e)
    ensures Safe(ck, e, BootPlan(ck, e))
  {
    if OnTrial(e) {
      var charge := PutBoot(Device.BootState(Device.TargetNext, true, e.boot.attempts - 1));
      var e1 := Apply(e, charge);
      if e.next.Some? && e.sig.Some? && ck.valid(e.next.value, e.sig.value) && ck.starts(e.next.value) {
        var image := e.next.value;
        var report := if ck.isLoader(image) then [SetRan(Some(ck.versionOf(image)))] else [];
        assert Safe(ck, Apply(e1, Start(image)), report);
        SafeCons(ck, e1, Start(image), report);
        SafeCons(ck, e, charge, [Start(image)] + report);
      } else {
        SafeCons(ck, e, charge, []);
      }
    }
  }

  /** These writes are allowed in every state without an OS candidate. */
  predicate Harmless(w: Write) {
    w.PutNext? || w.PutSig? || w.Unmark? || w == SetRan(None) || w.SetFailed? || w.KeepPrevious?
      || w == PutBoot(Device.BOOT_ACTIVE)
  }

  lemma {:induction false} HarmlessSafe(ck: Checks, e: Esp, plan: seq<Write>)
    requires !e.osPending && forall w :: w in plan ==> Harmless(w)
    ensures Safe(ck, e, plan)
    decreases |plan|
  {
    if plan != [] {
      assert Harmless(plan[0]);
      HarmlessSafe(ck, Apply(e, plan[0]), plan[1..]);
    }
  }

  lemma ConfirmSafe(ck: Checks, e: Esp)
    requires Inv(ck, e) && !e.osPending
    ensures Safe(ck, e, HandlePlan(ck, e) + SETTLE)
  {
    if e.candidate.None? {
      HarmlessSafe(ck, e, [] + SETTLE);
    } else {
      var c := e.candidate.value;
      var verdict := VerdictPlan(ck, e, c);
      assert HandlePlan(ck, e) + SETTLE == verdict + (CANCEL + SETTLE);
      if e.ran == Some(c.version) && e.next.Some? && ck.digest(e.next.value) == c.digest {
        var install := InstallImage(e.next.value);
        var rest := [SetFailed(None)] + (CANCEL + SETTLE);
        var e1 := if e.installed.Some? then Apply(e, KeepPrevious) else e;
        HarmlessSafe(ck, Apply(e1, install), rest);
        SafeCons(ck, e1, install, rest);
        if e.installed.Some? {
          SafeCons(ck, e, KeepPrevious, [install] + rest);
          assert verdict + (CANCEL + SETTLE) == [KeepPrevious] + ([install] + rest);
        } else {
          assert verdict + (CANCEL + SETTLE) == [install] + rest;
        }
      } else {
        HarmlessSafe(ck, e, verdict + (CANCEL + SETTLE));
      }
    }
  }

  lemma OsStageSafe(ck: Checks, e: Esp, image: Bytes, sig: Bytes, n: nat)
    requires !ck.isLoader(image)
    ensures Safe(ck, e, EventPlan(ck, e, OsStageEvent(image, sig, n)))
  {
    var put, putSig, pend, boot := PutNext(Some(image)), PutSig(Some(sig)), PutPending(true),
      PutBoot(Device.BootState(Device.TargetNext, true, n));
    var e1 := Apply(Apply(e, Unmark), SetRan(None));
    var e2 := Apply(e1, put);
    var e3 := Apply(e2, putSig);
    SafeCons(ck, Apply(e3, pend), boot, []);
    SafeCons(ck, e3, pend, [boot] + []);
    SafeCons(ck, e2, putSig, [pend] + ([boot] + []));
    SafeCons(ck, e1, put, [putSig] + ([pend] + ([boot] + [])));
    SafeCons(ck, Apply(e, Unmark), SetRan(None), [put] + ([putSig] + ([pend] + ([boot] + []))));
    SafeCons(ck, e, Unmark, [SetRan(None)] + ([put] + ([putSig] + ([pend] + ([boot] + [])))));
    assert EventPlan(ck, e, OsStageEvent(image, sig, n))
      == [Unmark] + ([SetRan(None)] + ([put] + ([putSig] + ([pend] + ([boot] + [])))));
  }

  lemma DecidedSafe(ck: Checks, e: Esp)
    requires e.osPending
    ensures Safe(ck, e, EventPlan(ck, e, OsDecidedEvent))
  {
    var boot, done, rest := PutBoot(Device.BOOT_ACTIVE), PutPending(false), [PutNext(None), PutSig(None)];
    var e1 := Apply(e, boot);
    HarmlessSafe(ck, Apply(e1, done), rest);
    SafeCons(ck, e1, done, rest);
    SafeCons(ck, e, boot, [done] + rest);
    assert EventPlan(ck, e, OsDecidedEvent) == [boot] + ([done] + rest);
  }

  lemma EventSafe(ck: Checks, e: Esp, ev: Event)
    requires Inv(ck, e)
    ensures Safe(ck, e, EventPlan(ck, e, ev))
  {
    match ev
    case StageEvent(o, retry) => StageSafe(ck, e, o, retry);
    case BootEvent => BootSafe(ck, e);
    case ConfirmEvent => if !e.osPending { ConfirmSafe(ck, e); }
    case OsStageEvent(image, sig, n) => if !ck.isLoader(image) { OsStageSafe(ck, e, image, sig, n); }
    case OsRearmEvent(n) =>
    case OsDecidedEvent => if e.osPending { DecidedSafe(ck, e); }
    case RecoveryEvent =>
  }

  /** In every run, each event cut anywhere: an image is installed only if it is the one last
      staged and verified and a loader of its version was chained since; it is newer than what
      it replaces -- or, when the power went before the markers were cleared, the same bytes
      once more; and no staging is chained twice. */
  lemma {:induction false} InstallsSound(ck: Checks, e: Esp, events: seq<(Event, nat)>)
    requires Injective(ck) && Inv(ck, e)
    ensures Inv(ck, Run(ck, e, events))
    decreases |events|
  {
    if events != [] {
      var before, last := Run(ck, e, events[..|events| - 1]), events[|events| - 1];
      InstallsSound(ck, e, events[..|events| - 1]);
      EventSafe(ck, before, last.0);
      SafeCut(ck, before, EventPlan(ck, before, last.0), last.1);
    }
  }

  /** A device that has never staged a loader. */
  lemma FreshEsp(ck: Checks, e: Esp)
    requires e.candidate.None? && e.boot == Device.BOOT_ACTIVE && !e.osPending && e.log == []
    ensures Inv(ck, e)
  {
  }
}
