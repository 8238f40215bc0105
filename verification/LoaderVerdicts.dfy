/** What a run of the loader trial says about versions that failed, and about the image that ran. */
module LoaderVerdicts {
  import opened Common
  import Device
  import opened Plans
  import opened LoaderTrial

  // --- The failure on record ---

  /** The version whose failure is the last verdict on record. */
  function OnRecord(log: seq<Note>): Option<int> {
    if log == [] then None
    else
      var n := log[|log| - 1];
      if n.FailedToRun? then Some(n.version) else if n.RecordCleared? then None else OnRecord(log[..|log| - 1])
  }

  predicate IsVerdict(n: Note) { n.FailedToRun? || n.RecordCleared? }

  /** Entry `k` notes the failure of this version, and nothing was recorded or cleared since. */
  predicate LastVerdictAt(log: seq<Note>, k: int, v: int) {
    0 <= k < |log| && log[k] == FailedToRun(v) && forall j :: k < j < |log| ==> !IsVerdict(log[j])
  }

  lemma {:induction false} OnRecordMeans(log: seq<Note>, v: int)
    ensures OnRecord(log) == Some(v) <==> exists k :: LastVerdictAt(log, k, v)
    decreases |log|
  {
    if log != [] {
      var n := |log| - 1;
      OnRecordMeans(log[..n], v);
      if !IsVerdict(log[n]) {
        forall k ensures LastVerdictAt(log, k, v) <==> LastVerdictAt(log[..n], k, v) { VerdictStays(log, k, v); }
      } else {
        assert LastVerdictAt(log, n, v) <==> log[n] == FailedToRun(v);
      }
    }
  }

  lemma VerdictStays(log: seq<Note>, k: int, v: int)
    requires log != [] && !IsVerdict(log[|log| - 1])
    ensures LastVerdictAt(log, k, v) <==> LastVerdictAt(log[..|log| - 1], k, v)
  {
    var init := log[..|log| - 1];
    if 0 <= k < |init| {
      assert forall j :: 0 <= j < |init| ==> init[j] == log[j];
    }
  }

  predicate Tied(e: Esp) { e.failed == OnRecord(e.log) }

  lemma WriteKeepsTie(e: Esp, w: Write)
    requires Tied(e)
    ensures Tied(Apply(e, w))
  {
    var t := Apply(e, w);
    if |t.log| > |e.log| { assert t.log[..|e.log|] == e.log; }
  }

  lemma {:induction false} CutKeepsTie(e: Esp, plan: seq<Write>, p: nat)
    requires Tied(e)
    ensures Tied(Cut(Apply, e, plan, p))
    decreases p
  {
    if p > 0 && plan != [] {
      WriteKeepsTie(e, plan[0]);
      CutKeepsTie(Apply(e, plan[0]), plan[1..], p - 1);
    }
  }

  lemma {:induction false} RunKeepsTie(ck: Checks, e: Esp, events: seq<(Event, nat)>)
    requires Tied(e)
    ensures Tied(Run(ck, e, events))
    decreases |events|
  {
    if events != [] {
      var n := |events| - 1;
      var before := Run(ck, e, events[..n]);
      RunKeepsTie(ck, e, events[..n]);
      CutKeepsTie(before, EventPlan(ck, before, events[n].0), events[n].1);
    }
  }

  /** An offer that staging would take if no failure were on record. */
  predicate Acceptable(ck: Checks, e: Esp, o: Offer) {
    && !e.osPending && o.version >= 1 && o.version > VersionAt(ck, e.installed)
    && ImageGood(ck, o) && SigGood(ck, o)
  }

  function StagedState(ck: Checks, e: Esp, o: Offer): Esp
    requires o.image.Some? && o.sig.Some?
  {
    e.(next := o.image, sig := o.sig, ran := None,
       candidate := Some(Marker(o.version, ck.digest(o.image.value))),
       boot := Device.BootState(Device.TargetNext, true, 1),
       log := e.log + [Staged(o.image.value, o.sig.value, o.hash)] + [Armed])
  }

  /** Whether a staging is turned away before anything is fetched. */
  predicate TurnedAway(ck: Checks, e: Esp, o: Offer, retry: bool) {
    || e.osPending || o.version < 1 || (e.failed == Some(o.version) && !retry)
    || (e.installed.Some? && o.version <= ck.versionOf(e.installed.value))
  }

  /** A staging that is not cut and does not succeed arms nothing and leaves nothing of its own: an
      image that arrived is gone again, and so is its signature. */
  lemma FailedStagingEnds(ck: Checks, e: Esp, o: Offer, retry: bool)
    requires TurnedAway(ck, e, o, retry) || !AllGood(ck, o)
    ensures var t := Cut(Apply, e, StagePlan(ck, e, o, retry), |StagePlan(ck, e, o, retry)|);
      var tried := !TurnedAway(ck, e, o, retry) && o.image.Some?;
      var imageOk := tried && ck.hashes(o.image.value, o.hash) && ck.versionOf(o.image.value) == o.version;
      t == e.(next := if tried then None else e.next, sig := if imageOk && o.sig.Some? then None else e.sig)
  {
    var plan := StagePlan(ck, e, o, retry);
    if !TurnedAway(ck, e, o, retry) && o.image.Some? {
      var first := PutNext(o.image);
      if !ImageGood(ck, o) {
        assert plan == [first] + ([PutNext(None)] + []);
        CutCons(Apply, e, first, [PutNext(None)] + [], 2);
        CutCons(Apply, Apply(e, first), PutNext(None), [], 1);
      } else if o.sig.None? {
        assert plan == [first] + ([PutNext(None)] + []);
        CutCons(Apply, e, first, [PutNext(None)] + [], 2);
        CutCons(Apply, Apply(e, first), PutNext(None), [], 1);
      } else {
        var second := PutSig(o.sig);
        assert plan == [first] + ([second] + ([PutNext(None)] + ([PutSig(None)] + [])));
        CutCons(Apply, e, first, [second] + ([PutNext(None)] + ([PutSig(None)] + [])), 4);
        CutCons(Apply, Apply(e, first), second, [PutNext(None)] + ([PutSig(None)] + []), 3);
        CutCons(Apply, Apply(Apply(e, first), second), PutNext(None), [PutSig(None)] + [], 2);
        CutCons(Apply, Apply(Apply(Apply(e, first), second), PutNext(None)), PutSig(None), [], 1);
      }
    }
  }

  lemma StagedBy(ck: Checks, e: Esp, o: Offer, retry: bool, p: nat)
    requires Acceptable(ck, e, o) && (e.failed != Some(o.version) || retry)
    requires p >= |StagePlan(ck, e, o, retry)|
    ensures Step(ck, e, StageEvent(o, retry), p) == StagedState(ck, e, o)
  {
    var a, b := PutNext(o.image), PutSig(o.sig);
    assert StagePlan(ck, e, o, retry) == [a] + ([b] + ArmPlan(ck, o));
    CutCons(Apply, e, a, [b] + ArmPlan(ck, o), p);
    CutCons(Apply, Apply(e, a), b, ArmPlan(ck, o), p - 1);
    ArmedBy(ck, Apply(Apply(e, a), b), o, p - 2);
  }

  lemma ArmedBy(ck: Checks, e: Esp, o: Offer, p: nat)
    requires o.image.Some? && o.sig.Some? && p >= 4
    ensures Cut(Apply, e, ArmPlan(ck, o), p) == Apply(Apply(Apply(Apply(e, SetRan(None)), Unmark), MarkOf(ck, o)), Arm)
  {
    var c, m := SetRan(None), MarkOf(ck, o);
    assert ArmPlan(ck, o) == [c] + [Unmark, m, Arm];
    CutCons(Apply, e, c, [Unmark, m, Arm], p);
    ThreeWrites(Apply(e, c), Unmark, m, Arm, p - 1);
  }

  /** After any run, a good offer of a newer version is staged without the explicit retry exactly
      when the last verdict on record is not that version's failure; otherwise nothing changes. */
  lemma RestagedExactly(ck: Checks, e: Esp, events: seq<(Event, nat)>, o: Offer, p: nat)
    requires Tied(e) && Acceptable(ck, Run(ck, e, events), o)
    requires p >= |StagePlan(ck, Run(ck, e, events), o, false)|
    ensures var t := Run(ck, e, events);
      var u := Step(ck, t, StageEvent(o, false), p);
      && (OnRecord(t.log) != Some(o.version) ==> u == StagedState(ck, t, o))
      && (OnRecord(t.log) == Some(o.version) ==> u == t)
      && (LastStaged(u.log[|t.log|..]).Some? <==> OnRecord(t.log) != Some(o.version))
  {
    RunKeepsTie(ck, e, events);
    var t := Run(ck, e, events);
    if t.failed != Some(o.version) {
      StagedBy(ck, t, o, false, p);
      var s := Staged(o.image.value, o.sig.value, o.hash);
      assert StagedState(ck, t, o).log[|t.log|..] == [s, Armed];
      assert [s, Armed][..1] == [s];
    } else {
      assert t.log[|t.log|..] == [];
    }
  }

  /** The confirmation that changes the record: it notes a failure, or installs. */
  predicate Replaces(ck: Checks, e: Esp, ev: Event) {
    && ev.ConfirmEvent? && !e.osPending && e.candidate.Some?
    && var c := e.candidate.value;
    || e.ran != Some(c.version)
    || (e.next.Some? && ck.digest(e.next.value) == c.digest)
  }

  predicate NoVerdict(plan: seq<Write>) { forall w :: w in plan ==> !w.SetFailed? }

  lemma {:induction false} FailureStays(e: Esp, plan: seq<Write>, p: nat)
    requires NoVerdict(plan)
    ensures Cut(Apply, e, plan, p).failed == e.failed
    decreases p
  {
    if p > 0 && plan != [] {
      assert !plan[0].SetFailed?;
      FailureStays(Apply(e, plan[0]), plan[1..], p - 1);
    }
  }

  /** A failure on record can be lost to an event, cut somewhere, exactly when it is such a
      confirmation. */
  lemma FailureRemembered(ck: Checks, e: Esp, ev: Event)
    requires e.failed.Some?
    ensures (exists p: nat :: Step(ck, e, ev, p).failed != e.failed) <==> Replaces(ck, e, ev)
  {
    if Replaces(ck, e, ev) {
      var p := ClearedAt(ck, e);
      assert Step(ck, e, ev, p).failed == None;
    } else {
      forall p: nat ensures Step(ck, e, ev, p).failed == e.failed { FailureStays(e, EventPlan(ck, e, ev), p); }
    }
  }

  lemma ClearedAt(ck: Checks, e: Esp) returns (p: nat)
    requires Replaces(ck, e, ConfirmEvent)
    ensures Step(ck, e, ConfirmEvent, p).failed == None
  {
    var c, clear := e.candidate.value, SetFailed(None);
    if e.ran != Some(c.version) {
      var rest := [SetFailed(Some(c.version))] + (CANCEL + SETTLE);
      assert EventPlan(ck, e, ConfirmEvent) == [clear] + rest;
      CutCons(Apply, e, clear, rest, 1);
      p := 1;
    } else {
      var install, rest := InstallPlan(e, e.next.value), [clear] + (CANCEL + SETTLE);
      assert EventPlan(ck, e, ConfirmEvent) == install + rest;
      p := |install| + 1;
      CutAppend(Apply, e, install, rest, p);
      CutCons(Apply, Cut(Apply, e, install, |install|), clear, CANCEL + SETTLE, 1);
    }
  }

  // --- The end of a trial ---

  /** A candidate that never reported is recorded as failed, once its confirmation runs to the
      end, and its markers are gone. */
  lemma SilentCandidateFails(ck: Checks, e: Esp, p: nat)
    requires !e.osPending && e.candidate.Some? && e.ran != Some(e.candidate.value.version)
    requires p >= |EventPlan(ck, e, ConfirmEvent)|
    ensures Step(ck, e, ConfirmEvent, p) ==
      e.(failed := Some(e.candidate.value.version), candidate := None, ran := None,
         boot := Device.BOOT_ACTIVE, next := None, sig := None,
         log := e.log + [RecordCleared] + [FailedToRun(e.candidate.value.version)])
  {
    var a, b := SetFailed(None), SetFailed(Some(e.candidate.value.version));
    var rest1, rest2 := [SetRan(None)] + SETTLE, [Unmark] + ([SetRan(None)] + SETTLE);
    assert EventPlan(ck, e, ConfirmEvent) == [a] + ([b] + rest2);
    var e1 := Apply(e, a);
    var e2 := Apply(e1, b);
    var e3 := Apply(e2, Unmark);
    CutCons(Apply, e, a, [b] + rest2, p);
    CutCons(Apply, e1, b, rest2, p - 1);
    CutCons(Apply, e2, Unmark, rest1, p - 2);
    CutCons(Apply, e3, SetRan(None), SETTLE, p - 3);
    SettleCut(Apply(e3, SetRan(None)), p - 4);
  }

  lemma ThreeWrites(e: Esp, a: Write, b: Write, c: Write, p: nat)
    requires p >= 3
    ensures Cut(Apply, e, [a, b, c], p) == Apply(Apply(Apply(e, a), b), c)
  {
    assert [a, b, c] == [a] + ([b] + ([c] + []));
    CutCons(Apply, e, a, [b] + ([c] + []), p);
    CutCons(Apply, Apply(e, a), b, [c] + [], p - 1);
    CutCons(Apply, Apply(Apply(e, a), b), c, [], p - 2);
  }

  lemma SettleCut(e: Esp, p: nat)
    requires p >= 3
    ensures Cut(Apply, e, SETTLE, p) == e.(boot := Device.BOOT_ACTIVE, next := None, sig := None)
  {
    ThreeWrites(e, PutBoot(Device.BOOT_ACTIVE), PutNext(None), PutSig(None), p);
  }

  // --- A failed version comes back ---

  /** One trial of an offer whose image does not start: staged, tried, found silent. */
  function Tried(ck: Checks, e: Esp, o: Offer, full: nat): Esp {
    var staged := Step(ck, e, StageEvent(o, false), full);
    Step(ck, Step(ck, staged, BootEvent, full), ConfirmEvent, full)
  }

  lemma TrialFails(ck: Checks, e: Esp, o: Offer, full: nat)
    requires Acceptable(ck, e, o) && e.failed != Some(o.version) && !ck.starts(o.image.value) && full >= 10
    ensures var t := Tried(ck, e, o, full);
      t.failed == Some(o.version) && t.installed == e.installed && !t.osPending
  {
    StagedBy(ck, e, o, false, full);
    var s := StagedState(ck, e, o);
    assert BootPlan(ck, s) == [PutBoot(Device.BootState(Device.TargetNext, true, 0))] + [];
    CutCons(Apply, s, PutBoot(Device.BootState(Device.TargetNext, true, 0)), [], full);
    SilentCandidateFails(ck, Step(ck, s, BootEvent, full), full);
  }

  function BothTried(first: Offer, second: Offer, full: nat): seq<(Event, nat)> {
    [(StageEvent(first, false), full), (BootEvent, full), (ConfirmEvent, full),
     (StageEvent(second, false), full), (BootEvent, full), (ConfirmEvent, full)]
  }

  lemma TwoTrials(ck: Checks, e: Esp, first: Offer, second: Offer, full: nat)
    ensures Run(ck, e, BothTried(first, second, full)[..3]) == Tried(ck, e, first, full)
    ensures Run(ck, e, BothTried(first, second, full)) == Tried(ck, Tried(ck, e, first, full), second, full)
  {
    var events := BothTried(first, second, full);
    RunTrial(ck, e, events, 0, first, full);
    RunTrial(ck, e, events, 3, second, full);
    assert events[..6] == events && events[..0] == [];
  }

  /** The record holds one version. When one version has failed and then another, the first is
      staged again without anyone having asked for a retry. */
  lemma FailedVersionReturns(ck: Checks, e: Esp, first: Offer, second: Offer, full: nat)
    requires Acceptable(ck, e, first) && Acceptable(ck, e, second) && first.version != second.version
    requires e.failed.None? && !ck.starts(first.image.value) && !ck.starts(second.image.value) && full >= 10
    ensures Run(ck, e, BothTried(first, second, full)[..3]).failed == Some(first.version)
    ensures var t := Run(ck, e, BothTried(first, second, full));
      Step(ck, t, StageEvent(first, false), full) == StagedState(ck, t, first)
  {
    TwoTrials(ck, e, first, second, full);
    TrialFails(ck, e, first, full);
    var e3 := Tried(ck, e, first, full);
    TrialFails(ck, e3, second, full);
    var t := Tried(ck, e3, second, full);
    assert Acceptable(ck, t, first);
    StagedBy(ck, t, first, false, full);
  }

  lemma RunTrial(ck: Checks, e: Esp, events: seq<(Event, nat)>, k: nat, o: Offer, full: nat)
    requires k + 3 <= |events| && events[k] == (StageEvent(o, false), full)
    requires events[k + 1] == (BootEvent, full) && events[k + 2] == (ConfirmEvent, full)
    ensures Run(ck, e, events[..k + 3]) == Tried(ck, Run(ck, e, events[..k]), o, full)
  {
    RunLast(ck, e, events, k);
    RunLast(ck, e, events, k + 1);
    RunLast(ck, e, events, k + 2);
  }

  lemma RunLast(ck: Checks, e: Esp, events: seq<(Event, nat)>, k: nat)
    requires k < |events|
    ensures Run(ck, e, events[..k + 1]) == Step(ck, Run(ck, e, events[..k]), events[k].0, events[k].1)
  {
    assert events[..k + 1][..k] == events[..k];
  }

  // --- The image that ran ---

  /** This very image was chained since the last staging. */
  predicate RanItself(log: seq<Note>, image: Bytes) {
    log != [] &&
    var n := log[|log| - 1];
    if n.Staged? then false else n == Chained(image) || RanItself(log[..|log| - 1], image)
  }

  lemma {:induction false} RanAsVersion(ck: Checks, log: seq<Note>, image: Bytes)
    requires RanSince(ck, log, ck.versionOf(image))
    requires forall a :: ck.isLoader(a) && ck.versionOf(a) == ck.versionOf(image) ==> a == image
    ensures RanItself(log, image)
    decreases |log|
  {
    var n := |log| - 1;
    if log[n] != Chained(image) { RanAsVersion(ck, log[..n], image); }
  }

  /** Where a version stands for one loader image, every installed image is the verified one that
      itself ran on this machine since it was staged. */
  lemma InstalledImageRan(ck: Checks, e: Esp, events: seq<(Event, nat)>, k: nat)
    requires Injective(ck) && Inv(ck, e) && k < |Run(ck, e, events).log| && Run(ck, e, events).log[k].Installed?
    requires var image := Run(ck, e, events).log[k].image;
      forall a :: ck.isLoader(a) && ck.versionOf(a) == ck.versionOf(image) ==> a == image
    ensures var log := Run(ck, e, events).log;
      LastVerified(ck, log[..k], log[k].image) && RanItself(log[..k], log[k].image)
  {
    InstallsSound(ck, e, events);
    var log := Run(ck, e, events).log;
    assert Sound(ck, log, k);
    RanAsVersion(ck, log[..k], log[k].image);
  }

  /** Where it does not, an image can be installed that never ran. Another image of the same
      version, whose staging was cut before it was marked, is chained and reports; the first
      image is fetched once more, cut again, and confirmed. */
  function OtherRuns(a: Offer, b: Offer, full: nat): seq<(Event, nat)> {
    [(StageEvent(a, false), full), (StageEvent(b, false), 2), (BootEvent, full), (StageEvent(a, false), 1),
     (ConfirmEvent, full)]
  }

  lemma OtherImageRan(ck: Checks, e: Esp, a: Offer, b: Offer, full: nat)
    requires Acceptable(ck, e, a) && Acceptable(ck, e, b) && a.version == b.version && a.image != b.image
    requires ck.isLoader(b.image.value) && ck.starts(b.image.value)
    requires e.failed.None? && e.log == [] && full >= 12
    ensures var t := Run(ck, e, OtherRuns(a, b, full));
      && t.installed == a.image
      && (forall k :: 0 <= k < |t.log| ==> t.log[k] != Chained(a.image.value))
      && exists k :: 0 <= k < |t.log| && t.log[k] == Installed(a.image.value, e.installed)
  {
    var es := OtherRuns(a, b, full);
    assert es[..4][..3] == es[..3] && es[..3][..2] == es[..2] && es[..2][..1] == es[..1];
    StagedBy(ck, e, a, false, full);
    var s1 := StagedState(ck, e, a);
    var s2 := s1.(next := b.image, sig := b.sig);
    var s3 := OtherChained(s2, b);
    var s4 := s3.(next := a.image);
    assert Run(ck, e, es[..1]) == s1;
    FetchedOnly(ck, s1, b, 2);
    assert Run(ck, e, es[..2]) == s2;
    ChainedLoader(ck, s2, b.image.value, full);
    assert Run(ck, e, es[..3]) == s3;
    FetchedOnly(ck, s3, a, 1);
    assert Run(ck, e, es[..4]) == s4;
    assert Run(ck, e, es) == Step(ck, s4, ConfirmEvent, full);
    NeverRan(ck, s4, a, b, e.installed, full);
  }

  function OtherChained(e: Esp, b: Offer): Esp
    requires b.image.Some?
  {
    e.(boot := Device.BootState(Device.TargetNext, true, 0), ran := Some(b.version),
      log := e.log + [Chained(b.image.value)])
  }

  lemma NeverRan(ck: Checks, s: Esp, a: Offer, b: Offer, before: Option<Bytes>, full: nat)
    requires a.image.Some? && b.image.Some? && a.sig.Some? && a.image != b.image && full >= 9
    requires !s.osPending && s.candidate == Some(Marker(a.version, ck.digest(a.image.value)))
      && s.ran == Some(a.version)
    requires s.next == a.image && s.installed == before
    requires s.log == [] + [Staged(a.image.value, a.sig.value, a.hash)] + [Armed] + [Chained(b.image.value)]
    ensures var t := Step(ck, s, ConfirmEvent, full);
      && t.installed == a.image
      && (forall k :: 0 <= k < |t.log| ==> t.log[k] != Chained(a.image.value))
      && exists k :: 0 <= k < |t.log| && t.log[k] == Installed(a.image.value, before)
  {
    InstalledNow(ck, s, a.image.value, full);
    assert Step(ck, s, ConfirmEvent, full).log[3] == Installed(a.image.value, before);
  }

  /** A staging cut in its downloads. */
  lemma FetchedOnly(ck: Checks, e: Esp, o: Offer, p: nat)
    requires Acceptable(ck, e, o) && e.failed.None? && 1 <= p <= 2
    ensures Step(ck, e, StageEvent(o, false), p) == e.(next := o.image, sig := if p == 2 then o.sig else e.sig)
  {
    var a, b, rest := PutNext(o.image), PutSig(o.sig), ArmPlan(ck, o);
    assert StagePlan(ck, e, o, false) == [a] + ([b] + rest);
    CutCons(Apply, e, a, [b] + rest, p);
    CutCons(Apply, Apply(e, a), b, rest, p - 1);
  }

  lemma ChainedLoader(ck: Checks, e: Esp, image: Bytes, p: nat)
    requires OnTrial(e) && e.next == Some(image) && e.sig.Some? && ck.valid(image, e.sig.value) && ck.starts(image)
    requires ck.isLoader(image) && p >= 3
    ensures Step(ck, e, BootEvent, p) ==
      e.(boot := Device.BootState(Device.TargetNext, true, e.boot.attempts - 1), ran := Some(ck.versionOf(image)),
         log := e.log + [Chained(image)])
  {
    ThreeWrites(e, PutBoot(Device.BootState(Device.TargetNext, true, e.boot.attempts - 1)), Start(image),
                SetRan(Some(ck.versionOf(image))), p);
    assert BootPlan(ck, e) == [PutBoot(Device.BootState(Device.TargetNext, true, e.boot.attempts - 1)), Start(image),
                               SetRan(Some(ck.versionOf(image)))];
  }

  /** A confirmation that installs, run to its end. */
  lemma InstalledNow(ck: Checks, e: Esp, image: Bytes, p: nat)
    requires !e.osPending && e.candidate.Some? && e.ran == Some(e.candidate.value.version) && e.next == Some(image)
    requires ck.digest(image) == e.candidate.value.digest && p >= 9
    ensures var t := Step(ck, e, ConfirmEvent, p);
      t.installed == Some(image) && t.log == e.log + [Installed(image, e.installed)] + [RecordCleared]
  {
    var install, clear := InstallPlan(e, image), SetFailed(None);
    var rest := [Unmark] + ([SetRan(None)] + SETTLE);
    assert EventPlan(ck, e, ConfirmEvent) == install + ([clear] + rest);
    CutAppend(Apply, e, install, [clear] + rest, p);
    var e1 := Cut(Apply, e, install, |install|);
    Installing(e, image);
    var e2 := Apply(e1, clear);
    CutCons(Apply, e1, clear, rest, p - |install|);
    CutCons(Apply, e2, Unmark, [SetRan(None)] + SETTLE, p - |install| - 1);
    CutCons(Apply, Apply(e2, Unmark), SetRan(None), SETTLE, p - |install| - 2);
    SettleCut(Apply(Apply(e2, Unmark), SetRan(None)), p - |install| - 3);
  }

  lemma Installing(e: Esp, image: Bytes)
    ensures var t := Cut(Apply, e, InstallPlan(e, image), |InstallPlan(e, image)|);
      && t == e.(installed := Some(image), previous := if e.installed.Some? then e.installed else e.previous,
                 log := e.log + [Installed(image, e.installed)])
  {
    var w := InstallImage(image);
    if e.installed.Some? {
      assert InstallPlan(e, image) == [KeepPrevious] + ([w] + []);
      CutCons(Apply, e, KeepPrevious, [w] + [], 2);
      CutCons(Apply, Apply(e, KeepPrevious), w, [], 1);
    } else {
      assert InstallPlan(e, image) == [w] + [];
      CutCons(Apply, e, w, [], 1);
    }
  }
}
