/** internal/otad/stage.go: fetch, verify and stage an update as one transaction on the WAL. */
module Stage {
  import opened Common
  import opened Versions
  import opened DeploymentWal
  import opened Device
  import Plans
  import opened KernelCoupling
  import BundleFetch
  import BootSuccess
  import FirmwareTrack
  import PromoteSlots

  datatype Manifest = Manifest(
    version: string, rootHash: string, verityHash: string, hasTree: bool, treeHash: string,
    kcHash: string, hasSig: bool, sigHash: string, kernelRelease: string, bundles: seq<BundleSpec>)

  // --- The trust chain ---

  /** Signatures, certificates, revocation lists, parsing and hashes, as parameters. */
  datatype Trust = Trust(
    signs: (Bytes, Bytes, Bytes) -> bool,            // key, data, signature
    certified: Bytes -> Option<(Bytes, int)>,        // unexpired certificate -> key, version
    revokes: (Bytes, int) -> bool,                   // revocation list, certificate version
    parse: Bytes -> Option<Manifest>,
    isDigest: (Bytes, string) -> bool,               // manifest bytes, recorded digest
    hashes: (Bytes, string) -> bool)                 // file bytes, expected hash

  /** What the feed delivers; a missing entry is a failed download. */
  datatype Feed = Feed(
    manifest: Option<Bytes>, manifestSig: Option<Bytes>, cert: Option<Bytes>, certSig: Option<Bytes>,
    checkRevocation: bool, revocation: Option<Bytes>, revocationSig: Option<Bytes>)

  /** The manifest chains to the root key: root -> certificate, not revoked -> manifest, and
      it is the one whose digest was recorded, if one was. */
  predicate Chains(tr: Trust, root: Bytes, feed: Feed, digest: string, man: Manifest) {
    && feed.manifest.Some? && feed.manifestSig.Some? && feed.cert.Some? && feed.certSig.Some?
    && tr.signs(root, feed.cert.value, feed.certSig.value)
    && var c := tr.certified(feed.cert.value);
    && c.Some?
    && (feed.checkRevocation ==>
          feed.revocation.Some? && feed.revocationSig.Some?
          && tr.signs(root, feed.revocation.value, feed.revocationSig.value)
          && !tr.revokes(feed.revocation.value, c.value.1))
    && tr.signs(c.value.0, feed.manifest.value, feed.manifestSig.value)
    && (digest != "" ==> tr.isDigest(feed.manifest.value, digest))
    && tr.parse(feed.manifest.value) == Some(man)
  }

  /** The bytes that were verified, as they are put beside every bundle. */
  function AnchorOf(feed: Feed): BundleFetch.Anchor
    requires feed.manifest.Some? && feed.manifestSig.Some? && feed.cert.Some? && feed.certSig.Some?
  {
    BundleFetch.Anchor(feed.manifest.value, feed.manifestSig.value, feed.cert.value, feed.certSig.value)
  }

  /** fwanchor.go: the initramfs accepts an anchor that chains to the root key, for its manifest. */
  predicate Vouches(tr: Trust, root: Bytes, a: BundleFetch.Anchor, man: Manifest) {
    && tr.signs(root, a.cert, a.certSig)
    && var c := tr.certified(a.cert);
    && c.Some? && tr.signs(c.value.0, a.manifest, a.manifestSig) && tr.parse(a.manifest) == Some(man)
  }

  method FetchVerifiedManifest(tr: Trust, root: Bytes, feed: Feed, digest: string) returns (r: Option<Manifest>)
    ensures r.Some? ==> Chains(tr, root, feed, digest, r.value)
    ensures r.None? ==> forall man :: !Chains(tr, root, feed, digest, man)
    ensures r.Some? ==> feed.manifest.Some? && r == tr.parse(feed.manifest.value)
    ensures r.Some? <==>
      && feed.manifest.Some? && feed.manifestSig.Some? && feed.cert.Some? && feed.certSig.Some?
      && tr.parse(feed.manifest.value).Some?
      && tr.signs(root, feed.cert.value, feed.certSig.value) && tr.certified(feed.cert.value).Some?
      && tr.signs(tr.certified(feed.cert.value).value.0, feed.manifest.value, feed.manifestSig.value)
      && (digest == "" || tr.isDigest(feed.manifest.value, digest))
      && (!feed.checkRevocation
          || (feed.revocation.Some? && feed.revocationSig.Some?
              && tr.signs(root, feed.revocation.value, feed.revocationSig.value)
              && !tr.revokes(feed.revocation.value, tr.certified(feed.cert.value).value.1)))
  {
    if feed.manifest.None? { return None; }
    if feed.manifestSig.None? { return None; }
    if feed.cert.None? { return None; }
    if feed.certSig.None? { return None; }
    if !tr.signs(root, feed.cert.value, feed.certSig.value) { return None; }
    var c := tr.certified(feed.cert.value);
    if c.None? { return None; }
    if feed.checkRevocation {
      if feed.revocation.None? || feed.revocationSig.None? { return None; }
      if !tr.signs(root, feed.revocation.value, feed.revocationSig.value) { return None; }
      if tr.revokes(feed.revocation.value, c.value.1) { return None; }
    }
    if !tr.signs(c.value.0, feed.manifest.value, feed.manifestSig.value) { return None; }
    if digest != "" {
      if !tr.isDigest(feed.manifest.value, digest) { return None; }
    }
    return tr.parse(feed.manifest.value);
  }

  // --- The plan ---

  /** What the artifact URLs deliver. */
  datatype Delivery = Delivery(
    rootImage: Option<Bytes>, rootTree: Option<Bytes>, kcImage: Option<Bytes>, kcSig: Option<Bytes>,
    bundles: BundleFetch.Arrivals)

  /** The machine staging runs on. */
  datatype Host = Host(id: Identity, chips: seq<string>, kernel: string, hasFirmwareDir: bool)

  datatype Pair = Pair(image: File, proof: File)

  const ROOTFS := Pair(RootImage, RootTree)
  const KERNELCACHE := Pair(KcImage, KcSig)

  /** One artifact and the proof that makes it bootable: stored as it arrives, taken away
      again when it does not verify. */
  function PairPlan(tr: Trust, f: Pair, image: Option<Bytes>, imageHash: string,
                    hasProof: bool, proof: Option<Bytes>, proofHash: string): seq<Write>
  {
    if image.None? then []
    else if !tr.hashes(image.value, imageHash) then [Install(f.image, image.value)] + [Drop(f.image)]
    else [Install(f.image, image.value)] + ProofPlan(tr, f, hasProof, proof, proofHash)
  }

  function ProofPlan(tr: Trust, f: Pair, hasProof: bool, proof: Option<Bytes>, proofHash: string): seq<Write> {
    if !hasProof || proof.None? then [Drop(f.image)]
    else if !tr.hashes(proof.value, proofHash) then
      [Install(f.proof, proof.value)] + [Drop(f.image), Drop(f.proof)]
    else [Install(f.proof, proof.value)]
  }

  /** Fetching touches the staged slots only. */
  predicate OnlyNext(ws: seq<Write>) {
    forall w :: w in ws ==> w.Install? || w.Drop? || w.StoreBundle? || w.RemoveBundle?
  }

  lemma {:induction false} OnlyNextKeeps(s: Sys, ws: seq<Write>, p: nat)
    requires OnlyNext(ws)
    ensures var t := Cut(s, ws, p);
      t.wal == s.wal && t.boot == s.boot && t.counter == s.counter && t.log == s.log
    decreases |ws|
  {
    if ws != [] && p > 0 {
      assert ws[0] in ws;
      OnlyNextKeeps(Apply(s, ws[0]), ws[1..], p - 1);
    }
  }

  lemma FetchesOnlyNext(tr: Trust, man: Manifest, dl: Delivery, host: Host)
    ensures OnlyNext(OsPlan(tr, man, dl)) && OnlyNext(ArtifactPlan(tr, man, dl, host))
  {
    var bundles := StagedBundles(man, host);
    OsOnlyNext(tr, man, dl);
    BundleFetch.BundlesOnly(tr.hashes, bundles, dl.bundles);
    assert OnlyNext(BundleFetch.BundlesPlan(tr.hashes, bundles, dl.bundles));
  }

  lemma OsOnlyNext(tr: Trust, man: Manifest, dl: Delivery)
    ensures OnlyNext(OsPlan(tr, man, dl))
  {
  }

  predicate PairOk(tr: Trust, image: Option<Bytes>, imageHash: string,
                   hasProof: bool, proof: Option<Bytes>, proofHash: string)
  {
    image.Some? && tr.hashes(image.value, imageHash) && hasProof && proof.Some? && tr.hashes(proof.value, proofHash)
  }

  function RootPlan(tr: Trust, man: Manifest, dl: Delivery): seq<Write> {
    PairPlan(tr, ROOTFS, dl.rootImage, man.rootHash, man.hasTree, dl.rootTree, man.treeHash)
  }

  predicate RootOk(tr: Trust, man: Manifest, dl: Delivery) {
    PairOk(tr, dl.rootImage, man.rootHash, man.hasTree, dl.rootTree, man.treeHash)
  }

  function KcPlan(tr: Trust, man: Manifest, dl: Delivery): seq<Write> {
    PairPlan(tr, KERNELCACHE, dl.kcImage, man.kcHash, man.hasSig, dl.kcSig, man.sigHash)
  }

  predicate KcOk(tr: Trust, man: Manifest, dl: Delivery) {
    PairOk(tr, dl.kcImage, man.kcHash, man.hasSig, dl.kcSig, man.sigHash)
  }

  function TargetKernel(man: Manifest, host: Host): string {
    if man.kernelRelease != "" then man.kernelRelease else host.kernel
  }

  function StagedBundles(man: Manifest, host: Host): seq<BundleSpec> {
    Staged(man.bundles, host.chips, TargetKernel(man, host))
  }

  predicate FirmwareOk(tr: Trust, man: Manifest, dl: Delivery, host: Host) {
    && (man.bundles != [] ==> host.hasFirmwareDir)
    && BundleFetch.AllOk(tr.hashes, StagedBundles(man, host), dl.bundles)
  }

  /** Every bundle deployed on the track, or nothing if one floor refuses its version. */
  function DeployAll(fw: FirmwareTrack.Bundles, bundles: seq<BundleSpec>): Option<FirmwareTrack.Bundles>
    decreases |bundles|
  {
    if bundles == [] then Some(fw)
    else
      var b := bundles[0];
      var cur := FirmwareTrack.Get(fw, b.name);
      if b.version <= cur.minVersion then None
      else DeployAll(fw[b.name := FirmwareTrack.Deployed(cur, b.version, b.verityHash)], bundles[1..])
  }

  /** The WAL staging commits. */
  function StagedWal(w: Wal, man: Manifest, host: Host): Option<Wal> {
    var fw := DeployAll(w.firmware, StagedBundles(man, host));
    if fw.None? then None
    else Some(Deployed(w, man.version).(pendingHash := man.verityHash, firmware := fw.value))
  }

  /** The checks before anything is fetched. */
  predicate Admitted(s: Sys, man: Manifest, host: Host) {
    && Load(s.wal).Some? && !IsDowngrade(man.version, Load(s.wal).value.current)
    && Coupled(man.kernelRelease, host.kernel, man.bundles, host.chips)
  }

  function CommitPlan(w: Wal, man: Manifest): seq<Write> {
    SavePlan(w, Staging(man.version)) + [SetBoot(BootStateOf(w))]
  }

  /** What staging writes once the running candidate is out of the way. */
  function FetchPlan(tr: Trust, s: Sys, man: Manifest, dl: Delivery, host: Host): seq<Write> {
    if !Admitted(s, man, host) then [] else ArtifactPlan(tr, man, dl, host) + FinalPlan(tr, s, man, dl, host)
  }

  function OsPlan(tr: Trust, man: Manifest, dl: Delivery): seq<Write> {
    RootPlan(tr, man, dl) + if RootOk(tr, man, dl) then KcPlan(tr, man, dl) else []
  }

  function FirmwarePlan(tr: Trust, man: Manifest, dl: Delivery, host: Host): seq<Write> {
    if man.bundles != [] && !host.hasFirmwareDir then []
    else BundleFetch.BundlesPlan(tr.hashes, StagedBundles(man, host), dl.bundles)
  }

  /** Everything that is fetched: the two pairs of the release, then its bundles. */
  function ArtifactPlan(tr: Trust, man: Manifest, dl: Delivery, host: Host): seq<Write> {
    OsPlan(tr, man, dl) + if RootOk(tr, man, dl) && KcOk(tr, man, dl) then FirmwarePlan(tr, man, dl, host) else []
  }

  function FinalPlan(tr: Trust, s: Sys, man: Manifest, dl: Delivery, host: Host): seq<Write>
    requires Load(s.wal).Some?
  {
    if Completes(tr, s, man, dl, host)
    then CommitPlan(StagedWal(Load(s.wal).value, man, host).value, man) else []
  }

  function Plan(tr: Trust, s: Sys, man: Manifest, dl: Delivery, host: Host): seq<Write> {
    var running := BootSuccess.RunningPlan(s, host.id);
    if BootSuccess.RunningRefused(s, host.id) then []
    else running + FetchPlan(tr, Exec(s, running), man, dl, host)
  }

  predicate Completes(tr: Trust, s: Sys, man: Manifest, dl: Delivery, host: Host) {
    && Admitted(s, man, host) && RootOk(tr, man, dl) && KcOk(tr, man, dl) && FirmwareOk(tr, man, dl, host)
    && StagedWal(Load(s.wal).value, man, host).Some?
  }

  // --- The routine ---

  datatype Report = Untrusted | Refused | Failed | Interrupted | Done

  /** One write followed by the rest of a routine. */
  lemma DidOne(s0: Sys, p0: nat, w: Write, s1: Sys, p1: nat, rest: seq<Write>, s2: Sys, p2: nat, ok: bool)
    requires Performed(s0, p0, [w], s1, p1, true) && Performed(s1, p1, rest, s2, p2, ok)
    ensures Performed(s0, p0, [w] + rest, s2, p2, ok)
  {
    Plans.PerformedThen(Apply, s0, p0, [w], s1, p1, rest, s2, p2, ok);
  }

  /** The second half of a pair, once its image has arrived and verified. */
  method StageProof(m: Machine, tr: Trust, f: Pair, hasProof: bool, proof: Option<Bytes>, proofHash: string)
    returns (r: Report)
    requires m.apply == Apply
    modifies m
    ensures Performed(old(m.state), old(m.power), ProofPlan(tr, f, hasProof, proof, proofHash), m.state, m.power,
      r != Interrupted)
    ensures r == Interrupted || r == Failed || r == Done
    ensures r == Done ==> hasProof && proof.Some? && tr.hashes(proof.value, proofHash)
    ensures r == Failed ==> !(hasProof && proof.Some? && tr.hashes(proof.value, proofHash))
  {
    if !hasProof || proof.None? {
      var ok := m.Do(Drop(f.image));
      return if ok then Failed else Interrupted;
    }
    ghost var s0, p0 := m.state, m.power;
    var ok := m.Do(Install(f.proof, proof.value));
    if !tr.hashes(proof.value, proofHash) {
      ghost var both := [Drop(f.image), Drop(f.proof)];
      if !ok {
        Plans.PerformedCut(Apply, s0, p0, [Install(f.proof, proof.value)], both, m.state, m.power);
        return Interrupted;
      }
      ghost var s1, p1 := m.state, m.power;
      ok := m.DoAll([Drop(f.image), Drop(f.proof)]);
      DidOne(s0, p0, Install(f.proof, proof.value), s1, p1, both, m.state, m.power, ok);
      return if ok then Failed else Interrupted;
    }
    return if ok then Done else Interrupted;
  }

  method StagePair(m: Machine, tr: Trust, f: Pair, image: Option<Bytes>, imageHash: string,
                   hasProof: bool, proof: Option<Bytes>, proofHash: string) returns (r: Report)
    requires m.apply == Apply
    modifies m
    ensures Performed(old(m.state), old(m.power), PairPlan(tr, f, image, imageHash, hasProof, proof, proofHash),
                      m.state, m.power, r != Interrupted)
    ensures r == Interrupted || r == Failed || r == Done
    ensures r == Done ==> PairOk(tr, image, imageHash, hasProof, proof, proofHash)
    ensures r == Failed ==> !PairOk(tr, image, imageHash, hasProof, proof, proofHash)
  {
    if image.None? { return Failed; }
    ghost var s0, p0 := m.state, m.power;
    var install := Install(f.image, image.value);
    ghost var rest := if tr.hashes(image.value, imageHash) then ProofPlan(tr, f, hasProof, proof, proofHash)
      else [Drop(f.image)];
    var ok := m.Do(install);
    if !ok { Plans.PerformedCut(Apply, s0, p0, [install], rest, m.state, m.power); return Interrupted; }
    ghost var s1, p1 := m.state, m.power;
    if !tr.hashes(image.value, imageHash) {
      ok := m.Do(Drop(f.image));
      r := if ok then Failed else Interrupted;
    } else {
      r := StageProof(m, tr, f, hasProof, proof, proofHash);
    }
    DidOne(s0, p0, install, s1, p1, rest, m.state, m.power, r != Interrupted);
  }

  method DeployBundles(d: Deployment, bundles: seq<BundleSpec>) returns (ok: bool)
    modifies d.track
    ensures d.track == old(d.track)
    ensures ok == DeployAll(old(d.track.bundles), bundles).Some?
    ensures ok ==> d.track.bundles == DeployAll(old(d.track.bundles), bundles).value
  {
    for i := 0 to |bundles|
      invariant DeployAll(old(d.track.bundles), bundles) == DeployAll(d.track.bundles, bundles[i..])
    {
      var accepted := d.track.Deploy(bundles[i].name, bundles[i].version, bundles[i].verityHash);
      if !accepted { return false; }
    }
    return true;
  }

  method FetchOs(m: Machine, tr: Trust, man: Manifest, dl: Delivery) returns (r: Report)
    requires m.apply == Apply
    modifies m
    ensures Performed(old(m.state), old(m.power), OsPlan(tr, man, dl), m.state, m.power, r != Interrupted)
    ensures r == Interrupted || r == Failed || r == Done
    ensures r == Done ==> RootOk(tr, man, dl) && KcOk(tr, man, dl)
    ensures r == Failed ==> !(RootOk(tr, man, dl) && KcOk(tr, man, dl))
  {
    ghost var s0, p0 := m.state, m.power;
    ghost var root, kc := RootPlan(tr, man, dl), if RootOk(tr, man, dl) then KcPlan(tr, man, dl) else [];
    r := StagePair(m, tr, ROOTFS, dl.rootImage, man.rootHash, man.hasTree, dl.rootTree, man.treeHash);
    if r == Interrupted { Plans.PerformedCut(Apply, s0, p0, root, kc, m.state, m.power); return; }
    if r == Failed { assert root + kc == root; return; }
    ghost var s1, p1 := m.state, m.power;
    r := StagePair(m, tr, KERNELCACHE, dl.kcImage, man.kcHash, man.hasSig, dl.kcSig, man.sigHash);
    Plans.PerformedThen(Apply, s0, p0, root, s1, p1, kc, m.state, m.power, r != Interrupted);
  }

  method FetchFirmware(m: Machine, tr: Trust, man: Manifest, dl: Delivery, host: Host) returns (r: Report)
    requires m.apply == Apply
    modifies m
    ensures Performed(old(m.state), old(m.power), FirmwarePlan(tr, man, dl, host), m.state, m.power, r != Interrupted)
    ensures r == Interrupted || r == Failed || r == Done
    ensures r == Done ==> FirmwareOk(tr, man, dl, host)
    ensures r == Failed ==> !FirmwareOk(tr, man, dl, host)
  {
    if |man.bundles| > 0 && !host.hasFirmwareDir { return Failed; }
    var o := BundleFetch.StageBundles(m, tr.hashes, StagedBundles(man, host), dl.bundles);
    return if o.Stopped? then Interrupted else if o.Good? then Done else Failed;
  }

  method FetchArtifacts(m: Machine, tr: Trust, man: Manifest, dl: Delivery, host: Host) returns (r: Report)
    requires m.apply == Apply
    modifies m
    ensures Performed(old(m.state), old(m.power), ArtifactPlan(tr, man, dl, host), m.state, m.power, r != Interrupted)
    ensures r == Interrupted || r == Failed || r == Done
    ensures r == Done ==> RootOk(tr, man, dl) && KcOk(tr, man, dl) && FirmwareOk(tr, man, dl, host)
    ensures r == Failed ==> !(RootOk(tr, man, dl) && KcOk(tr, man, dl) && FirmwareOk(tr, man, dl, host))
  {
    ghost var s0, p0, os := m.state, m.power, OsPlan(tr, man, dl);
    ghost var rest := if RootOk(tr, man, dl) && KcOk(tr, man, dl) then FirmwarePlan(tr, man, dl, host) else [];
    r := FetchOs(m, tr, man, dl);
    if r == Interrupted { Plans.PerformedCut(Apply, s0, p0, os, rest, m.state, m.power); return; }
    if r == Failed { assert os + rest == os; return; }
    ghost var s1, p1 := m.state, m.power;
    r := FetchFirmware(m, tr, man, dl, host);
    Plans.PerformedThen(Apply, s0, p0, os, s1, p1, rest, m.state, m.power, r != Interrupted);
  }

  /** The candidate's WAL record, unless a firmware floor refuses one of its bundles. */
  method BuildStagedWal(w: Wal, man: Manifest, host: Host) returns (staged: Option<Wal>)
    ensures staged == StagedWal(w, man, host)
  {
    var d := new Deployment(w);
    d.Deploy(man.version);
    d.pendingHash := man.verityHash;
    var accepted := DeployBundles(d, StagedBundles(man, host));
    if !accepted { return None; }
    return Some(d.Record());
  }

  /** The fetches and the commit, after the running candidate has been dealt with. */
  method FetchAndCommit(m: Machine, tr: Trust, man: Manifest, dl: Delivery, host: Host) returns (r: Report)
    requires Load(m.state.wal).Some?
    requires m.apply == Apply
    modifies m
    ensures Performed(old(m.state), old(m.power), FetchPlan(tr, old(m.state), man, dl, host), m.state, m.power,
      r != Interrupted)
    ensures r == Done ==> Completes(tr, old(m.state), man, dl, host)
    ensures r != Done && r != Interrupted ==> !Completes(tr, old(m.state), man, dl, host)
    ensures r != Untrusted
  {
    ghost var s0, p0 := m.state, m.power;
    var cur := Load(m.state.wal).value;
    if IsDowngrade(man.version, cur.current) { return Refused; }
    var coupled := CoupledKernelCheck(man.kernelRelease, host.kernel, man.bundles, host.chips);
    if !coupled { return Refused; }
    ghost var fetch, fin := ArtifactPlan(tr, man, dl, host), FinalPlan(tr, s0, man, dl, host);
    r := FetchArtifacts(m, tr, man, dl, host);
    if r == Interrupted { Plans.PerformedCut(Apply, s0, p0, fetch, fin, m.state, m.power); return; }
    FetchesOnlyNext(tr, man, dl, host);
    OnlyNextKeeps(s0, fetch, p0);
    if r == Failed {
      assert fetch + fin == fetch;
      return Failed;
    }
    var staged := BuildStagedWal(Load(m.state.wal).value, man, host);
    if staged.None? {
      assert fetch + fin == fetch;
      return Refused;
    }
    ghost var s1, p1 := m.state, m.power;
    var ok := CommitStaged(m, staged.value, man);
    Plans.PerformedThen(Apply, s0, p0, fetch, s1, p1, fin, m.state, m.power, ok);
    return if ok then Done else Interrupted;
  }

  method CommitStaged(m: Machine, w: Wal, man: Manifest) returns (ok: bool)
    requires m.apply == Apply
    modifies m
    ensures Performed(old(m.state), old(m.power), CommitPlan(w, man), m.state, m.power, ok)
  {
    ghost var s0, p0 := m.state, m.power;
    ok := Save(m, w, Staging(man.version));
    if !ok {
      Plans.PerformedCut(Apply, s0, p0, SavePlan(w, Staging(man.version)), [SetBoot(BootStateOf(w))], m.state, m.power);
      return;
    }
    ghost var s1, p1 := m.state, m.power;
    ok := m.Do(SetBoot(BootStateOf(w)));
    Plans.PerformedThen(Apply, s0, p0, SavePlan(w, Staging(man.version)), s1, p1, [SetBoot(BootStateOf(w))], m.state,
      m.power, ok);
  }

  lemma {:induction false} LoadStays(s: Sys, plan: seq<Write>, p: nat)
    requires Load(s.wal).Some?
    ensures Load(Cut(s, plan, p).wal).Some?
    decreases p
  {
    if p > 0 && plan != [] { LoadStays(Apply(s, plan[0]), plan[1..], p - 1); }
  }

  /** Stage, from the feed to the armed boot-state. An untrusted feed changes nothing; a
      trusted one is staged by its plan, and reported done only if every check passed. */
  method Run(m: Machine, tr: Trust, root: Bytes, feed: Feed, digest: string, urls: Delivery, host: Host)
    returns (r: Report, ghost man: Option<Manifest>, ghost dl: Delivery)
    requires m.apply == Apply
    modifies m
    ensures r == Untrusted ==> m.state == old(m.state) && forall x :: !Chains(tr, root, feed, digest, x)
    ensures r != Untrusted ==>
      && feed.manifest.Some? && feed.manifestSig.Some? && feed.cert.Some? && feed.certSig.Some?
      && dl == urls.(bundles := urls.bundles.(anchor := AnchorOf(feed)))
      && man.Some? && Chains(tr, root, feed, digest, man.value)
      && m.state == Cut(old(m.state), Plan(tr, old(m.state), man.value, dl, host), old(m.power))
    ensures r == Done ==>
      && var s := old(m.state);
      && |Plan(tr, s, man.value, dl, host)| <= old(m.power)
      && !BootSuccess.RunningRefused(s, host.id)
      && Completes(tr, Exec(s, BootSuccess.RunningPlan(s, host.id)), man.value, dl, host)
  {
    man, dl := None, urls;
    var v := FetchVerifiedManifest(tr, root, feed, digest);
    if v.None? { return Untrusted, None, urls; }
    var arrivals := urls.(bundles := urls.bundles.(anchor := AnchorOf(feed)));
    man, dl := v, arrivals;
    ghost var s0, p0 := m.state, m.power;
    ghost var running := BootSuccess.RunningPlan(m.state, host.id);
    var ok := BootSuccess.PromoteRunningCandidate(m, host.id);
    if !ok {
      if !BootSuccess.RunningRefused(s0, host.id) {
        Plans.PerformedCut(Apply, s0, p0, running, FetchPlan(tr, Exec(s0, running), v.value, dl, host), m.state,
          m.power);
      }
      return Failed, man, dl;
    }
    LoadStays(s0, running, |running|);
    CutAppend(s0, running, [], p0);
    ghost var s1, p1 := m.state, m.power;
    r := FetchAndCommit(m, tr, v.value, arrivals, host);
    Plans.PerformedThen(Apply, s0, p0, running, s1, p1, FetchPlan(tr, s1, v.value, dl, host), m.state, m.power,
      r != Interrupted);
  }

  // --- All or nothing ---

  function Expected(man: Manifest, f: File): string {
    match f
    case RootImage => man.rootHash case RootTree => man.treeHash
    case KcImage => man.kcHash case KcSig => man.sigHash
  }

  /** The four files of the release are there and hash to what the manifest says. */
  predicate OsVerified(tr: Trust, man: Manifest, d: Disk) {
    forall f: File :: d.Content(f, Next).Some? && tr.hashes(d.Content(f, Next).value, Expected(man, f))
  }

  /** And so do the files of every bundle that was staged, with its anchor. */
  ghost predicate Verified(tr: Trust, man: Manifest, host: Host, anchor: BundleFetch.Anchor, d: Disk) {
    OsVerified(tr, man, d) && BundleFetch.AllStored(tr.hashes, StagedBundles(man, host), anchor, d)
  }

  lemma OsFetched(tr: Trust, s: Sys, man: Manifest, dl: Delivery)
    requires RootOk(tr, man, dl) && KcOk(tr, man, dl)
    ensures OsVerified(tr, man, Exec(s, OsPlan(tr, man, dl)).disk)
  {
    var a, b, c, d := Install(RootImage, dl.rootImage.value), Install(RootTree, dl.rootTree.value),
                      Install(KcImage, dl.kcImage.value), Install(KcSig, dl.kcSig.value);
    assert OsPlan(tr, man, dl) == [a] + ([b] + ([c] + [d]));
    CutCons(s, a, [b] + ([c] + [d]), 4);
    var s1 := Apply(s, a);
    CutCons(s1, b, [c] + [d], 3);
    var s2 := Apply(s1, b);
    CutCons(s2, c, [d], 2);
    var t := Apply(Apply(s2, c), d);
    assert Exec(s, OsPlan(tr, man, dl)) == t;
    assert t.disk.Content(RootImage, Next) == dl.rootImage && t.disk.Content(RootTree, Next) == dl.rootTree;
  }

  /** Fetching bundles leaves the slots of the release alone. */
  lemma BundlesSpareSlots(tr: Trust, s: Sys, bundles: seq<BundleSpec>, a: BundleFetch.Arrivals, p: nat)
    ensures var t := Cut(s, BundleFetch.BundlesPlan(tr.hashes, bundles, a), p);
      && t == s.(disk := s.disk.(bundles := t.disk.bundles))
      && forall f: File, x: Slot :: t.disk.Content(f, x) == s.disk.Content(f, x)
  {
    BundleFetch.BundlesOnly(tr.hashes, bundles, a);
    BundleFetch.BundlesSpare(s, BundleFetch.BundlesPlan(tr.hashes, bundles, a), BundleFetch.Names(bundles), p);
  }

  lemma ArtifactsVerified(tr: Trust, s: Sys, man: Manifest, dl: Delivery, host: Host)
    requires RootOk(tr, man, dl) && KcOk(tr, man, dl) && FirmwareOk(tr, man, dl, host)
    ensures Verified(tr, man, host, dl.bundles.anchor, Exec(s, ArtifactPlan(tr, man, dl, host)).disk)
  {
    var os, bundles := OsPlan(tr, man, dl), StagedBundles(man, host);
    var t := Exec(s, os);
    ExecAppend(s, os, FirmwarePlan(tr, man, dl, host));
    OsFetched(tr, s, man, dl);
    BundleFetch.BundlesStored(tr.hashes, bundles, dl.bundles, t);
    BundlesSpareSlots(tr, t, bundles, dl.bundles, |BundleFetch.BundlesPlan(tr.hashes, bundles, dl.bundles)|);
    assert FirmwarePlan(tr, man, dl, host) == BundleFetch.BundlesPlan(tr.hashes, bundles, dl.bundles);
  }

  /** Nothing but the staged slots differs. */
  predicate OnlyStaged(s: Sys, t: Sys) {
    t.wal == s.wal && t.boot == s.boot && t.counter == s.counter && t.log == s.log
  }

  /** Between a state `r` and where staging an admitted manifest from it was cut: only staged
      slots differ, unless every staged file is in place and verified; only then is the WAL the
      candidate's record. */
  ghost predicate Atomic(tr: Trust, r: Sys, t: Sys, man: Manifest, dl: Delivery, host: Host) {
    || OnlyStaged(r, t)
    || (&& Load(r.wal).Some? && Completes(tr, r, man, dl, host)
        && Verified(tr, man, host, dl.bundles.anchor, t.disk)
        && t.counter == r.counter
        && var w := StagedWal(Load(r.wal).value, man, host).value;
           || (t.wal == r.wal.(backup := Some(w)) && t.boot == r.boot && t.log == r.log)
           || (t.wal == WalFiles(Some(w), Some(w)) && t.log == r.log + [Staging(man.version)]
               && (t.boot == r.boot || t.boot == Some(BootStateOf(w)))))
  }

  /** Wherever staging is cut -- or stops by itself -- it is either still promoting the running
      candidate, or atomic from what that promotion left. */
  lemma AllOrNothing(tr: Trust, s: Sys, man: Manifest, dl: Delivery, host: Host, p: nat)
    requires !BootSuccess.RunningRefused(s, host.id)
    ensures var running := BootSuccess.RunningPlan(s, host.id);
      var t := Cut(s, Plan(tr, s, man, dl, host), p);
      (p <= |running| && t == Cut(s, running, p)) || Atomic(tr, Exec(s, running), t, man, dl, host)
  {
    var running := BootSuccess.RunningPlan(s, host.id);
    var r := Exec(s, running);
    CutAppend(s, running, FetchPlan(tr, r, man, dl, host), p);
    if p > |running| {
      LoadStays(s, running, |running|);
      FetchAtomic(tr, r, man, dl, host, p - |running|);
    }
  }

  lemma FetchAtomic(tr: Trust, r: Sys, man: Manifest, dl: Delivery, host: Host, q: nat)
    requires Load(r.wal).Some?
    ensures Atomic(tr, r, Cut(r, FetchPlan(tr, r, man, dl, host), q), man, dl, host)
  {
    if Admitted(r, man, host) {
      var fetch, fin := ArtifactPlan(tr, man, dl, host), FinalPlan(tr, r, man, dl, host);
      CutAppend(r, fetch, fin, q);
      FetchesOnlyNext(tr, man, dl, host);
      OnlyNextKeeps(r, fetch, q);
      OnlyNextKeeps(r, fetch, |fetch|);
      if q > |fetch| && Completes(tr, r, man, dl, host) {
        ArtifactsVerified(tr, r, man, dl, host);
        CommitCut(Exec(r, fetch), StagedWal(Load(r.wal).value, man, host).value, man, q - |fetch|);
      }
    }
  }

  /** Whatever is committed: the initramfs finds beside every staged bundle an anchor that vouches
      for the manifest this release was staged by. */
  lemma AnchorsVouch(tr: Trust, root: Bytes, feed: Feed, digest: string, s: Sys, man: Manifest, dl: Delivery,
                     host: Host, p: nat, i: nat)
    requires Load(s.wal).Some? && Chains(tr, root, feed, digest, man) && dl.bundles.anchor == AnchorOf(feed)
    requires i < |StagedBundles(man, host)| && BundleFetch.LastOfName(StagedBundles(man, host), i)
    ensures var t := Cut(s, FetchPlan(tr, s, man, dl, host), p);
      Load(t.wal) != Load(s.wal) ==>
        && var a := BundleFetch.AnchorBeside(t.disk, StagedBundles(man, host)[i]);
        && a.Some? && Vouches(tr, root, a.value, man)
  {
    FetchAtomic(tr, s, man, dl, host, p);
  }

  lemma CommitCut(s: Sys, w: Wal, man: Manifest, p: nat)
    requires p >= 1
    ensures var t := Cut(s, CommitPlan(w, man), p);
      && t.disk == s.disk && t.counter == s.counter
      && (p == 1 ==> t.wal == s.wal.(backup := Some(w)) && t.boot == s.boot && t.log == s.log)
      && (p >= 2 ==> t.wal == WalFiles(Some(w), Some(w)) && t.log == s.log + [Staging(man.version)])
      && (p == 2 ==> t.boot == s.boot) && (p >= 3 ==> t.boot == Some(BootStateOf(w)))
  {
    var c, last := Staging(man.version), [SetBoot(BootStateOf(w))];
    assert CommitPlan(w, man) == [SaveBackup(w)] + ([SavePrimary(w, c)] + last);
    CutCons(s, SaveBackup(w), [SavePrimary(w, c)] + last, p);
    var s1 := Apply(s, SaveBackup(w));
    CutCons(s1, SavePrimary(w, c), last, p - 1);
    assert last == [SetBoot(BootStateOf(w))] + [];
    if p >= 2 { CutCons(Apply(s1, SavePrimary(w, c)), SetBoot(BootStateOf(w)), [], p - 2); }
  }
}
