/** When staging succeeds, and what it then has recorded, written out in terms of the feed, the
    delivery and the record (internal/otad/stage.go:51-236). */
module StagingExactly {
  import opened Common
  import opened Versions
  import opened DeploymentWal
  import opened Device
  import opened KernelCoupling
  import opened Stage
  import opened StagedDrivers
  import BundleFetch
  import FirmwareTrack

  /** A file arrived with this hash. */
  predicate Arrived(tr: Trust, file: Option<Bytes>, hash: string) { file.Some? && tr.hashes(file.value, hash) }

  /** The release arrived whole: two images, each with the proof the manifest has for it. */
  predicate ReleaseArrived(tr: Trust, man: Manifest, dl: Delivery) {
    && man.hasTree && man.hasSig
    && Arrived(tr, dl.rootImage, man.rootHash) && Arrived(tr, dl.rootTree, man.treeHash)
    && Arrived(tr, dl.kcImage, man.kcHash) && Arrived(tr, dl.kcSig, man.sigHash)
  }

  predicate BundleArrived(tr: Trust, dl: Delivery, b: BundleSpec) {
    && Arrived(tr, dl.bundles.image(b), b.hash)
    && (b.verityHash == "" || Arrived(tr, dl.bundles.tree(b), b.treeHash))
  }

  /** The anti-rollback floor of a bundle; one that was never deployed has none. */
  function FloorOf(fw: FirmwareTrack.Bundles, name: string): int { if name in fw then fw[name].minVersion else 0 }

  /** Deploying bundles never moves a floor, so it works exactly when each is above its own. */
  lemma {:induction false} FloorsExactly(fw: FirmwareTrack.Bundles, bundles: seq<BundleSpec>)
    ensures DeployAll(fw, bundles).Some? <==> forall b :: b in bundles ==> b.version > FloorOf(fw, b.name)
    decreases |bundles|
  {
    if bundles != [] {
      var b := bundles[0];
      assert bundles == [b] + bundles[1..] && b in bundles;
      var next := fw[b.name := FirmwareTrack.Deployed(FirmwareTrack.Get(fw, b.name), b.version, b.verityHash)];
      FloorsExactly(next, bundles[1..]);
      forall x: BundleSpec ensures FloorOf(next, x.name) == FloorOf(fw, x.name) {}
    }
  }

  /** Staging an admitted manifest completes exactly when the release and every bundle for this
      machine arrived intact, there is somewhere to put bundles if there are any, and none of them
      is at or below its floor. */
  lemma CompletesExactly(tr: Trust, s: Sys, man: Manifest, dl: Delivery, host: Host, kernel: string)
    requires s.wal.primary.Some? && NextKernel(man, host, kernel)
    ensures Completes(tr, s, man, dl, host) <==>
      && Admitted(s, man, host) && ReleaseArrived(tr, man, dl)
      && (man.bundles == [] || host.hasFirmwareDir)
      && forall b :: b in man.bundles && ForThisMachine(b, host.chips) && BuiltFor(b, kernel) ==>
           BundleArrived(tr, dl, b) && b.version > FloorOf(s.wal.primary.value.firmware, b.name)
  {
    KeptExactly(man, host, kernel);
    FloorsExactly(s.wal.primary.value.firmware, StagedBundles(man, host));
    forall b: BundleSpec
      ensures BundleFetch.BundleOk(tr.hashes, b, dl.bundles) <==> BundleArrived(tr, dl, b)
    {
    }
  }

  /** The record of a bundle on trial: the floor and the good version stay. */
  predicate OnTrial(b: BundleSpec, was: FirmwareTrack.Bundle, x: FirmwareTrack.Bundle) {
    && x.pending == b.version && x.pendingHash == b.verityHash && x.state == FirmwareTrack.Updating && x.probes == 0
    && x.current == was.current && x.lastKnownGood == was.lastKnownGood && x.minVersion == was.minVersion
    && x.threshold == was.threshold
  }

  ghost predicate AllOnTrial(fw: FirmwareTrack.Bundles, bundles: seq<BundleSpec>, after: FirmwareTrack.Bundles) {
    && (forall i: nat :: i < |bundles| && BundleFetch.LastOfName(bundles, i) ==>
          bundles[i].name in after
          && OnTrial(bundles[i], FirmwareTrack.Get(fw, bundles[i].name), after[bundles[i].name]))
    && forall name :: name !in BundleFetch.Names(bundles) ==>
         (name in after <==> name in fw) && (name in fw ==> name in after && after[name] == fw[name])
  }

  lemma {:induction false} DeployedAll(fw: FirmwareTrack.Bundles, bundles: seq<BundleSpec>)
    requires DeployAll(fw, bundles).Some?
    ensures AllOnTrial(fw, bundles, DeployAll(fw, bundles).value)
    decreases |bundles|
  {
    if bundles != [] {
      var b, rest := bundles[0], bundles[1..];
      var next := fw[b.name := FirmwareTrack.Deployed(FirmwareTrack.Get(fw, b.name), b.version, b.verityHash)];
      DeployedAll(next, rest);
      FirstOnTrial(fw, bundles, next, DeployAll(next, rest).value);
    }
  }

  lemma LastInRest(bundles: seq<BundleSpec>, i: nat)
    requires i < |bundles| && BundleFetch.LastOfName(bundles, i)
    ensures i > 0 ==> BundleFetch.LastOfName(bundles[1..], i - 1)
    ensures i == 0 ==> bundles[0].name !in BundleFetch.Names(bundles[1..])
  {
    var rest := bundles[1..];
    forall j | 0 <= j < |rest| ensures rest[j] == bundles[j + 1] {}
    if i == 0 {
      forall x | x in rest ensures x.name != bundles[0].name {
        var j :| 0 <= j < |rest| && rest[j] == x;
        assert bundles[j + 1] == x;
      }
    }
  }

  lemma NamesOf(bundles: seq<BundleSpec>)
    requires bundles != []
    ensures forall name ::
      name in BundleFetch.Names(bundles) <==> name == bundles[0].name || name in BundleFetch.Names(bundles[1..])
  {
    assert bundles == [bundles[0]] + bundles[1..];
  }

  lemma FirstOnTrial(fw: FirmwareTrack.Bundles, bundles: seq<BundleSpec>, next: FirmwareTrack.Bundles,
                     after: FirmwareTrack.Bundles)
    requires bundles != [] && AllOnTrial(next, bundles[1..], after)
    requires var b := bundles[0]; var was := FirmwareTrack.Get(fw, b.name);
      b.version > was.minVersion && next == fw[b.name := FirmwareTrack.Deployed(was, b.version, b.verityHash)]
    ensures AllOnTrial(fw, bundles, after)
  {
    NamesOf(bundles);
    forall i: nat | i < |bundles| && BundleFetch.LastOfName(bundles, i)
      ensures bundles[i].name in after
      ensures OnTrial(bundles[i], FirmwareTrack.Get(fw, bundles[i].name), after[bundles[i].name])
    {
      LastInRest(bundles, i);
      OneOnTrial(fw, bundles, i, next, after);
    }
  }

  lemma OneOnTrial(fw: FirmwareTrack.Bundles, bundles: seq<BundleSpec>, i: nat, next: FirmwareTrack.Bundles,
                   after: FirmwareTrack.Bundles)
    requires i < |bundles| && AllOnTrial(next, bundles[1..], after)
    requires var b := bundles[0]; var was := FirmwareTrack.Get(fw, b.name);
      b.version > was.minVersion && next == fw[b.name := FirmwareTrack.Deployed(was, b.version, b.verityHash)]
    requires i > 0 ==> BundleFetch.LastOfName(bundles[1..], i - 1)
    requires i == 0 ==> bundles[0].name !in BundleFetch.Names(bundles[1..])
    ensures bundles[i].name in after
    ensures OnTrial(bundles[i], FirmwareTrack.Get(fw, bundles[i].name), after[bundles[i].name])
  {
    if i > 0 {
      var x := bundles[1..][i - 1];
      assert x == bundles[i];
      assert OnTrial(x, FirmwareTrack.Get(next, x.name), after[x.name]);
    }
  }

  /** What a staging that is not cut has recorded: the candidate with its root hash and a whole
      budget, each of its bundles on trial, nothing else; and the loader is told. */
  lemma StagedEnds(tr: Trust, s: Sys, man: Manifest, dl: Delivery, host: Host)
    requires s.wal.primary.Some? && Completes(tr, s, man, dl, host)
    ensures var w, t := s.wal.primary.value, Exec(s, FetchPlan(tr, s, man, dl, host));
      && t.wal.primary.Some? && t.wal == WalFiles(t.wal.primary, t.wal.primary)
      && var x := t.wal.primary.value;
      && x == w.(pending := man.version, pendingHash := man.verityHash, bootAttempts := w.maxAttempts,
                 kcPending := x.kcPending, stableBoots := 0, firmware := x.firmware)
      && x.kcPending == (if KcOf(man.version).Some? then KcOf(man.version).value else w.kcPending)
      && AllOnTrial(w.firmware, StagedBundles(man, host), x.firmware)
      && t.log == s.log + [Staging(man.version)] && t.counter == s.counter
      && (man.version != "" && w.maxAttempts >= 1 ==> t.boot == Some(BootState(TargetNext, true, w.maxAttempts)))
  {
    var w := s.wal.primary.value;
    var fetch, fin := ArtifactPlan(tr, man, dl, host), FinalPlan(tr, s, man, dl, host);
    ExecAppend(s, fetch, fin);
    FetchesOnlyNext(tr, man, dl, host);
    OnlyNextKeeps(s, fetch, |fetch|);
    CommitCut(Exec(s, fetch), StagedWal(w, man, host).value, man, |fin|);
    DeployedAll(w.firmware, StagedBundles(man, host));
  }

  // --- What a failed fetch leaves behind ---

  /** One artifact and its proof, fetched to the end: nothing happens if the image does not arrive. An
      image that does not hash, or whose proof is not there, is gone; with a proof that does not hash
      both are; and if everything hashes both are there. */
  lemma PairEnds(tr: Trust, s: Sys, kernel: bool, image: Option<Bytes>, imageHash: string, hasProof: bool,
                 proof: Option<Bytes>, proofHash: string)
    requires s.disk.Linked()
    ensures var f := if kernel then KERNELCACHE else ROOTFS;
      var t := Exec(s, PairPlan(tr, f, image, imageHash, hasProof, proof, proofHash));
      if image.None? then t == s
      else
        var imageOk, proofOk := Arrived(tr, image, imageHash), hasProof && Arrived(tr, proof, proofHash);
        && t.disk.Content(f.image, Next) == (if imageOk && proofOk then image else None)
        && t.disk.Content(f.proof, Next)
           == (if !imageOk || !hasProof || proof.None? then s.disk.Content(f.proof, Next)
               else if proofOk then proof else None)
  {
    var f := if kernel then KERNELCACHE else ROOTFS;
    if image.Some? {
      var a := Install(f.image, image.value);
      var s1 := Apply(s, a);
      InstalledIs(s, f.image, image.value);
      assert s1.disk.Content(f.proof, Next) == s.disk.Content(f.proof, Next) by {
        assert s.disk.rootTree.next == s.disk.rootTree.At(Next);
      }
      if !Arrived(tr, image, imageHash) {
        TwoWrites(s, a, Drop(f.image));
      } else if !hasProof || proof.None? {
        TwoWrites(s, a, Drop(f.image));
      } else {
        var b := Install(f.proof, proof.value);
        InstalledIs(s1, f.proof, proof.value);
        if Arrived(tr, proof, proofHash) {
          TwoWrites(s, a, b);
        } else {
          FourWritesEnd(s, a, b, Drop(f.image), Drop(f.proof));
        }
      }
    }
  }

  lemma InstalledIs(s: Sys, f: File, bytes: Bytes)
    ensures var t := Apply(s, Install(f, bytes));
      && t.disk.Content(f, Next) == Some(bytes)
      && (f == RootImage ==> t.disk.rootTree == s.disk.rootTree)
      && (f == RootTree ==> t.disk.rootImage == s.disk.rootImage)
  {
  }

  lemma TwoWrites(s: Sys, a: Write, b: Write)
    ensures Exec(s, [a] + [b]) == Apply(Apply(s, a), b)
  {
    CutCons(s, a, [b], 2);
    assert [b] == [b] + [];
    CutCons(Apply(s, a), b, [], 1);
  }

  lemma FourWritesEnd(s: Sys, a: Write, b: Write, c: Write, d: Write)
    ensures Exec(s, [a] + ([b] + [c, d])) == Apply(Apply(Apply(Apply(s, a), b), c), d)
  {
    CutCons(s, a, [b] + [c, d], 4);
    CutCons(Apply(s, a), b, [c, d], 3);
    assert [c, d] == [c] + [d] && [d] == [d] + [];
    CutCons(Apply(Apply(s, a), b), c, [d], 2);
    CutCons(Apply(Apply(Apply(s, a), b), c), d, [], 1);
  }

  /** No bundle file is touched before the release has arrived whole, nor without a place for it. */
  lemma BundlesComeLast(tr: Trust, s: Sys, man: Manifest, dl: Delivery, host: Host, p: nat)
    requires s.wal.primary.Some?
    requires !ReleaseArrived(tr, man, dl) || man.bundles == [] || !host.hasFirmwareDir
    ensures Cut(s, FetchPlan(tr, s, man, dl, host), p).disk.bundles == s.disk.bundles
  {
    if Admitted(s, man, host) {
      var fetch, fin := ArtifactPlan(tr, man, dl, host), FinalPlan(tr, s, man, dl, host);
      CutAppend(s, fetch, fin, p);
      NoBundles(tr, man, dl, host);
      OsSparesBundles(s, OsPlan(tr, man, dl), p);
      OsSparesBundles(s, OsPlan(tr, man, dl), |fetch|);
      if p > |fetch| && fin != [] {
        CommitCut(Exec(s, fetch), StagedWal(s.wal.primary.value, man, host).value, man, p - |fetch|);
      }
    }
  }

  lemma NoBundles(tr: Trust, man: Manifest, dl: Delivery, host: Host)
    requires !ReleaseArrived(tr, man, dl) || man.bundles == [] || !host.hasFirmwareDir
    ensures ArtifactPlan(tr, man, dl, host) == OsPlan(tr, man, dl)
    ensures forall w :: w in OsPlan(tr, man, dl) ==> w.Install? || w.Drop?
  {
    if man.bundles == [] { assert StagedBundles(man, host) == []; }
    assert OsPlan(tr, man, dl) + [] == OsPlan(tr, man, dl);
  }

  lemma {:induction false} OsSparesBundles(s: Sys, ws: seq<Write>, p: nat)
    requires forall w :: w in ws ==> w.Install? || w.Drop?
    ensures Cut(s, ws, p).disk.bundles == s.disk.bundles
    decreases |ws|
  {
    if ws != [] && p > 0 {
      assert ws[0] in ws;
      OsSparesBundles(Apply(s, ws[0]), ws[1..], p - 1);
    }
  }
}
