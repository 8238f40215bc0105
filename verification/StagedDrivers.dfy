/** Which firmware bundles an update brings along (internal/otad/stage.go:160-180,
    hwselect.go:104-150): those for this machine and for the kernel it will then run. */
module StagedDrivers {
  import opened Common
  import opened Versions
  import opened DeploymentWal
  import opened Device
  import opened KernelCoupling
  import opened Stage
  import BundleFetch

  predicate IsGpu(chip: string) { chip == "nvidia" || chip == "amd" }

  predicate PinsKernel(b: BundleSpec) { b.kernelMin != "" || b.kernelMax != "" }

  /** Built for this kernel; an unknown kernel passes, and so does a missing bound. */
  predicate BuiltFor(b: BundleSpec, kernel: string) {
    kernel == "" || ((b.kernelMin == "" || Compare(b.kernelMin, kernel) <= 0)
                     && (b.kernelMax == "" || Compare(kernel, b.kernelMax) <= 0))
  }

  /** For one of these GPUs, or for no GPU in particular. */
  predicate ForThisMachine(b: BundleSpec, chips: seq<string>) {
    || (forall c :: c in b.chips ==> !IsGpu(c))
    || exists c :: c in b.chips && IsGpu(c) && c in chips
  }

  lemma MatchesMeans(b: BundleSpec, chips: seq<string>, kernel: string)
    ensures Matches(b, chips, kernel) <==> ForThisMachine(b, chips) && BuiltFor(b, kernel)
  {
    Antisymmetric(b.kernelMin, kernel);
  }

  /** The kernel the machine runs after this update. */
  predicate NextKernel(man: Manifest, host: Host, kernel: string) {
    if man.kernelRelease == "" then kernel == host.kernel else kernel == man.kernelRelease
  }

  /** Staging keeps exactly the bundles for this machine and for its next kernel. */
  lemma KeptExactly(man: Manifest, host: Host, kernel: string)
    requires NextKernel(man, host, kernel)
    ensures forall b ::
      b in StagedBundles(man, host) <==> b in man.bundles && ForThisMachine(b, host.chips) && BuiltFor(b, kernel)
  {
    forall b: BundleSpec { MatchesMeans(b, host.chips, kernel); }
  }

  /** A manifest is admitted exactly when it is no downgrade and its kernel either does not change
      or comes with a driver for every GPU here that it has drivers for at all. */
  lemma AdmittedExactly(s: Sys, man: Manifest, host: Host)
    requires s.wal.primary.Some?
    ensures Admitted(s, man, host) <==>
      && !IsDowngrade(man.version, s.wal.primary.value.current)
      && (man.kernelRelease == "" || man.kernelRelease == host.kernel
          || forall chip :: chip in host.chips && (exists b :: b in man.bundles && PinsKernel(b) && chip in b.chips) ==>
               exists b :: b in man.bundles && PinsKernel(b) && chip in b.chips
                 && ForThisMachine(b, [chip]) && BuiltFor(b, man.kernelRelease))
  {
    forall chip: string
      ensures Served(man.bundles, chip, man.kernelRelease) <==>
        ((exists b :: b in man.bundles && PinsKernel(b) && chip in b.chips) ==>
          exists b :: b in man.bundles && PinsKernel(b) && chip in b.chips
            && ForThisMachine(b, [chip]) && BuiltFor(b, man.kernelRelease))
    {
      ServedMeans(man.bundles, chip, man.kernelRelease);
    }
  }

  lemma ServedMeans(bundles: seq<BundleSpec>, chip: string, target: string)
    ensures Served(bundles, chip, target) <==>
      ((exists b :: b in bundles && PinsKernel(b) && chip in b.chips) ==>
        exists b :: b in bundles && PinsKernel(b) && chip in b.chips
          && ForThisMachine(b, [chip]) && BuiltFor(b, target))
  {
    forall b: BundleSpec ensures KernelBoundFor(b, chip) <==> PinsKernel(b) && chip in b.chips {}
    forall b: BundleSpec
      ensures Matches(b, [chip], target) <==> ForThisMachine(b, [chip]) && BuiltFor(b, target)
    {
      MatchesMeans(b, [chip], target);
    }
  }

  /** The driver for this chip that is on disk. */
  predicate DriverOnDisk(tr: Trust, man: Manifest, d: Disk, chip: string, b: BundleSpec) {
    && b in man.bundles && PinsKernel(b) && chip in b.chips && BuiltFor(b, man.kernelRelease)
    && BundleFetch.ImageName(b) in d.bundles && tr.hashes(d.bundles[BundleFetch.ImageName(b)], b.hash)
    && (b.verityHash != "" ==> BundleFetch.TreeName(b) in d.bundles
                               && tr.hashes(d.bundles[BundleFetch.TreeName(b)], b.treeHash))
  }

  /** No update that changes the kernel is committed without the drivers it has for the GPUs of this
      machine, built for the new kernel and verified on disk -- unless bundles share a name, and so
      a directory. */
  lemma DriversComeAlong(tr: Trust, s: Sys, man: Manifest, dl: Delivery, host: Host, p: nat, chip: string,
                         x: BundleSpec) returns (b: BundleSpec)
    requires s.wal.primary.Some? && man.kernelRelease != "" && man.kernelRelease != host.kernel
    requires forall i, j :: 0 <= i < j < |StagedBundles(man, host)| ==>
      StagedBundles(man, host)[i].name != StagedBundles(man, host)[j].name
    requires chip in host.chips && IsGpu(chip) && x in man.bundles && PinsKernel(x) && chip in x.chips
    requires Load(Cut(s, FetchPlan(tr, s, man, dl, host), p).wal) != Load(s.wal)
    ensures b in StagedBundles(man, host)
    ensures DriverOnDisk(tr, man, Cut(s, FetchPlan(tr, s, man, dl, host), p).disk, chip, b)
  {
    var t := Cut(s, FetchPlan(tr, s, man, dl, host), p);
    FetchAtomic(tr, s, man, dl, host, p);
    AdmittedExactly(s, man, host);
    b :| b in man.bundles && PinsKernel(b) && chip in b.chips && ForThisMachine(b, [chip])
         && BuiltFor(b, man.kernelRelease);
    KeptExactly(man, host, man.kernelRelease);
    assert ForThisMachine(b, host.chips);
    var i :| 0 <= i < |StagedBundles(man, host)| && StagedBundles(man, host)[i] == b;
    assert BundleFetch.LastOfName(StagedBundles(man, host), i);
    assert BundleFetch.Stored(tr.hashes, b, dl.bundles.anchor, t.disk);
  }
}
