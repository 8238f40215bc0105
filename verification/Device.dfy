/** The durable state of a device and the writes that change it. One write is one atomic
    replacement on disk; `Durable` proves that the file helpers provide that. A machine
    that loses power, or an operation that fails, after `p` writes leaves `Cut(s, plan, p)`. */
module Device {
  import opened Common
  import opened DeploymentWal
  import FirmwareSlot
  import Plans

  datatype Slot = Active | Next | Prev

  /** The four files of a release: the rootfs and its hash tree on the system partition,
      the kernelcache and its signature on the ESP. */
  datatype File = RootImage | RootTree | KcImage | KcSig

  /** What the three slot names of one file hold. */
  datatype Slots<V> = Slots(active: Option<V>, next: Option<V>, prev: Option<V>) {
    function At(slot: Slot): Option<V> {
      match slot case Active => active case Next => next case Prev => prev
    }

    function With(slot: Slot, v: Option<V>): Slots<V> {
      match slot
      case Active => this.(active := v)
      case Next => this.(next := v)
      case Prev => this.(prev := v)
    }
  }

  /** The files staged for a firmware bundle, in its own directory. */
  datatype BundleFile = BundleFile(bundle: string, file: FirmwareSlot.File)

  type Inode = nat

  /** Rootfs names are hard links, so they hold inodes; the ESP is FAT, where a name owns
      its contents. */
  datatype Disk = Disk(
    rootImage: Slots<Inode>, rootTree: Slots<Inode>, inodes: map<Inode, Bytes>, freshInode: Inode,
    kcImage: Slots<Bytes>, kcSig: Slots<Bytes>, recovery: Option<(Bytes, Bytes)>,
    bundles: map<BundleFile, Bytes>)
  {
    function Root(tree: bool): Slots<Inode> { if tree then rootTree else rootImage }

    function Inspect(v: Option<Inode>): Option<Bytes> {
      if v.Some? && v.value in inodes then Some(inodes[v.value]) else None
    }

    /** The contents a slot name leads to. */
    function Content(file: File, slot: Slot): Option<Bytes> {
      match file
      case RootImage => Inspect(rootImage.At(slot))
      case RootTree => Inspect(rootTree.At(slot))
      case KcImage => kcImage.At(slot)
      case KcSig => kcSig.At(slot)
    }

    /** Every rootfs name leads to an allocated inode. */
    ghost predicate Linked() {
      && (forall i :: i in inodes ==> i < freshInode)
      && (forall s: Slot :: rootImage.At(s).Some? ==> rootImage.At(s).value in inodes)
      && (forall s: Slot :: rootTree.At(s).Some? ==> rootTree.At(s).value in inodes)
    }
  }

  datatype Target = TargetActive | TargetNext | TargetRecovery

  datatype BootState = BootState(target: Target, trial: bool, attempts: int)

  const BOOT_ACTIVE := BootState(TargetActive, false, 0)

  /** The two WAL copies; a missing one stands for an unreadable one. */
  datatype WalFiles = WalFiles(primary: Option<Wal>, backup: Option<Wal>)

  function Load(files: WalFiles): Option<Wal> {
    if files.primary.Some? then files.primary else files.backup
  }

  /** The root hash and release label of a running or bootable image. */
  datatype Identity = Identity(hash: string, version: string)

  datatype Path = ByBootSuccess | ByStage

  /** What a WAL commit records. The log is a history of the run, not a file. */
  datatype Commit =
    | Staging(version: string)
    | Confirmation(id: Identity)
    | MissedBoot
    | Promotion(path: Path, version: string, hash: string, id: Identity)
    | RolledBackByHand

  datatype Sys = Sys(disk: Disk, wal: WalFiles, boot: Option<BootState>, counter: nat, log: seq<Commit>)

  datatype Write =
    | Replace(file: File, src: Slot, dst: Slot)   // link (rootfs) or copy (ESP) over dst
    | Install(file: File, bytes: Bytes)           // a download renamed over the next slot
    | Drop(file: File)                            // remove the next slot
    | StoreBundle(name: BundleFile, bytes: Bytes)
    | RemoveBundle(name: BundleFile)
    | SetBoot(state: BootState)
    | SaveBackup(wal: Wal)
    | SavePrimary(wal: Wal, commit: Commit)
    | Arm(to: nat)

  function Replaced(d: Disk, file: File, src: Slot, dst: Slot): Disk {
    match file
    case RootImage =>
      if d.rootImage.At(src).None? then d else d.(rootImage := d.rootImage.With(dst, d.rootImage.At(src)))
    case RootTree =>
      if d.rootTree.At(src).None? then d else d.(rootTree := d.rootTree.With(dst, d.rootTree.At(src)))
    case KcImage =>
      if d.kcImage.At(src).None? then d else d.(kcImage := d.kcImage.With(dst, d.kcImage.At(src)))
    case KcSig =>
      if d.kcSig.At(src).None? then d else d.(kcSig := d.kcSig.With(dst, d.kcSig.At(src)))
  }

  function Installed(d: Disk, file: File, bytes: Bytes): Disk {
    var n := d.freshInode;
    match file
    case RootImage =>
      d.(rootImage := d.rootImage.(next := Some(n)), inodes := d.inodes[n := bytes], freshInode := n + 1)
    case RootTree =>
      d.(rootTree := d.rootTree.(next := Some(n)), inodes := d.inodes[n := bytes], freshInode := n + 1)
    case KcImage => d.(kcImage := d.kcImage.(next := Some(bytes)))
    case KcSig => d.(kcSig := d.kcSig.(next := Some(bytes)))
  }

  function Dropped(d: Disk, file: File): Disk {
    match file
    case RootImage => d.(rootImage := d.rootImage.(next := None))
    case RootTree => d.(rootTree := d.rootTree.(next := None))
    case KcImage => d.(kcImage := d.kcImage.(next := None))
    case KcSig => d.(kcSig := d.kcSig.(next := None))
  }

  function Apply(s: Sys, w: Write): Sys {
    match w
    case Replace(f, src, dst) => s.(disk := Replaced(s.disk, f, src, dst))
    case Install(f, bytes) => s.(disk := Installed(s.disk, f, bytes))
    case Drop(f) => s.(disk := Dropped(s.disk, f))
    case StoreBundle(n, bytes) => s.(disk := s.disk.(bundles := s.disk.bundles[n := bytes]))
    case RemoveBundle(n) => s.(disk := s.disk.(bundles := s.disk.bundles - {n}))
    case SetBoot(b) => s.(boot := Some(b))
    case SaveBackup(wal) => s.(wal := s.wal.(backup := Some(wal)))
    case SavePrimary(wal, c) => s.(wal := s.wal.(primary := Some(wal)), log := s.log + [c])
    case Arm(to) => s.(counter := if s.counter < to then to else s.counter)
  }

  /** The state a plan leaves when it stops after `p` writes. */
  function Cut(s: Sys, plan: seq<Write>, p: nat): Sys { Plans.Cut(Apply, s, plan, p) }

  function Exec(s: Sys, plan: seq<Write>): Sys { Cut(s, plan, |plan|) }

  lemma CutAppend(s: Sys, a: seq<Write>, b: seq<Write>, p: nat)
    ensures p <= |a| ==> Cut(s, a + b, p) == Cut(s, a, p)
    ensures p >= |a| ==> Cut(s, a, p) == Exec(s, a)
    ensures p >= |a| ==> Cut(s, a + b, p) == Cut(Exec(s, a), b, p - |a|)
  {
    Plans.CutAppend(Apply, s, a, b, p);
  }

  lemma ExecAppend(s: Sys, a: seq<Write>, b: seq<Write>)
    ensures Exec(s, a + b) == Exec(Exec(s, a), b)
  {
    CutAppend(s, a, b, |a| + |b|);
  }

  lemma CutCons(s: Sys, w: Write, rest: seq<Write>, p: nat)
    ensures Cut(s, [w] + rest, p) == if p == 0 then s else Cut(Apply(s, w), rest, p - 1)
  {
    Plans.CutCons(Apply, s, w, rest, p);
  }

  lemma Associate(a: seq<Write>, b: seq<Write>, c: seq<Write>)
    ensures (a + b) + c == a + (b + c)
  {
  }

  /** A routine that makes the writes of `plan` in order, from `s0` with power for `p0`
      writes, and reports whether it got through. */
  ghost predicate Performed(s0: Sys, p0: nat, plan: seq<Write>, s1: Sys, p1: nat, ok: bool) {
    Plans.Performed(Apply, s0, p0, plan, s1, p1, ok)
  }

  function SavePlan(w: Wal, commit: Commit): seq<Write> { [SaveBackup(w), SavePrimary(w, commit)] }

  const CLEANUP := [Drop(KcImage), Drop(KcSig), Drop(RootImage), Drop(RootTree)]

  /** What the WAL asks the loader to boot (writeDeploymentBootState). */
  function BootStateOf(w: Wal): BootState {
    if w.NeedsRecovery() then BootState(TargetRecovery, false, 0)
    else if w.HasPending() then BootState(TargetNext, true, w.bootAttempts)
    else BOOT_ACTIVE
  }

  /** A device that will complete some number of writes. */
  type Machine = Plans.Store<Sys, Write>

  /** Deployment.Save: the backup first, then the primary. */
  method Save(m: Machine, w: Wal, commit: Commit) returns (ok: bool)
    requires m.apply == Apply
    modifies m
    ensures Performed(old(m.state), old(m.power), SavePlan(w, commit), m.state, m.power, ok)
  {
    ghost var s0, p0 := m.state, m.power;
    ok := m.Do(SaveBackup(w));
    assert SavePlan(w, commit) == [SaveBackup(w)] + [SavePrimary(w, commit)];
    if !ok { Plans.PerformedCut(Apply, s0, p0, [SaveBackup(w)], [SavePrimary(w, commit)], m.state, m.power); return; }
    ghost var s1, p1 := m.state, m.power;
    ok := m.Do(SavePrimary(w, commit));
    Plans.PerformedThen(Apply, s0, p0, [SaveBackup(w)], s1, p1, [SavePrimary(w, commit)], m.state, m.power, ok);
  }

  /** CleanupNextSlots. */
  method CleanupNextSlots(m: Machine) returns (ok: bool)
    requires m.apply == Apply
    modifies m
    ensures Performed(old(m.state), old(m.power), CLEANUP, m.state, m.power, ok)
  {
    ghost var s0, p0 := m.state, m.power;
    ok := true;
    var files := [KcImage, KcSig, RootImage, RootTree];
    for i := 0 to 4
      invariant ok && Performed(s0, p0, CLEANUP[..i], m.state, m.power, true)
    {
      ghost var s1, p1 := m.state, m.power;
      assert CLEANUP[..i] + ([Drop(files[i])] + CLEANUP[i + 1..]) == CLEANUP;
      ok := m.Do(Drop(files[i]));
      Plans.Onward(Apply, s0, p0, CLEANUP, CLEANUP[..i], s1, p1, [Drop(files[i])], CLEANUP[i + 1..], m.state, m.power,
        ok);
      if !ok { return; }
      assert CLEANUP[..i + 1] == CLEANUP[..i] + [Drop(files[i])];
    }
    assert CLEANUP[..4] == CLEANUP;
  }
}
