/** Which pairs of devices the root may come from, and what an unlocked device takes, written out
    in terms of the media (boot/root.go:244-460). */
module RootChoice {
  import opened Common
  import opened RootSelect

  // --- A locked device ---

  /** On a live medium any partition may hold the image or the tree, but for one without a name on an
      optical drive; a portable medium has two partitions of its own. */
  predicate LivePartition(cfg: Config, p: Partition) {
    (p.optical ==> p.name != "") && (cfg.portable ==> p.name == cfg.portableRoot || p.name == cfg.portableHash)
  }

  /** The image and the tree can come from here: on an installed device from the slot files, on a live
      medium from its partitions or from the optical disc. */
  predicate Offered(cfg: Config, m: Media, ops: Ops, parts: seq<Partition>, p: Pair) {
    if !cfg.live then p.data in m.slotDatas && p.hash in m.slotHashes
    else
      && ((exists x :: x in parts && LivePartition(cfg, x) && x.dev == p.data
             && !ops.isVerityHash(x.dev) && ops.rawErofs(x.dev))
          || (!cfg.portable && m.isoData != "" && p.data == m.isoData))
      && ((exists x :: x in parts && LivePartition(cfg, x) && x.dev == p.hash && ops.isVerityHash(x.dev))
          || (!cfg.portable && m.isoData != "" && p.hash == m.isoHash))
  }

  /** Where a device is from: a slot file, the optical disc, or some disk. */
  datatype Origin = Origin(slot: bool, optical: bool)

  predicate FromOneOrigin(m: Media, ops: Ops, p: Pair) {
    var data := Origin(p.data in m.slotDatas, m.isoData != "" && p.data == m.isoData);
    var hash := Origin(p.hash in m.slotHashes, m.isoHash != "" && p.hash == m.isoHash);
    data == hash && (data.slot || data.optical || ops.diskOf(p.data) == ops.diskOf(p.hash))
  }

  predicate Usable(cfg: Config, m: Media, ops: Ops, parts: seq<Partition>, p: Pair) {
    && Offered(cfg, m, ops, parts, p) && FromOneOrigin(m, ops, p)
    && ops.verifies(p.data, p.hash, cfg.rootHash) && ops.mappedErofs(p.data, p.hash)
  }

  lemma {:induction false} LiveDevsAre(parts: seq<Partition>, keep: Partition -> bool, d: Dev)
    ensures d in LiveDevs(parts, keep) <==> exists x :: x in parts && keep(x) && x.dev == d
    decreases |parts|
  {
    if parts != [] {
      var n := |parts| - 1;
      assert parts == parts[..n] + [parts[n]];
      LiveDevsAre(parts[..n], keep, d);
      if d in LiveDevs(parts[..n], keep) {
        var x :| x in parts[..n] && keep(x) && x.dev == d;
        assert x in parts;
      }
      if exists x :: x in parts && keep(x) && x.dev == d {
        var x :| x in parts && keep(x) && x.dev == d;
        assert x in parts[..n] || x == parts[n];
      }
    }
  }

  lemma OfferedExactly(cfg: Config, m: Media, ops: Ops, parts: seq<Partition>, p: Pair)
    ensures Crossed(Datas(cfg, m, ops, parts), Hashes(cfg, m, ops, parts), p) <==> Offered(cfg, m, ops, parts, p)
  {
    LiveDevsAre(parts, x => IsLiveData(cfg, ops, x), p.data);
    LiveDevsAre(parts, x => IsLiveHash(cfg, ops, x), p.hash);
  }

  /** The locked selection finds a root exactly when there is a usable pair. It is a usable one, and
      no usable one is better: by whose root its hash device names, and then by size. */
  method SelectBest(cfg: Config, m: Media, ops: Ops, parts: seq<Partition>, dm: Mapper) returns (r: Option<Root>)
    modifies dm
    ensures r.Some? <==> exists p :: Usable(cfg, m, ops, parts, p)
    ensures r.Some? ==>
      && r.value.mapped && r.value.source == ROOT_MAPPER && Usable(cfg, m, ops, parts, r.value.pair)
      && dm.open == (old(dm.open) - {ROOT_MAPPER})[ROOT_MAPPER := r.value.pair]
    ensures r.Some? ==> forall q :: Usable(cfg, m, ops, parts, q) ==> !Better(cfg, ops, q, r.value.pair)
    ensures r.None? ==> dm.open == old(dm.open) || dm.open == old(dm.open) - {ROOT_MAPPER}
  {
    r := SelectVerified(cfg, m, ops, parts, dm);
    forall p: Pair
      ensures Usable(cfg, m, ops, parts, p) <==>
        Crossed(Datas(cfg, m, ops, parts), Hashes(cfg, m, ops, parts), p) && Acceptable(cfg, m, ops, p)
    {
      OfferedExactly(cfg, m, ops, parts, p);
    }
    if r.Some? {
      InOrder(cfg, m, ops, Datas(cfg, m, ops, parts), Hashes(cfg, m, ops, parts), r.value.pair);
      forall q | Usable(cfg, m, ops, parts, q) ensures !Better(cfg, ops, q, r.value.pair) {
        FirstIsBest(cfg, m, ops, Datas(cfg, m, ops, parts), Hashes(cfg, m, ops, parts), r.value.pair, q);
        ScoreOrder(cfg, ops, q, r.value.pair);
      }
    }
  }

  lemma InOrder(cfg: Config, m: Media, ops: Ops, datas: seq<Dev>, hashes: seq<Dev>, p: Pair)
    requires FirstAcceptable(cfg, m, ops, Order(cfg, ops, datas, hashes), p)
    ensures Crossed(datas, hashes, p) && Acceptable(cfg, m, ops, p)
  {
    OrderIsExhaustive(cfg, ops, datas, hashes);
    var order := Order(cfg, ops, datas, hashes);
    var i :| 0 <= i < |order| && order[i].pair == p && Acceptable(cfg, m, ops, p)
      && forall j :: 0 <= j < i ==> !Acceptable(cfg, m, ops, order[j].pair);
    assert order[i] in order;
  }

  /** What the hash device of a pair says about the root: 2 for the signed one, 1 for none, 0 for
      another. */
  function Names(cfg: Config, ops: Ops, p: Pair): nat {
    var root := ops.hashRoot(p.hash).0;
    if root == "" then 1 else if ops.equalFold(root, cfg.rootHash) then 2 else 0
  }

  predicate Better(cfg: Config, ops: Ops, p: Pair, q: Pair) {
    || Names(cfg, ops, p) > Names(cfg, ops, q)
    || (Names(cfg, ops, p) == Names(cfg, ops, q) > 0
        && ops.hashRoot(p.hash).1 == ops.devBytes(p.data) > 0
        && !(ops.hashRoot(q.hash).1 == ops.devBytes(q.data) > 0))
  }

  // --- An unlocked device ---

  /** The first device in this order for which `good` holds. */
  predicate IsFirst(devs: seq<Dev>, good: Dev -> bool, d: Dev) {
    exists i :: 0 <= i < |devs| && devs[i] == d && good(d) && forall j :: 0 <= j < i ==> !good(devs[j])
  }

  lemma {:induction false} FirstThatIs(devs: seq<Dev>, good: Dev -> bool, d: Dev)
    ensures FirstThat(devs, good) == Some(d) <==> IsFirst(devs, good, d)
    ensures FirstThat(devs, good).None? <==> forall x :: x in devs ==> !good(x)
    decreases |devs|
  {
    if devs != [] {
      var rest := devs[1..];
      assert devs == [devs[0]] + rest;
      FirstThatIs(rest, good, d);
      if good(devs[0]) {
        if IsFirst(devs, good, d) {
          var i :| 0 <= i < |devs| && devs[i] == d && good(d) && forall j :: 0 <= j < i ==> !good(devs[j]);
          assert i == 0;
        }
      } else {
        if IsFirst(rest, good, d) {
          var i :| 0 <= i < |rest| && rest[i] == d && good(d) && forall j :: 0 <= j < i ==> !good(rest[j]);
          forall j | 0 <= j < i + 1 ensures !good(devs[j]) { if j > 0 { assert devs[j] == rest[j - 1]; } }
          assert devs[i + 1] == d;
        }
        if IsFirst(devs, good, d) {
          var i :| 0 <= i < |devs| && devs[i] == d && good(d) && forall j :: 0 <= j < i ==> !good(devs[j]);
          assert i > 0 && rest[i - 1] == d;
          forall j | 0 <= j < i - 1 ensures !good(rest[j]) { assert rest[j] == devs[j + 1]; }
        }
      }
    }
  }

  /** The signed root hash opens this slot file with some hash file. */
  predicate SlotProven(cfg: Config, m: Media, ops: Ops, d: Dev) {
    exists h :: h in m.slotHashes && ops.verifies(d, h, cfg.rootHash) && ops.mappedErofs(d, h)
  }

  /** An installed device that is unlocked takes the first slot file the signed hash opens, and if it
      opens none the first that holds a root at all. */
  lemma UnlockedInstalled(cfg: Config, m: Media, ops: Ops, parts: seq<Partition>, d: Dev)
    requires !cfg.live
    ensures Unlocked(cfg, m, ops, parts) == Some(d) <==>
      if exists x :: x in m.slotDatas && SlotProven(cfg, m, ops, x)
      then IsFirst(m.slotDatas, x => SlotProven(cfg, m, ops, x), d) else IsFirst(m.slotDatas, ops.rawErofs, d)
  {
    var proven, good := x => Proven(cfg, ops, m.slotHashes, x), x => SlotProven(cfg, m, ops, x);
    forall x: Dev ensures proven(x) <==> good(x) { SameProof(cfg, m, ops, x); }
    forall x: Dev { FirstThatIs(m.slotDatas, proven, x); }
    FirstThatIs(m.slotDatas, ops.rawErofs, d);
    assert IsFirst(m.slotDatas, proven, d) <==> IsFirst(m.slotDatas, good, d);
  }

  lemma SameProof(cfg: Config, m: Media, ops: Ops, x: Dev)
    ensures Proven(cfg, ops, m.slotHashes, x) <==> SlotProven(cfg, m, ops, x)
  {
    if Proven(cfg, ops, m.slotHashes, x) {
      var h :| h in m.slotHashes && Probes(cfg, ops, x, h);
      assert h in m.slotHashes && ops.verifies(x, h, cfg.rootHash) && ops.mappedErofs(x, h);
    }
    if SlotProven(cfg, m, ops, x) {
      var h :| h in m.slotHashes && ops.verifies(x, h, cfg.rootHash) && ops.mappedErofs(x, h);
      assert h in m.slotHashes && Probes(cfg, ops, x, h);
    }
  }

  lemma {:induction false} FirstOfBoth(a: seq<Dev>, b: seq<Dev>, good: Dev -> bool)
    ensures FirstThat(a + b, good) == if FirstThat(a, good).Some? then FirstThat(a, good) else FirstThat(b, good)
    decreases |a|
  {
    if a == [] {
      assert a + b == b;
    } else {
      assert (a + b)[1..] == a[1..] + b;
      FirstOfBoth(a[1..], b, good);
    }
  }

  /** The first partition of those to keep that holds a root. */
  predicate FirstPartition(cfg: Config, ops: Ops, parts: seq<Partition>, i: nat) {
    && i < |parts| && Fallback(cfg, ops, parts[i])
    && forall j :: 0 <= j < i ==> !Fallback(cfg, ops, parts[j])
  }

  predicate Fallback(cfg: Config, ops: Ops, x: Partition) {
    (cfg.portable ==> x.name == cfg.portableRoot) && ops.rawErofs(x.dev)
  }

  lemma {:induction false} FirstLive(cfg: Config, ops: Ops, parts: seq<Partition>, keep: Partition -> bool)
    returns (i: nat)
    requires forall x :: keep(x) <==> !cfg.portable || x.name == cfg.portableRoot
    ensures var r := FirstThat(LiveDevs(parts, keep), ops.rawErofs);
      if r.Some? then FirstPartition(cfg, ops, parts, i) && r == Some(parts[i].dev)
      else forall x :: x in parts ==> !Fallback(cfg, ops, x)
    decreases |parts|
  {
    i := 0;
    if parts != [] {
      var n := |parts| - 1;
      var x := parts[n];
      assert parts == parts[..n] + [x];
      i := FirstLive(cfg, ops, parts[..n], keep);
      var last := if keep(x) then [x.dev] else [];
      FirstOfBoth(LiveDevs(parts[..n], keep), last, ops.rawErofs);
      if FirstThat(LiveDevs(parts[..n], keep), ops.rawErofs).None? {
        i := n;
        forall j | 0 <= j < n ensures !Fallback(cfg, ops, parts[j]) { assert parts[j] in parts[..n]; }
      }
    }
  }

  /** A live medium that is unlocked takes the optical disc if that holds a root, and otherwise the
      first partition that does -- on a portable medium only its own. */
  lemma UnlockedLive(cfg: Config, m: Media, ops: Ops, parts: seq<Partition>) returns (i: nat)
    requires cfg.live
    ensures var r := Unlocked(cfg, m, ops, parts);
      if m.isoData != "" && ops.rawErofs(m.isoData) then r == Some(m.isoData)
      else if r.Some? then FirstPartition(cfg, ops, parts, i) && r == Some(parts[i].dev)
      else forall x :: x in parts ==> !Fallback(cfg, ops, x)
  {
    var keep := (p: Partition) => !cfg.portable || p.name == cfg.portableRoot;
    i := FirstLive(cfg, ops, parts, keep);
    FirstOfBoth(if m.isoData != "" then [m.isoData] else [], LiveDevs(parts, keep), ops.rawErofs);
  }
}
