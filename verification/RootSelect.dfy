/** boot/root.go: the initramfs picks the rootfs whose hash tree has the signed root hash. */
module RootSelect {
  import opened Common

  type Dev = string

  datatype Partition = Partition(dev: Dev, name: string, optical: bool)

  datatype Config = Config(rootHash: string, live: bool, portable: bool, portableRoot: string, portableHash: string)

  /** The boot media found so far; "" for no optical medium. */
  datatype Media = Media(slotDatas: seq<Dev>, slotHashes: seq<Dev>, isoData: Dev, isoHash: Dev)

  /** What the kernel answers: the root and the size a hash device names ("" if unreadable),
      device sizes, whether a pair verifies under a root hash, whether the mapped pair or a raw
      device holds an erofs, and which disk a device is on. */
  datatype Ops = Ops(
    hashRoot: Dev -> (string, nat), devBytes: Dev -> nat, equalFold: (string, string) -> bool,
    verifies: (Dev, Dev, string) -> bool, mappedErofs: (Dev, Dev) -> bool, rawErofs: Dev -> bool,
    isVerityHash: Dev -> bool, diskOf: Dev -> string)

  datatype Pair = Pair(data: Dev, hash: Dev)

  const ROOT_MAPPER := "vroot"
  const PROBE := "vroot-select"

  // --- Ranking ---

  datatype Ranked = Ranked(pair: Pair, score: int)

  function Score(cfg: Config, ops: Ops, p: Pair): int {
    var (root, want) := ops.hashRoot(p.hash);
    var score := if root == "" then 1 else if ops.equalFold(root, cfg.rootHash) then 3 else 0;
    if score > 0 && want > 0 && ops.devBytes(p.data) == want then score + 1 else score
  }

  /** The hash device names the signed root, names none, or names another one. */
  predicate NamesRoot(cfg: Config, ops: Ops, p: Pair) {
    ops.hashRoot(p.hash).0 != "" && ops.equalFold(ops.hashRoot(p.hash).0, cfg.rootHash)
  }

  predicate NamesNone(ops: Ops, p: Pair) { ops.hashRoot(p.hash).0 == "" }

  predicate NamesOther(cfg: Config, ops: Ops, p: Pair) { !NamesRoot(cfg, ops, p) && !NamesNone(ops, p) }

  predicate Fits(ops: Ops, p: Pair) { ops.hashRoot(p.hash).1 > 0 && ops.devBytes(p.data) == ops.hashRoot(p.hash).1 }

  /** What a higher score means: first whose root the hash device names -- the signed one, then
      none, then another -- and then, except for another's, whether the sizes fit. */
  lemma ScoreOrder(cfg: Config, ops: Ops, p: Pair, q: Pair)
    ensures Score(cfg, ops, p) > Score(cfg, ops, q) <==>
      || (NamesRoot(cfg, ops, p) && !NamesRoot(cfg, ops, q))
      || (NamesNone(ops, p) && NamesOther(cfg, ops, q))
      || (!NamesOther(cfg, ops, p) && (NamesRoot(cfg, ops, p) <==> NamesRoot(cfg, ops, q)) && !NamesOther(cfg, ops, q)
          && Fits(ops, p) && !Fits(ops, q))
  {
  }

  /** The pairs of one hash device, in the order of the data devices. */
  function PairsOf(cfg: Config, ops: Ops, datas: seq<Dev>, h: Dev): (r: seq<Ranked>)
    ensures |r| == |datas|
    ensures forall i :: 0 <= i < |r| ==> r[i] == Ranked(Pair(datas[i], h), Score(cfg, ops, Pair(datas[i], h)))
  {
    if datas == [] then []
    else
      var n := |datas| - 1;
      PairsOf(cfg, ops, datas[..n], h) + [Ranked(Pair(datas[n], h), Score(cfg, ops, Pair(datas[n], h)))]
  }

  function AllPairs(cfg: Config, ops: Ops, datas: seq<Dev>, hashes: seq<Dev>): seq<Ranked> {
    if hashes == [] then []
    else AllPairs(cfg, ops, datas, hashes[..|hashes| - 1]) + PairsOf(cfg, ops, datas, hashes[|hashes| - 1])
  }

  /** Scores never rise. */
  predicate Descending(s: seq<Ranked>) { forall i, j :: 0 <= i < j < |s| ==> s[i].score >= s[j].score }

  /** The entries of one score, in order. */
  function OfScore(s: seq<Ranked>, score: int): seq<Ranked> {
    if s == [] then []
    else (if s[0].score == score then [s[0]] else []) + OfScore(s[1..], score)
  }

  /** What a stable sort by descending score promises. */
  ghost predicate StablySorted(s: seq<Ranked>, r: seq<Ranked>) {
    Descending(r) && forall v :: OfScore(r, v) == OfScore(s, v)
  }

  function Insert(x: Ranked, s: seq<Ranked>): seq<Ranked> {
    if s == [] || x.score >= s[0].score then [x] + s else [s[0]] + Insert(x, s[1..])
  }

  /** sort.SliceStable by descending score. */
  function Sort(s: seq<Ranked>): seq<Ranked> { if s == [] then [] else Insert(s[0], Sort(s[1..])) }

  lemma {:induction false} InsertKeeps(x: Ranked, s: seq<Ranked>)
    ensures multiset(Insert(x, s)) == multiset(s) + multiset{x}
    ensures forall y :: y in Insert(x, s) <==> y in s || y == x
    decreases |s|
  {
    if s != [] && x.score < s[0].score {
      InsertKeeps(x, s[1..]);
      assert s == [s[0]] + s[1..];
    }
  }

  lemma {:induction false} InsertDescends(x: Ranked, s: seq<Ranked>)
    requires Descending(s)
    ensures Descending(Insert(x, s))
    decreases |s|
  {
    if s != [] && x.score < s[0].score {
      var t := Insert(x, s[1..]);
      InsertDescends(x, s[1..]);
      InsertKeeps(x, s[1..]);
      forall j | 0 <= j < |t| ensures s[0].score >= t[j].score {
        assert t[j] in t;
      }
    }
  }

  lemma {:induction false} InsertStable(x: Ranked, s: seq<Ranked>, v: int)
    requires Descending(s)
    ensures OfScore(Insert(x, s), v) == (if x.score == v then [x] else []) + OfScore(s, v)
    decreases |s|
  {
    if s == [] || x.score >= s[0].score {
      assert ([x] + s)[1..] == s;
    } else {
      InsertStable(x, s[1..], v);
      assert ([s[0]] + Insert(x, s[1..]))[1..] == Insert(x, s[1..]);
      var here, there := if x.score == v then [x] else [], if s[0].score == v then [s[0]] else [];
      assert here == [] || there == [];
      assert OfScore(Insert(x, s), v) == there + (here + OfScore(s[1..], v));
      assert there + (here + OfScore(s[1..], v)) == here + (there + OfScore(s[1..], v));
    }
  }

  lemma {:induction false} SortSorts(s: seq<Ranked>)
    ensures StablySorted(s, Sort(s)) && multiset(Sort(s)) == multiset(s)
    decreases |s|
  {
    if s != [] {
      var rest := Sort(s[1..]);
      SortSorts(s[1..]);
      InsertKeeps(s[0], rest);
      InsertDescends(s[0], rest);
      assert s == [s[0]] + s[1..];
      forall v ensures OfScore(Sort(s), v) == OfScore(s, v) {
        InsertStable(s[0], rest, v);
        assert OfScore(rest, v) == OfScore(s[1..], v);
      }
    }
  }

  lemma {:induction false} OfScoreIn(s: seq<Ranked>, x: Ranked)
    ensures x in s <==> x in OfScore(s, x.score)
    decreases |s|
  {
    if s != [] { OfScoreIn(s[1..], x); }
  }

  lemma FirstOfScore(a: seq<Ranked>, b: seq<Ranked>)
    requires a != [] && Descending(a) && Descending(b) && forall v :: OfScore(a, v) == OfScore(b, v)
    ensures b != [] && b[0].score >= a[0].score
  {
    assert OfScore(a, a[0].score) == OfScore(b, a[0].score);
    OfScoreIn(a, a[0]);
    OfScoreIn(b, a[0]);
  }

  /** And the promise leaves no choice: there is only one stable sort. */
  lemma {:induction false} SortUnique(a: seq<Ranked>, b: seq<Ranked>)
    requires Descending(a) && Descending(b) && forall v :: OfScore(a, v) == OfScore(b, v)
    ensures a == b
    decreases |a|
  {
    if b != [] { FirstOfScore(b, a); }
    if a != [] {
      FirstOfScore(a, b);
      assert OfScore(a, a[0].score) == OfScore(b, a[0].score);
      assert OfScore(a, a[0].score)[0] == a[0] && OfScore(b, a[0].score)[0] == b[0];
      forall v ensures OfScore(a[1..], v) == OfScore(b[1..], v) {
        assert OfScore(a, v) == OfScore(b, v);
        assert OfScore(a[1..], v) == (if a[0].score == v then OfScore(a, v)[1..] else OfScore(a, v));
        assert OfScore(b[1..], v) == (if b[0].score == v then OfScore(b, v)[1..] else OfScore(b, v));
      }
      SortUnique(a[1..], b[1..]);
      assert a == [a[0]] + a[1..] && b == [b[0]] + b[1..];
    }
  }

  function Order(cfg: Config, ops: Ops, datas: seq<Dev>, hashes: seq<Dev>): seq<Ranked> {
    Sort(AllPairs(cfg, ops, datas, hashes))
  }

  /** The inner loop, for one hash device. */
  method AddPairs(cfg: Config, ops: Ops, datas: seq<Dev>, h: Dev, before: seq<Ranked>) returns (all: seq<Ranked>)
    ensures all == before + PairsOf(cfg, ops, datas, h)
  {
    all := before;
    var (root, want) := ops.hashRoot(h);
    for j := 0 to |datas|
      invariant all == before + PairsOf(cfg, ops, datas[..j], h)
    {
      assert datas[..j + 1][..j] == datas[..j];
      var score := 1;
      if root != "" { score := if ops.equalFold(root, cfg.rootHash) then 3 else 0; }
      if score > 0 && want > 0 && ops.devBytes(datas[j]) == want { score := score + 1; }
      all := all + [Ranked(Pair(datas[j], h), score)];
    }
    assert datas[..|datas|] == datas;
  }

  method CrossPairs(cfg: Config, ops: Ops, datas: seq<Dev>, hashes: seq<Dev>) returns (all: seq<Ranked>)
    ensures all == AllPairs(cfg, ops, datas, hashes)
  {
    all := [];
    for i := 0 to |hashes|
      invariant all == AllPairs(cfg, ops, datas, hashes[..i])
    {
      assert hashes[..i + 1][..i] == hashes[..i];
      all := AddPairs(cfg, ops, datas, hashes[i], all);
    }
    assert hashes[..|hashes|] == hashes;
  }

  /** rankPairs, up to the library's sort. */
  method RankPairs(cfg: Config, ops: Ops, datas: seq<Dev>, hashes: seq<Dev>) returns (out: seq<Pair>)
    ensures |out| == |Order(cfg, ops, datas, hashes)|
    ensures forall i :: 0 <= i < |out| ==> out[i] == Order(cfg, ops, datas, hashes)[i].pair
  {
    var all := CrossPairs(cfg, ops, datas, hashes);
    all := Sort(all);
    out := [];
    for i := 0 to |all|
      invariant |out| == i && forall k :: 0 <= k < i ==> out[k] == all[k].pair
    {
      out := out + [all[i].pair];
    }
  }

  // --- Selection ---

  predicate SameOrigin(m: Media, ops: Ops, p: Pair) {
    var isoData, isoHash := m.isoData != "" && p.data == m.isoData, m.isoHash != "" && p.hash == m.isoHash;
    && (p.data in m.slotDatas) == (p.hash in m.slotHashes)
    && isoData == isoHash
    && (p.data !in m.slotDatas && !isoData ==> ops.diskOf(p.data) == ops.diskOf(p.hash))
  }

  /** The pair maps under the signed root hash and reads as a root filesystem. */
  predicate Acceptable(cfg: Config, m: Media, ops: Ops, p: Pair) {
    SameOrigin(m, ops, p) && ops.verifies(p.data, p.hash, cfg.rootHash) && ops.mappedErofs(p.data, p.hash)
  }

  /** The device-mapper names in use. A name can be given once. */
  class Mapper {
    var open: map<string, Pair>

    constructor (open: map<string, Pair>)
      ensures this.open == open
    {
      this.open := open;
    }

    method OpenVerity(name: string, p: Pair, rootHash: string, ops: Ops) returns (ok: bool)
      modifies this
      ensures ok == (name !in old(open) && ops.verifies(p.data, p.hash, rootHash))
      ensures open == if ok then old(open)[name := p] else old(open)
    {
      if name in open || !ops.verifies(p.data, p.hash, rootHash) { return false; }
      open := open[name := p];
      return true;
    }

    method CloseVerity(name: string)
      modifies this
      ensures open == old(open) - {name}
    {
      open := open - {name};
    }
  }

  datatype Root = Root(source: Dev, mapped: bool, pair: Pair)

  predicate FirstAcceptable(cfg: Config, m: Media, ops: Ops, order: seq<Ranked>, p: Pair) {
    exists i :: 0 <= i < |order| && order[i].pair == p && Acceptable(cfg, m, ops, p)
      && forall j :: 0 <= j < i ==> !Acceptable(cfg, m, ops, order[j].pair)
  }

  /** The loop of selectVerified over the ranked pairs. */
  method TryInOrder(cfg: Config, m: Media, ops: Ops, dm: Mapper, pairs: seq<Pair>, ghost order: seq<Ranked>)
    returns (r: Option<Pair>)
    requires |pairs| == |order| && forall i :: 0 <= i < |pairs| ==> pairs[i] == order[i].pair
    modifies dm
    ensures r.Some? ==> FirstAcceptable(cfg, m, ops, order, r.value)
    ensures r.None? ==> forall i :: 0 <= i < |order| ==> !Acceptable(cfg, m, ops, order[i].pair)
    ensures r.Some? ==> dm.open == (old(dm.open) - {ROOT_MAPPER})[ROOT_MAPPER := r.value]
    ensures r.None? ==>
      dm.open == if exists i :: 0 <= i < |order| && SameOrigin(m, ops, order[i].pair)
                 then old(dm.open) - {ROOT_MAPPER} else old(dm.open)
  {
    for i := 0 to |pairs|
      invariant forall j :: 0 <= j < i ==> !Acceptable(cfg, m, ops, order[j].pair)
      invariant dm.open == if exists j :: 0 <= j < i && SameOrigin(m, ops, order[j].pair)
                           then old(dm.open) - {ROOT_MAPPER} else old(dm.open)
    {
      var p := pairs[i];
      if !SameOrigin(m, ops, p) { continue; }
      dm.CloseVerity(ROOT_MAPPER);
      var ok := dm.OpenVerity(ROOT_MAPPER, p, cfg.rootHash, ops);
      if !ok { continue; }
      if ops.mappedErofs(p.data, p.hash) { return Some(p); }
      dm.CloseVerity(ROOT_MAPPER);
    }
    return None;
  }

  predicate IsLiveHash(cfg: Config, ops: Ops, p: Partition) {
    Considered(cfg, p) && ops.isVerityHash(p.dev)
  }

  predicate IsLiveData(cfg: Config, ops: Ops, p: Partition) {
    Considered(cfg, p) && !ops.isVerityHash(p.dev) && ops.rawErofs(p.dev)
  }

  predicate Considered(cfg: Config, p: Partition) {
    !(p.optical && p.name == "") && (!cfg.portable || p.name == cfg.portableRoot || p.name == cfg.portableHash)
  }

  function LiveDevs(parts: seq<Partition>, keep: Partition -> bool): seq<Dev> {
    if parts == [] then []
    else LiveDevs(parts[..|parts| - 1], keep) + (if keep(parts[|parts| - 1]) then [parts[|parts| - 1].dev] else [])
  }

  function Datas(cfg: Config, m: Media, ops: Ops, parts: seq<Partition>): seq<Dev> {
    if !cfg.live then m.slotDatas
    else LiveDevs(parts, p => IsLiveData(cfg, ops, p)) + (if !cfg.portable && m.isoData != "" then [m.isoData] else [])
  }

  function Hashes(cfg: Config, m: Media, ops: Ops, parts: seq<Partition>): seq<Dev> {
    if !cfg.live then m.slotHashes
    else LiveDevs(parts, p => IsLiveHash(cfg, ops, p)) + (if !cfg.portable && m.isoData != "" then [m.isoHash] else [])
  }

  method Collect(cfg: Config, m: Media, ops: Ops, parts: seq<Partition>) returns (datas: seq<Dev>, hashes: seq<Dev>)
    ensures datas == Datas(cfg, m, ops, parts) && hashes == Hashes(cfg, m, ops, parts)
  {
    if !cfg.live { return m.slotDatas, m.slotHashes; }
    datas, hashes := [], [];
    ghost var isData, isHash := (p: Partition) => IsLiveData(cfg, ops, p), (p: Partition) => IsLiveHash(cfg, ops, p);
    for i := 0 to |parts|
      invariant datas == LiveDevs(parts[..i], isData) && hashes == LiveDevs(parts[..i], isHash)
    {
      var p := parts[i];
      assert parts[..i + 1][..i] == parts[..i];
      if p.optical && p.name == "" { continue; }
      if cfg.portable && p.name != cfg.portableRoot && p.name != cfg.portableHash { continue; }
      if ops.isVerityHash(p.dev) {
        hashes := hashes + [p.dev];
      } else if ops.rawErofs(p.dev) {
        datas := datas + [p.dev];
      }
    }
    assert parts[..|parts|] == parts;
    if !cfg.portable && m.isoData != "" {
      datas := datas + [m.isoData];
      hashes := hashes + [m.isoHash];
    }
  }

  predicate Crossed(datas: seq<Dev>, hashes: seq<Dev>, p: Pair) { p.data in datas && p.hash in hashes }

  lemma {:induction false} OnlyCrossed(cfg: Config, ops: Ops, datas: seq<Dev>, hashes: seq<Dev>, x: Ranked)
    requires x in AllPairs(cfg, ops, datas, hashes)
    ensures Crossed(datas, hashes, x.pair) && x.score == Score(cfg, ops, x.pair)
    decreases |hashes|
  {
    var n := |hashes| - 1;
    if x in AllPairs(cfg, ops, datas, hashes[..n]) { OnlyCrossed(cfg, ops, datas, hashes[..n], x); }
  }

  lemma {:induction false} AllCrossed(cfg: Config, ops: Ops, datas: seq<Dev>, hashes: seq<Dev>, p: Pair)
    requires Crossed(datas, hashes, p)
    ensures Ranked(p, Score(cfg, ops, p)) in AllPairs(cfg, ops, datas, hashes)
    decreases |hashes|
  {
    var n := |hashes| - 1;
    if p.hash in hashes[..n] {
      AllCrossed(cfg, ops, datas, hashes[..n], p);
    } else {
      var i :| 0 <= i < |datas| && datas[i] == p.data;
      var last := PairsOf(cfg, ops, datas, hashes[n]);
      assert last[i] == Ranked(p, Score(cfg, ops, p)) && last[i] in last;
    }
  }

  /** The order ranks every pair and no others. */
  lemma OrderIsExhaustive(cfg: Config, ops: Ops, datas: seq<Dev>, hashes: seq<Dev>)
    ensures var order := Order(cfg, ops, datas, hashes);
      && StablySorted(AllPairs(cfg, ops, datas, hashes), order)
      && multiset(order) == multiset(AllPairs(cfg, ops, datas, hashes))
      && (forall x :: x in order ==> Crossed(datas, hashes, x.pair) && x.score == Score(cfg, ops, x.pair))
      && (forall p :: Crossed(datas, hashes, p) ==> Ranked(p, Score(cfg, ops, p)) in order)
  {
    var all, order := AllPairs(cfg, ops, datas, hashes), Order(cfg, ops, datas, hashes);
    SortSorts(all);
    forall x ensures x in order <==> x in all { assert x in order <==> x in multiset(order); }
    forall x | x in order ensures Crossed(datas, hashes, x.pair) && x.score == Score(cfg, ops, x.pair) {
      OnlyCrossed(cfg, ops, datas, hashes, x);
    }
    forall p | Crossed(datas, hashes, p) ensures Ranked(p, Score(cfg, ops, p)) in order {
      AllCrossed(cfg, ops, datas, hashes, p);
    }
  }

  /** selectVerified: a root is found exactly when some pair of data and hash device is
      acceptable; it is the first acceptable one in rank order, so none that is acceptable
      scores higher; and a mapping stays open on success only. */
  method SelectVerified(cfg: Config, m: Media, ops: Ops, parts: seq<Partition>, dm: Mapper) returns (r: Option<Root>)
    modifies dm
    ensures var datas, hashes := Datas(cfg, m, ops, parts), Hashes(cfg, m, ops, parts);
      && (r.Some? <==> exists p :: Crossed(datas, hashes, p) && Acceptable(cfg, m, ops, p))
      && (r.Some? ==>
            && r.value.mapped && r.value.source == ROOT_MAPPER
            && FirstAcceptable(cfg, m, ops, Order(cfg, ops, datas, hashes), r.value.pair)
            && dm.open == (old(dm.open) - {ROOT_MAPPER})[ROOT_MAPPER := r.value.pair])
      && (r.None? ==>
            dm.open == if exists p :: Crossed(datas, hashes, p) && SameOrigin(m, ops, p)
                       then old(dm.open) - {ROOT_MAPPER} else old(dm.open))
  {
    var datas, hashes := Collect(cfg, m, ops, parts);
    var pairs := RankPairs(cfg, ops, datas, hashes);
    ghost var order := Order(cfg, ops, datas, hashes);
    OrderIsExhaustive(cfg, ops, datas, hashes);
    var p := TryInOrder(cfg, m, ops, dm, pairs, order);
    forall q | Crossed(datas, hashes, q) ensures exists i :: 0 <= i < |order| && order[i].pair == q {
      var x := Ranked(q, Score(cfg, ops, q));
      assert x in order;
      var i :| 0 <= i < |order| && order[i] == x;
    }
    forall i | 0 <= i < |order| ensures Crossed(datas, hashes, order[i].pair) { assert order[i] in order; }
    return if p.Some? then Some(Root(ROOT_MAPPER, true, p.value)) else None;
  }

  lemma Listed(cfg: Config, ops: Ops, datas: seq<Dev>, hashes: seq<Dev>, q: Pair) returns (k: nat)
    requires Crossed(datas, hashes, q)
    ensures var order := Order(cfg, ops, datas, hashes); k < |order| && order[k] == Ranked(q, Score(cfg, ops, q))
  {
    OrderIsExhaustive(cfg, ops, datas, hashes);
    var order, x := Order(cfg, ops, datas, hashes), Ranked(q, Score(cfg, ops, q));
    assert x in order;
    k :| 0 <= k < |order| && order[k] == x;
  }

  lemma RankedByScore(cfg: Config, ops: Ops, datas: seq<Dev>, hashes: seq<Dev>)
    ensures var order := Order(cfg, ops, datas, hashes);
      Descending(order) && forall i :: 0 <= i < |order| ==> order[i].score == Score(cfg, ops, order[i].pair)
  {
    OrderIsExhaustive(cfg, ops, datas, hashes);
    var order := Order(cfg, ops, datas, hashes);
    forall i | 0 <= i < |order| ensures order[i].score == Score(cfg, ops, order[i].pair) { assert order[i] in order; }
  }

  /** The root found has the best score of all acceptable pairs. */
  lemma FirstIsBest(cfg: Config, m: Media, ops: Ops, datas: seq<Dev>, hashes: seq<Dev>, p: Pair, q: Pair)
    requires FirstAcceptable(cfg, m, ops, Order(cfg, ops, datas, hashes), p)
    requires Crossed(datas, hashes, q) && Acceptable(cfg, m, ops, q)
    ensures Score(cfg, ops, p) >= Score(cfg, ops, q)
  {
    var order := Order(cfg, ops, datas, hashes);
    RankedByScore(cfg, ops, datas, hashes);
    var k := Listed(cfg, ops, datas, hashes, q);
    var i :| 0 <= i < |order| && order[i].pair == p
      && forall j :: 0 <= j < i ==> !Acceptable(cfg, m, ops, order[j].pair);
  }

  // --- An unlocked device ---

  predicate Probes(cfg: Config, ops: Ops, d: Dev, h: Dev) {
    ops.verifies(d, h, cfg.rootHash) && ops.mappedErofs(d, h)
  }

  /** Some hash device proves this slot. */
  predicate Proven(cfg: Config, ops: Ops, hashes: seq<Dev>, d: Dev) {
    exists h :: h in hashes && Probes(cfg, ops, d, h)
  }

  method ProbeSlot(cfg: Config, ops: Ops, dm: Mapper, d: Dev, hashes: seq<Dev>) returns (ok: bool)
    modifies dm
    ensures ok == Proven(cfg, ops, hashes, d)
    ensures dm.open == if hashes == [] then old(dm.open) else old(dm.open) - {PROBE}
  {
    for i := 0 to |hashes|
      invariant forall j :: 0 <= j < i ==> !Probes(cfg, ops, d, hashes[j])
      invariant dm.open == if i == 0 then old(dm.open) else old(dm.open) - {PROBE}
    {
      var h := hashes[i];
      dm.CloseVerity(PROBE);
      var mapped := dm.OpenVerity(PROBE, Pair(d, h), cfg.rootHash, ops);
      if !mapped { continue; }
      var isRoot := ops.mappedErofs(d, h);
      dm.CloseVerity(PROBE);
      if isRoot {
        assert h in hashes && Probes(cfg, ops, d, h);
        return true;
      }
    }
    return false;
  }

  function FirstThat(devs: seq<Dev>, good: Dev -> bool): Option<Dev> {
    if devs == [] then None else if good(devs[0]) then Some(devs[0]) else FirstThat(devs[1..], good)
  }

  /** The raw roots an unlocked device falls back on. */
  function Candidates(cfg: Config, m: Media, parts: seq<Partition>): seq<Dev> {
    if !cfg.live then m.slotDatas
    else (if m.isoData != "" then [m.isoData] else [])
         + LiveDevs(parts, (p: Partition) => !cfg.portable || p.name == cfg.portableRoot)
  }

  function Unlocked(cfg: Config, m: Media, ops: Ops, parts: seq<Partition>): Option<Dev> {
    var proven := if !cfg.live && m.slotHashes != []
                  then FirstThat(m.slotDatas, d => Proven(cfg, ops, m.slotHashes, d)) else None;
    if proven.Some? then proven else FirstThat(Candidates(cfg, m, parts), ops.rawErofs)
  }

  method FirstProven(cfg: Config, ops: Ops, dm: Mapper, datas: seq<Dev>, hashes: seq<Dev>) returns (r: Option<Dev>)
    requires hashes != [] && PROBE !in dm.open
    modifies dm
    ensures r == FirstThat(datas, d => Proven(cfg, ops, hashes, d))
    ensures dm.open == old(dm.open)
  {
    ghost var good := (d: Dev) => Proven(cfg, ops, hashes, d);
    for i := 0 to |datas|
      invariant FirstThat(datas, good) == FirstThat(datas[i..], good)
      invariant dm.open == old(dm.open)
    {
      var ok := ProbeSlot(cfg, ops, dm, datas[i], hashes);
      assert dm.open == old(dm.open);
      if ok { return Some(datas[i]); }
    }
    return None;
  }

  method ListCandidates(cfg: Config, m: Media, parts: seq<Partition>) returns (candidates: seq<Dev>)
    ensures candidates == Candidates(cfg, m, parts)
  {
    candidates := [];
    if cfg.live {
      ghost var keep := (p: Partition) => !cfg.portable || p.name == cfg.portableRoot;
      if m.isoData != "" { candidates := [m.isoData]; }
      ghost var first := candidates;
      for i := 0 to |parts|
        invariant candidates == first + LiveDevs(parts[..i], keep)
      {
        assert parts[..i + 1][..i] == parts[..i];
        if !cfg.portable || parts[i].name == cfg.portableRoot { candidates := candidates + [parts[i].dev]; }
      }
      assert parts[..|parts|] == parts;
    } else {
      candidates := m.slotDatas;
    }
  }

  /** selectUnlocked: the slot the signed hash proves, else the first raw root; it never leaves
      the probe mapping behind. */
  method SelectUnlocked(cfg: Config, m: Media, ops: Ops, parts: seq<Partition>, dm: Mapper) returns (r: Option<Root>)
    requires PROBE !in dm.open
    modifies dm
    ensures dm.open == old(dm.open)
    ensures r.Some? == Unlocked(cfg, m, ops, parts).Some?
    ensures r.Some? ==> !r.value.mapped && r.value.source == Unlocked(cfg, m, ops, parts).value
  {
    if !cfg.live && |m.slotHashes| > 0 {
      var d := FirstProven(cfg, ops, dm, m.slotDatas, m.slotHashes);
      if d.Some? { return Some(Root(d.value, false, Pair(d.value, ""))); }
    }
    var candidates := ListCandidates(cfg, m, parts);
    for i := 0 to |candidates|
      invariant FirstThat(candidates, ops.rawErofs) == FirstThat(candidates[i..], ops.rawErofs)
    {
      if ops.rawErofs(candidates[i]) { return Some(Root(candidates[i], false, Pair(candidates[i], ""))); }
    }
    return None;
  }

  /** On a device with slots, when the locked selection finds a root the unlocked one takes the
      first slot that some hash device proves -- the same one, if only one slot is proven. */
  lemma UnlockedFollowsHash(cfg: Config, m: Media, ops: Ops, parts: seq<Partition>, p: Pair)
    requires !cfg.live && Crossed(m.slotDatas, m.slotHashes, p) && Acceptable(cfg, m, ops, p)
    ensures var d := Unlocked(cfg, m, ops, parts);
      && d.Some? && d.value in m.slotDatas && Proven(cfg, ops, m.slotHashes, d.value)
      && ((forall x :: x in m.slotDatas && Proven(cfg, ops, m.slotHashes, x) ==> x == p.data) ==> d.value == p.data)
  {
    assert Probes(cfg, ops, p.data, p.hash) && Proven(cfg, ops, m.slotHashes, p.data);
    FirstExists(m.slotDatas, d => Proven(cfg, ops, m.slotHashes, d), p.data);
  }

  lemma {:induction false} FirstExists(devs: seq<Dev>, good: Dev -> bool, d: Dev)
    requires d in devs && good(d)
    ensures var r := FirstThat(devs, good); r.Some? && r.value in devs && good(r.value)
    decreases |devs|
  {
    if !good(devs[0]) { FirstExists(devs[1..], good, d); }
  }
}
