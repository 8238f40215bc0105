/** The helpers that replace a file -- writeFileSync (wal.go), copyFileSync and linkFileSync
    (slots.go), FetchTo (fetch.go) -- over names, inodes and temporary files, cut after any
    system call. They are why the rest of the model may take one replacement as one write. */
module Durable {
  import opened Common
  import opened Plans

  type Name = string
  type Inode = nat

  datatype Fs = Fs(names: map<Name, Inode>, data: map<Inode, Bytes>, unused: Inode) {
    function Content(n: Name): Option<Bytes> {
      if n in names && names[n] in data then Some(data[names[n]]) else None
    }

    ghost predicate Valid() {
      (forall n :: n in names ==> names[n] in data) && (forall i :: i in data ==> i < unused)
    }

    /** No other name leads to this file's inode. */
    ghost predicate Private(n: Name) {
      forall m :: n in names && m in names && names[m] == names[n] ==> m == n
    }
  }

  datatype Op =
    | Create(name: Name)                  // a name that must not exist yet
    | Truncate(name: Name)                // an existing file is emptied in place
    | Append(name: Name, bytes: Bytes)
    | Rename(src: Name, dst: Name)
    | Link(src: Name, dst: Name)
    | Unlink(name: Name)

  function Created(fs: Fs, n: Name): Fs {
    Fs(fs.names[n := fs.unused], fs.data[fs.unused := ""], fs.unused + 1)
  }

  function Apply(fs: Fs, op: Op): Fs {
    match op
    case Create(n) => if n in fs.names then fs else Created(fs, n)
    case Truncate(n) => if n in fs.names then fs.(data := fs.data[fs.names[n] := ""]) else Created(fs, n)
    case Append(n, bytes) =>
      if n in fs.names && fs.names[n] in fs.data
      then fs.(data := fs.data[fs.names[n] := fs.data[fs.names[n]] + bytes]) else fs
    case Rename(a, b) =>
      // of two links to one file nothing happens
      if a !in fs.names || (b in fs.names && fs.names[b] == fs.names[a]) then fs
      else fs.(names := (fs.names - {a})[b := fs.names[a]])
    case Link(a, b) => if a in fs.names && b !in fs.names then fs.(names := fs.names[b := fs.names[a]]) else fs
    case Unlink(n) => fs.(names := fs.names - {n})
  }

  function Joined(chunks: seq<Bytes>): Bytes {
    if chunks == [] then "" else Joined(chunks[..|chunks| - 1]) + chunks[|chunks| - 1]
  }

  function Appends(tmp: Name, chunks: seq<Bytes>): seq<Op> {
    if chunks == [] then [] else Appends(tmp, chunks[..|chunks| - 1]) + [Append(tmp, chunks[|chunks| - 1])]
  }

  /** Contents go to a temporary file first; the rename puts them in place. */
  function ReplacePlan(open: Op, tmp: Name, chunks: seq<Bytes>, dst: Name): seq<Op> {
    [open] + Appends(tmp, chunks) + [Rename(tmp, dst)]
  }

  function LinkPlan(src: Name, tmp: Name, dst: Name): seq<Op> {
    [Create(tmp), Unlink(tmp), Link(src, tmp), Rename(tmp, dst), Unlink(tmp)]
  }

  // --- The helpers ---

  /** The common part of the copying helpers; the source arrives in chunks. */
  method ReplaceFile(m: Store<Fs, Op>, open: Op, tmp: Name, chunks: seq<Bytes>, dst: Name) returns (ok: bool)
    requires m.apply == Apply
    modifies m
    ensures Performed(Apply, old(m.state), old(m.power), ReplacePlan(open, tmp, chunks, dst), m.state, m.power, ok)
  {
    ghost var s0, p0, appends, last := m.state, m.power, Appends(tmp, chunks), [Rename(tmp, dst)];
    assert ReplacePlan(open, tmp, chunks, dst) == [open] + (appends + last);
    ok := m.Do(open);
    if !ok { PerformedCut(Apply, s0, p0, [open], appends + last, m.state, m.power); return; }
    ghost var s1, p1 := m.state, m.power;
    ok := CopyChunks(m, tmp, chunks);
    Extend(Apply, s0, p0, [open], s1, p1, appends, last, m.state, m.power, ok);
    if !ok { return; }
    ghost var s2, p2 := m.state, m.power;
    ok := m.Do(Rename(tmp, dst));
    PerformedThen(Apply, s0, p0, [open] + appends, s2, p2, last, m.state, m.power, ok);
  }

  method CopyChunks(m: Store<Fs, Op>, tmp: Name, chunks: seq<Bytes>) returns (ok: bool)
    requires m.apply == Apply
    modifies m
    ensures Performed(Apply, old(m.state), old(m.power), Appends(tmp, chunks), m.state, m.power, ok)
  {
    ghost var s0, p0 := m.state, m.power;
    ok := true;
    for i := 0 to |chunks|
      invariant ok && Performed(Apply, s0, p0, Appends(tmp, chunks[..i]), m.state, m.power, true)
    {
      ghost var s1, p1, done, step := m.state, m.power, Appends(tmp, chunks[..i]), [Append(tmp, chunks[i])];
      assert chunks[..i + 1][..i] == chunks[..i];
      AppendsSplit(tmp, chunks, i + 1);
      ok := m.Do(Append(tmp, chunks[i]));
      Extend(Apply, s0, p0, done, s1, p1, step, Appends(tmp, chunks)[i + 1..], m.state, m.power, ok);
      if !ok { return; }
    }
    assert chunks[..|chunks|] == chunks;
  }

  lemma {:induction false} AppendsSplit(tmp: Name, chunks: seq<Bytes>, i: nat)
    requires i <= |chunks|
    ensures |Appends(tmp, chunks)| == |chunks|
    ensures Appends(tmp, chunks) == Appends(tmp, chunks[..i]) + Appends(tmp, chunks)[i..]
    ensures |Appends(tmp, chunks[..i])| == i
    decreases |chunks|
  {
    if i == |chunks| {
      assert chunks[..i] == chunks;
      if chunks != [] { AppendsSplit(tmp, chunks[..|chunks| - 1], |chunks| - 1); }
    } else {
      var less := chunks[..|chunks| - 1];
      AppendsSplit(tmp, less, i);
      assert less[..i] == chunks[..i];
    }
  }

  /** writeFileSync and copyFileSync: a temporary file nobody else has. */
  method WriteFileSync(m: Store<Fs, Op>, tmp: Name, chunks: seq<Bytes>, dst: Name) returns (ok: bool)
    requires m.apply == Apply
    modifies m
    ensures Performed(Apply, old(m.state), old(m.power), ReplacePlan(Create(tmp), tmp, chunks, dst), m.state, m.power,
      ok)
  {
    ok := ReplaceFile(m, Create(tmp), tmp, chunks, dst);
  }

  /** FetchTo: a temporary file with a fixed name, which an earlier crash may have left behind. */
  method FetchTo(m: Store<Fs, Op>, tmp: Name, chunks: seq<Bytes>, dst: Name) returns (ok: bool)
    requires m.apply == Apply
    modifies m
    ensures Performed(Apply, old(m.state), old(m.power), ReplacePlan(Truncate(tmp), tmp, chunks, dst), m.state,
      m.power, ok)
  {
    ok := ReplaceFile(m, Truncate(tmp), tmp, chunks, dst);
  }

  method LinkFileSync(m: Store<Fs, Op>, src: Name, tmp: Name, dst: Name) returns (ok: bool)
    requires m.apply == Apply
    modifies m
    ensures Performed(Apply, old(m.state), old(m.power), LinkPlan(src, tmp, dst), m.state, m.power, ok)
  {
    ok := m.DoAll(LinkPlan(src, tmp, dst));
  }

  // --- What a cut leaves ---

  /** This name leads where it led, to what it held. */
  ghost predicate Kept(fs: Fs, t: Fs, n: Name) {
    && (n in fs.names <==> n in t.names) && t.Content(n) == fs.Content(n)
    && (n in fs.names && n in t.names ==> t.names[n] == fs.names[n])
  }

  ghost predicate OthersKept(fs: Fs, t: Fs, tmp: Name, dst: Name) {
    forall n :: n != tmp && n != dst ==> Kept(fs, t, n)
  }

  /** The temporary file while it is being written. */
  ghost predicate Writing(fs: Fs, t: Fs, tmp: Name, text: Bytes) {
    && t.Valid() && tmp in t.names && t.Private(tmp) && t.Content(tmp) == Some(text)
    && forall n :: n != tmp ==> Kept(fs, t, n)
  }

  lemma Opened(fs: Fs, open: Op, tmp: Name)
    requires fs.Valid() && fs.Private(tmp)
    requires open == Truncate(tmp) || (open == Create(tmp) && tmp !in fs.names)
    ensures Writing(fs, Apply(fs, open), tmp, "")
  {
  }

  lemma Appended(fs: Fs, t: Fs, tmp: Name, text: Bytes, more: Bytes)
    requires Writing(fs, t, tmp, text)
    ensures Writing(fs, Apply(t, Append(tmp, more)), tmp, text + more)
  {
    forall n | n != tmp ensures Kept(fs, Apply(t, Append(tmp, more)), n) { assert Kept(fs, t, n); }
  }

  lemma {:induction false} AppendsCut(fs: Fs, t: Fs, tmp: Name, chunks: seq<Bytes>, p: nat) returns (text: Bytes)
    requires Writing(fs, t, tmp, "")
    ensures Writing(fs, Cut(Apply, t, Appends(tmp, chunks), p), tmp, text)
    ensures p >= |chunks| ==> text == Joined(chunks)
    decreases |chunks|
  {
    if chunks == [] { return ""; }
    var n := |chunks| - 1;
    var less, last := chunks[..n], Append(tmp, chunks[n]);
    var a := Appends(tmp, less);
    AppendsSplit(tmp, less, n);
    CutAppend(Apply, t, a, [last], p);
    var before := AppendsCut(fs, t, tmp, less, p);
    if p <= n { return before; }
    OneMoreChunk(fs, Cut(Apply, t, a, n), tmp, before, chunks[n], p - n);
    text := before + chunks[n];
  }

  lemma OneMoreChunk(fs: Fs, u: Fs, tmp: Name, text: Bytes, more: Bytes, p: nat)
    requires Writing(fs, u, tmp, text) && p > 0
    ensures Writing(fs, Cut(Apply, u, [Append(tmp, more)], p), tmp, text + more)
  {
    Appended(fs, u, tmp, text, more);
    CutOne(u, Append(tmp, more), p);
  }

  lemma CutOne(fs: Fs, op: Op, p: nat)
    requires p > 0
    ensures Cut(Apply, fs, [op], p) == Apply(fs, op)
  {
  }

  lemma RenamedInto(fs: Fs, u: Fs, tmp: Name, dst: Name, text: Bytes)
    requires Writing(fs, u, tmp, text) && tmp != dst
    ensures var t := Apply(u, Rename(tmp, dst));
      t.Valid() && OthersKept(fs, t, tmp, dst) && t.Content(dst) == Some(text) && t.Private(dst) && tmp !in t.names
  {
    var t := Apply(u, Rename(tmp, dst));
    forall n | n != tmp && n != dst ensures Kept(fs, t, n) { assert Kept(fs, u, n); }
  }

  /** Cut anywhere, the target holds what it held or all of the new contents, and no other
      name -- not even another link to the old target -- has changed. */
  lemma ReplaceAtomic(fs: Fs, open: Op, tmp: Name, chunks: seq<Bytes>, dst: Name, p: nat)
    requires fs.Valid() && fs.Private(tmp) && tmp != dst
    requires open == Truncate(tmp) || (open == Create(tmp) && tmp !in fs.names)
    ensures var plan, t := ReplacePlan(open, tmp, chunks, dst), Cut(Apply, fs, ReplacePlan(open, tmp, chunks, dst), p);
      && t.Valid() && t.Private(tmp) && OthersKept(fs, t, tmp, dst)
      && (p < |plan| ==> t.Content(dst) == fs.Content(dst))
      && (p >= |plan| ==> t.Content(dst) == Some(Joined(chunks)) && t.Private(dst) && tmp !in t.names)
  {
    var rest := Appends(tmp, chunks) + [Rename(tmp, dst)];
    assert ReplacePlan(open, tmp, chunks, dst) == [open] + rest;
    CutCons(Apply, fs, open, rest, p);
    if p > 0 {
      Opened(fs, open, tmp);
      WrittenThenRenamed(fs, Apply(fs, open), tmp, chunks, dst, p - 1);
    }
  }

  lemma WrittenThenRenamed(fs: Fs, t: Fs, tmp: Name, chunks: seq<Bytes>, dst: Name, q: nat)
    requires Writing(fs, t, tmp, "") && tmp != dst
    ensures var rest := Appends(tmp, chunks) + [Rename(tmp, dst)];
      var u := Cut(Apply, t, rest, q);
      && u.Valid() && u.Private(tmp) && OthersKept(fs, u, tmp, dst)
      && (q < |rest| ==> u.Content(dst) == fs.Content(dst))
      && (q >= |rest| ==> u.Content(dst) == Some(Joined(chunks)) && u.Private(dst) && tmp !in u.names)
  {
    var appends, last := Appends(tmp, chunks), Rename(tmp, dst);
    AppendsSplit(tmp, chunks, |chunks|);
    CutAppend(Apply, t, appends, [last], q);
    var text := AppendsCut(fs, t, tmp, chunks, q);
    if q <= |appends| {
      assert Kept(fs, Cut(Apply, t, appends, q), dst);
    } else {
      var w := Cut(Apply, t, appends, |appends|);
      CutOne(w, last, q - |appends|);
      RenamedInto(fs, w, tmp, dst, text);
    }
  }

  /** The file system after each of the five calls. */
  function LinkState(fs: Fs, src: Name, tmp: Name, dst: Name, p: nat): Fs
    requires src in fs.names
  {
    if p == 0 then fs
    else
      var names :=
        if p == 1 then fs.names[tmp := fs.unused]
        else if p == 2 then fs.names
        else if p == 3 || (p == 4 && dst in fs.names && fs.names[dst] == fs.names[src])
          then fs.names[tmp := fs.names[src]]
        else fs.names[dst := fs.names[src]];
      Fs(names, fs.data[fs.unused := ""], fs.unused + 1)
  }

  lemma LinkStep(fs: Fs, src: Name, tmp: Name, dst: Name, p: nat)
    requires tmp !in fs.names && tmp != dst && src != tmp && src in fs.names && p < 5
    ensures Apply(LinkState(fs, src, tmp, dst, p), LinkPlan(src, tmp, dst)[p]) == LinkState(fs, src, tmp, dst, p + 1)
  {
    var t, u := LinkState(fs, src, tmp, dst, p), LinkState(fs, src, tmp, dst, p + 1);
    if p == 1 { assert t.names - {tmp} == fs.names; }
    if p == 3 && t != u { assert (t.names - {tmp})[dst := fs.names[src]] == u.names; }
    if p == 4 { assert t.names - {tmp} == u.names; }
  }

  lemma {:induction false} LinkCut(fs: Fs, src: Name, tmp: Name, dst: Name, i: nat, p: nat, j: nat)
    requires tmp !in fs.names && tmp != dst && src != tmp && src in fs.names
    requires i <= j <= 5 && (j == i + p || (j == 5 && i + p > 5))
    ensures Cut(Apply, LinkState(fs, src, tmp, dst, i), LinkPlan(src, tmp, dst)[i..], p)
      == LinkState(fs, src, tmp, dst, j)
    decreases 5 - i
  {
    if i < 5 {
      var plan, t := LinkPlan(src, tmp, dst), LinkState(fs, src, tmp, dst, i);
      assert plan[i..] == [plan[i]] + plan[i + 1..];
      CutCons(Apply, t, plan[i], plan[i + 1..], p);
      LinkStep(fs, src, tmp, dst, i);
      if p > 0 { LinkCut(fs, src, tmp, dst, i + 1, p - 1, j); }
    }
  }

  /** The same for a hard link, where the target becomes one more name of the source's inode. */
  lemma LinkAtomic(fs: Fs, src: Name, tmp: Name, dst: Name, p: nat)
    requires fs.Valid() && tmp !in fs.names && tmp != dst && src != tmp && src in fs.names
    ensures var t := Cut(Apply, fs, LinkPlan(src, tmp, dst), p);
      && t.Valid() && OthersKept(fs, t, tmp, dst)
      && (p <= 3 ==> Kept(fs, t, dst))
      && (p >= 4 ==> dst in t.names && t.names[dst] == fs.names[src] && t.Content(dst) == fs.Content(src))
      && (p >= 5 ==> t.names == fs.names[dst := fs.names[src]])
  {
    assert LinkPlan(src, tmp, dst)[0..] == LinkPlan(src, tmp, dst);
    var j := if p < 5 then p else 5;
    LinkCut(fs, src, tmp, dst, 0, p, j);
    LinkMeans(fs, src, tmp, dst, j, Cut(Apply, fs, LinkPlan(src, tmp, dst), p));
  }

  lemma LinkMeans(fs: Fs, src: Name, tmp: Name, dst: Name, j: nat, t: Fs)
    requires fs.Valid() && tmp !in fs.names && tmp != dst && src != tmp && src in fs.names
    requires j <= 5 && t == LinkState(fs, src, tmp, dst, j)
    ensures t.Valid() && OthersKept(fs, t, tmp, dst)
    ensures j <= 3 ==> Kept(fs, t, dst)
    ensures j >= 4 ==> dst in t.names && t.names[dst] == fs.names[src] && t.Content(dst) == fs.Content(src)
    ensures j >= 5 ==> t.names == fs.names[dst := fs.names[src]]
  {
  }

  /** A later download over one link never reaches the other one: after active was linked to
      next and next was fetched anew, active still holds what it was given. */
  lemma FetchSparesLink(fs: Fs, next: Name, active: Name, tmp1: Name, tmp2: Name, chunks: seq<Bytes>, p: nat)
    requires fs.Valid() && next in fs.names && tmp1 !in fs.names && tmp2 !in fs.names && tmp1 != tmp2
    requires next != active && tmp1 != next && tmp1 != active && tmp2 != next && tmp2 != active
    ensures var linked := Cut(Apply, fs, LinkPlan(next, tmp1, active), 5);
      var t := Cut(Apply, linked, ReplacePlan(Truncate(tmp2), tmp2, chunks, next), p);
      && t.Content(active) == fs.Content(next)
      && (p >= |ReplacePlan(Truncate(tmp2), tmp2, chunks, next)| ==> t.Content(next) == Some(Joined(chunks)))
  {
    LinkAtomic(fs, next, tmp1, active, 5);
    var linked := Cut(Apply, fs, LinkPlan(next, tmp1, active), 5);
    assert Kept(fs, linked, tmp2);
    ReplaceAtomic(linked, Truncate(tmp2), tmp2, chunks, next, p);
    assert Kept(linked, Cut(Apply, linked, ReplacePlan(Truncate(tmp2), tmp2, chunks, next), p), active);
  }

  // --- The two-copy WAL ---

  /** Load, over a parser for the file's contents. */
  function LoadWal<W>(parse: Bytes -> Option<W>, fs: Fs, path: Name, bak: Name): Option<W> {
    var main, other := fs.Content(path), fs.Content(bak);
    if main.Some? && parse(main.value).Some? then parse(main.value)
    else if other.Some? then parse(other.value) else None
  }

  function SaveWalPlan(path: Name, bak: Name, tmp1: Name, tmp2: Name, chunks: seq<Bytes>): seq<Op> {
    ReplacePlan(Create(tmp1), tmp1, chunks, bak) + ReplacePlan(Create(tmp2), tmp2, chunks, path)
  }

  method SaveWal(m: Store<Fs, Op>, path: Name, bak: Name, tmp1: Name, tmp2: Name, chunks: seq<Bytes>) returns (ok: bool)
    requires m.apply == Apply
    modifies m
    ensures Performed(Apply, old(m.state), old(m.power), SaveWalPlan(path, bak, tmp1, tmp2, chunks), m.state, m.power,
      ok)
  {
    ghost var s0, p0, a, b := m.state, m.power,
      ReplacePlan(Create(tmp1), tmp1, chunks, bak), ReplacePlan(Create(tmp2), tmp2, chunks, path);
    ok := WriteFileSync(m, tmp1, chunks, bak);
    if !ok { PerformedCut(Apply, s0, p0, a, b, m.state, m.power); return; }
    ghost var s1, p1 := m.state, m.power;
    ok := WriteFileSync(m, tmp2, chunks, path);
    PerformedThen(Apply, s0, p0, a, s1, p1, b, m.state, m.power, ok);
  }

  /** A cut Save loads as the old record or the new one; one that ran to its end loads as the
      new one, even when afterwards one of the two copies is lost or damaged. */
  lemma SaveWalAtomic<W>(parse: Bytes -> Option<W>, fs: Fs, path: Name, bak: Name, tmp1: Name, tmp2: Name,
                         chunks: seq<Bytes>, w: W, p: nat)
    requires fs.Valid() && path != bak && tmp1 !in fs.names && tmp2 !in fs.names && tmp1 != tmp2
    requires tmp1 != path && tmp1 != bak && tmp2 != path && tmp2 != bak
    requires parse(Joined(chunks)) == Some(w)
    ensures var plan := SaveWalPlan(path, bak, tmp1, tmp2, chunks);
      var t := Cut(Apply, fs, plan, p);
      && (LoadWal(parse, t, path, bak) == LoadWal(parse, fs, path, bak) || LoadWal(parse, t, path, bak) == Some(w))
      && (LoadWal(parse, fs, path, bak).Some? ==> LoadWal(parse, t, path, bak).Some?)
      && (p >= |plan| ==> forall u: Fs ::
            ((u.Content(path) == t.Content(path) || u.Content(path).None? || parse(u.Content(path).value).None?)
             && u.Content(bak) == t.Content(bak)) || u.Content(path) == t.Content(path)
            ==> LoadWal(parse, u, path, bak) == Some(w))
  {
    var a, b := ReplacePlan(Create(tmp1), tmp1, chunks, bak), ReplacePlan(Create(tmp2), tmp2, chunks, path);
    CutAppend(Apply, fs, a, b, p);
    ReplaceAtomic(fs, Create(tmp1), tmp1, chunks, bak, Min(p, |a|));
    var s := Cut(Apply, fs, a, Min(p, |a|));
    assert Kept(fs, s, path) && Kept(fs, s, tmp2);
    if p > |a| {
      ReplaceAtomic(s, Create(tmp2), tmp2, chunks, path, p - |a|);
      assert Kept(s, Cut(Apply, s, b, p - |a|), bak);
    }
  }
}
