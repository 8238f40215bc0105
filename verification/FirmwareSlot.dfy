/** internal/otad/fwanchor.go: the six files of a firmware bundle (image, hash tree and the
    four files of its trust anchor) are activated and rolled back by renames, one by one. */
module FirmwareSlot {
  import opened Common
  import opened Directory
  import Plans
  import FirmwareTrack

  datatype File = Image | Tree | Manifest | ManifestSig | Cert | CertSig

  datatype Role = Active | Next | Backup

  datatype Name = Name(file: File, role: Role)

  /** Activation goes through the files in this order, the anchor last. */
  const FILES: seq<File> := [Image, Tree, Manifest, ManifestSig, Cert, CertSig]
  /** Rollback restores the anchor first. */
  const ANCHOR_FIRST: seq<File> := [Manifest, ManifestSig, Cert, CertSig, Image, Tree]

  predicate Distinct(files: seq<File>) { forall i, j :: 0 <= i < j < |files| ==> files[i] != files[j] }

  // --- One file at a time ---

  /** The three names of one file. */
  datatype Trio = Trio(active: Option<Bytes>, next: Option<Bytes>, backup: Option<Bytes>)
  {
    function Kept(): Trio { if active.Some? then Trio(None, next, active) else this }

    function Activated(): Trio { Kept().(active := next, next := None) }

    function Restored(): Trio { if backup.Some? then Trio(backup, next, None) else this }
  }

  function View(d: Dir<Name>, f: File): Trio {
    Trio(Lookup(d, Name(f, Active)), Lookup(d, Name(f, Next)), Lookup(d, Name(f, Backup)))
  }

  // --- The plans ---

  function FilePlan(d: Dir<Name>, f: File): seq<Op<Name>> {
    (if Name(f, Active) in d then [Rename(Name(f, Active), Name(f, Backup))] else [])
    + [Rename(Name(f, Next), Name(f, Active))]
  }

  /** The files activation gets to: it stops at a missing one, unless that is the hash tree. */
  function Reached(d: Dir<Name>, files: seq<File>): seq<File> {
    if files == [] then []
    else if Name(files[0], Next) in d then [files[0]] + Reached(d, files[1..])
    else if files[0] == Tree then Reached(d, files[1..])
    else []
  }

  function Concat(d: Dir<Name>, files: seq<File>): seq<Op<Name>> {
    if files == [] then [] else FilePlan(d, files[0]) + Concat(d, files[1..])
  }

  function ActivatePlan(d: Dir<Name>): seq<Op<Name>> { Concat(d, Reached(d, FILES)) }

  function RestoreOne(d: Dir<Name>, f: File): seq<Op<Name>> {
    if Name(f, Backup) in d then [Rename(Name(f, Backup), Name(f, Active))] else []
  }

  function RestorePlan(d: Dir<Name>, files: seq<File>): seq<Op<Name>> {
    if files == [] then [] else RestoreOne(d, files[0]) + RestorePlan(d, files[1..])
  }

  function RollbackPlan(d: Dir<Name>): seq<Op<Name>> { RestorePlan(d, ANCHOR_FIRST) }

  function DropPlan(files: seq<File>): seq<Op<Name>> {
    if files == [] then [] else [Remove(Name(files[0], Backup))] + DropPlan(files[1..])
  }

  /** Activation gets through all its files. */
  predicate Complete(d: Dir<Name>, files: seq<File>) {
    forall f :: f in files && f != Tree ==> Name(f, Next) in d
  }

  // --- The routines ---

  method ActivateFile(v: Volume<Name>, f: File) returns (ok: bool)
    requires v.apply == Apply
    modifies v
    ensures Performed(old(v.state), old(v.power), FilePlan(old(v.state), f), v.state, v.power, ok)
    ensures ok ==> forall g: File :: g != f ==> View(v.state, g) == View(old(v.state), g)
  {
    ghost var d0, p0 := v.state, v.power;
    ghost var kept: seq<Op<Name>> := [];
    var install := Rename(Name(f, Next), Name(f, Active));
    if Name(f, Active) in v.state {
      kept := [Rename(Name(f, Active), Name(f, Backup))];
      ok := v.Do(Rename(Name(f, Active), Name(f, Backup)));
      if !ok { Plans.PerformedCut(Apply, d0, p0, kept, [install], v.state, v.power); return; }
    }
    ghost var d1, p1 := v.state, v.power;
    ok := v.Do(install);
    Plans.PerformedThen(Apply, d0, p0, kept, d1, p1, [install], v.state, v.power, ok);
  }

  datatype Report = Interrupted | Missing | Done

  method ActivateFirmwareSlot(v: Volume<Name>) returns (r: Report)
    requires v.apply == Apply
    modifies v
    ensures Performed(old(v.state), old(v.power), ActivatePlan(old(v.state)), v.state, v.power, r != Interrupted)
    ensures r != Interrupted ==> (r == Done <==> Complete(old(v.state), FILES))
  {
    r := ActivateFiles(v, FILES);
  }

  method ActivateFiles(v: Volume<Name>, files: seq<File>) returns (r: Report)
    requires Distinct(files)
    requires v.apply == Apply
    modifies v
    ensures Performed(old(v.state), old(v.power), Concat(old(v.state), Reached(old(v.state), files)),
                      v.state, v.power, r != Interrupted)
    ensures r != Interrupted ==> (r == Done <==> Complete(old(v.state), files))
  {
    ghost var d0, p0, plan := v.state, v.power, Concat(v.state, Reached(v.state, files));
    ghost var done: seq<Op<Name>> := [];
    assert files[0..] == files;
    for i := 0 to |files|
      invariant Performed(d0, p0, done, v.state, v.power, true)
      invariant done + Concat(d0, Reached(d0, files[i..])) == plan
      invariant forall k :: 0 <= k < i && files[k] != Tree ==> Name(files[k], Next) in d0
      invariant Untouched(d0, v.state, files, i)
    {
      var f := files[i];
      SameFile(d0, v.state, f);
      ReachedAt(d0, files, i);
      if Name(f, Next) !in v.state {
        if f == Tree { continue; }
        assert done + [] == done;
        return Missing;
      }
      ghost var d1, p1 := v.state, v.power;
      var ok := ActivateFile(v, f);
      if ok { NextUntouched(d0, d1, v.state, files, i); }
      Plans.Onward(Apply, d0, p0, plan, done, d1, p1, FilePlan(d0, f), Concat(d0, Reached(d0, files[i + 1..])),
        v.state, v.power, ok);
      if !ok { return Interrupted; }
      done := done + FilePlan(d0, f);
    }
    assert done + [] == done;
    return Done;
  }

  /** The files from `i` on are as they were. */
  predicate Untouched(d: Dir<Name>, e: Dir<Name>, files: seq<File>, i: nat) {
    forall k :: i <= k < |files| ==> View(e, files[k]) == View(d, files[k])
  }

  lemma NextUntouched(d0: Dir<Name>, d: Dir<Name>, e: Dir<Name>, files: seq<File>, i: nat)
    requires Distinct(files) && i < |files| && Untouched(d0, d, files, i)
    requires forall g: File :: g != files[i] ==> View(e, g) == View(d, g)
    ensures Untouched(d0, e, files, i + 1)
  {
  }

  lemma SameFile(d: Dir<Name>, e: Dir<Name>, f: File)
    requires View(e, f) == View(d, f)
    ensures (Name(f, Next) in e <==> Name(f, Next) in d) && FilePlan(e, f) == FilePlan(d, f)
      && RestoreOne(e, f) == RestoreOne(d, f)
  {
  }

  /** The plan from file `i` on. */
  lemma ReachedAt(d: Dir<Name>, files: seq<File>, i: nat)
    requires i < |files|
    ensures Concat(d, Reached(d, files[i..])) ==
      if Name(files[i], Next) in d then FilePlan(d, files[i]) + Concat(d, Reached(d, files[i + 1..]))
      else if files[i] == Tree then Concat(d, Reached(d, files[i + 1..])) else []
  {
  }

  method RollbackFirmwareSlot(v: Volume<Name>) returns (ok: bool)
    requires v.apply == Apply
    modifies v
    ensures Performed(old(v.state), old(v.power), RollbackPlan(old(v.state)), v.state, v.power, ok)
  {
    ok := RestoreFiles(v, ANCHOR_FIRST);
  }

  method RestoreFile(v: Volume<Name>, f: File) returns (ok: bool)
    requires v.apply == Apply
    modifies v
    ensures Performed(old(v.state), old(v.power), RestoreOne(old(v.state), f), v.state, v.power, ok)
    ensures ok ==> forall g: File :: g != f ==> View(v.state, g) == View(old(v.state), g)
  {
    if Name(f, Backup) !in v.state { return true; }
    ok := v.Do(Rename(Name(f, Backup), Name(f, Active)));
  }

  method RestoreFiles(v: Volume<Name>, files: seq<File>) returns (ok: bool)
    requires Distinct(files)
    requires v.apply == Apply
    modifies v
    ensures Performed(old(v.state), old(v.power), RestorePlan(old(v.state), files), v.state, v.power, ok)
  {
    ghost var d0, p0, plan := v.state, v.power, RestorePlan(v.state, files);
    ghost var done: seq<Op<Name>> := [];
    assert files[0..] == files;
    for i := 0 to |files|
      invariant Performed(d0, p0, done, v.state, v.power, true)
      invariant done + RestorePlan(d0, files[i..]) == plan
      invariant Untouched(d0, v.state, files, i)
    {
      var f := files[i];
      SameFile(d0, v.state, f);
      assert files[i..][0] == f && files[i..][1..] == files[i + 1..];
      ghost var d1, p1 := v.state, v.power;
      ok := RestoreFile(v, f);
      if ok { NextUntouched(d0, d1, v.state, files, i); }
      Plans.Onward(Apply, d0, p0, plan, done, d1, p1, RestoreOne(d0, f), RestorePlan(d0, files[i + 1..]), v.state,
        v.power, ok);
      if !ok { return; }
      done := done + RestoreOne(d0, f);
    }
    assert done + [] == done;
    return true;
  }

  method FinalizeFirmwareSlot(v: Volume<Name>) returns (ok: bool)
    requires v.apply == Apply
    modifies v
    ensures Performed(old(v.state), old(v.power), DropPlan(FILES), v.state, v.power, ok)
  {
    ok := DropFiles(v, FILES);
  }

  method DropFiles(v: Volume<Name>, files: seq<File>) returns (ok: bool)
    requires v.apply == Apply
    modifies v
    ensures Performed(old(v.state), old(v.power), DropPlan(files), v.state, v.power, ok)
  {
    ghost var d0, p0, plan := v.state, v.power, DropPlan(files);
    ghost var done: seq<Op<Name>> := [];
    assert files[0..] == files;
    for i := 0 to |files|
      invariant Performed(d0, p0, done, v.state, v.power, true)
      invariant done + DropPlan(files[i..]) == plan
    {
      assert files[i..][0] == files[i] && files[i..][1..] == files[i + 1..];
      var op := Remove(Name(files[i], Backup));
      ghost var d1, p1 := v.state, v.power;
      ok := v.Do(op);
      Plans.Onward(Apply, d0, p0, plan, done, d1, p1, [op], DropPlan(files[i + 1..]), v.state, v.power, ok);
      if !ok { return; }
      done := done + [op];
    }
    assert done + [] == done;
    return true;
  }

  lemma FileCut(d: Dir<Name>, f: File, p: nat)
    requires Name(f, Next) in d
    ensures var t := Cut(d, FilePlan(d, f), p);
      && (forall g: File :: g != f ==> View(t, g) == View(d, g))
      && (p == 0 ==> t == d)
      && (1 <= p < |FilePlan(d, f)| ==> View(d, f).active.Some? && View(t, f) == View(d, f).Kept())
      && (p >= |FilePlan(d, f)| ==> View(t, f) == View(d, f).Activated())
  {
    var a, b := Rename(Name(f, Active), Name(f, Backup)), Rename(Name(f, Next), Name(f, Active));
    if Name(f, Active) in d {
      assert FilePlan(d, f) == [a] + ([b] + []);
      Plans.CutCons(Apply, d, a, [b] + [], p);
      if p >= 1 { Plans.CutCons(Apply, Apply(d, a), b, [], p - 1); }
    } else {
      assert FilePlan(d, f) == [b] + [];
      Plans.CutCons(Apply, d, b, [], p);
    }
  }

  // --- Which operations were made ---

  function First(ops: seq<Op<Name>>, p: nat): seq<Op<Name>> { ops[..Min(p, |ops|)] }

  predicate SetAside(ops: seq<Op<Name>>, f: File) { Rename(Name(f, Active), Name(f, Backup)) in ops }

  predicate Placed(ops: seq<Op<Name>>, f: File) { Rename(Name(f, Next), Name(f, Active)) in ops }

  /** The names of a file after those of its operations that are among `ops`. */
  function After(v: Trio, ops: seq<Op<Name>>, f: File): Trio {
    if Placed(ops, f) then v.Activated() else if SetAside(ops, f) then v.Kept() else v
  }

  lemma PlansAgree(d: Dir<Name>, e: Dir<Name>, files: seq<File>)
    requires forall f :: f in files ==> View(e, f) == View(d, f)
    ensures Concat(e, files) == Concat(d, files)
  {
    if files != [] {
      assert View(e, files[0]) == View(d, files[0]);
      PlansAgree(d, e, files[1..]);
    }
  }

  /** Whose operations a plan holds. */
  lemma {:induction false} OpsOf(d: Dir<Name>, files: seq<File>, f: File)
    ensures Placed(Concat(d, files), f) <==> f in files
    ensures SetAside(Concat(d, files), f) <==> f in files && Name(f, Active) in d
    decreases |files|
  {
    if files != [] {
      assert files == [files[0]] + files[1..];
      OpsOf(d, files[1..], f);
    }
  }

  /** What a plan cut anywhere makes of every file. */
  ghost predicate CutInto(d: Dir<Name>, t: Dir<Name>, ops: seq<Op<Name>>) {
    forall f: File :: View(t, f) == After(View(d, f), ops, f)
  }

  /** A plan cut anywhere leaves every file as its own operations leave it. */
  lemma {:induction false} CutExactly(d: Dir<Name>, files: seq<File>, p: nat)
    requires Distinct(files) && forall f :: f in files ==> Name(f, Next) in d
    ensures CutInto(d, Cut(d, Concat(d, files), p), First(Concat(d, files), p))
    decreases |files|
  {
    if files != [] {
      var f, rest := files[0], files[1..];
      var n := |FilePlan(d, f)|;
      RestDistinct(files);
      assert f in files && forall g :: g in rest ==> g in files;
      if p <= n {
        CutSooner(d, f, Concat(d, rest), p);
      } else {
        OneDone(d, f, rest);
        CutExactly(Exec(d, FilePlan(d, f)), rest, p - n);
        CutLater(d, f, rest, p - n, p);
      }
    } else {
      NothingCut(d, p);
    }
  }

  lemma NothingCut(d: Dir<Name>, p: nat)
    ensures CutInto(d, Cut(d, [], p), First([], p))
  {
  }

  lemma RestDistinct(files: seq<File>)
    requires Distinct(files) && files != []
    ensures Distinct(files[1..]) && files[0] !in files[1..]
  {
  }

  lemma CutSooner(d: Dir<Name>, f: File, more: seq<Op<Name>>, p: nat)
    requires Name(f, Next) in d && p <= |FilePlan(d, f)|
    ensures CutInto(d, Cut(d, FilePlan(d, f) + more, p), First(FilePlan(d, f) + more, p))
  {
    Plans.CutAppend(Apply, d, FilePlan(d, f), more, p);
    OneCut(d, f, p);
    assert First(FilePlan(d, f) + more, p) == First(FilePlan(d, f), p);
  }

  lemma Past(d: Dir<Name>, a: seq<Op<Name>>, b: seq<Op<Name>>, q: nat)
    ensures Cut(d, a + b, |a| + q) == Cut(Exec(d, a), b, q)
    ensures First(a + b, |a| + q) == a + First(b, q)
  {
    Plans.CutAppend(Apply, d, a, b, |a| + q);
  }

  lemma CutLater(d: Dir<Name>, f: File, rest: seq<File>, q: nat, p: nat)
    requires Name(f, Next) in d && f !in rest && p == |FilePlan(d, f)| + q
    requires var e := Exec(d, FilePlan(d, f));
      CutInto(e, Cut(e, Concat(d, rest), q), First(Concat(d, rest), q))
    ensures var plan := FilePlan(d, f) + Concat(d, rest);
      CutInto(d, Cut(d, plan, p), First(plan, p))
  {
    var plan, more := FilePlan(d, f), Concat(d, rest);
    var e := Exec(d, plan);
    FileCut(d, f, |plan|);
    Past(d, plan, more, q);
    NotItsOwn(d, rest, f, q);
    ThenMore(d, e, Cut(e, more, q), f, First(more, q));
  }

  lemma NotItsOwn(d: Dir<Name>, rest: seq<File>, f: File, q: nat)
    requires f !in rest
    ensures var ops := First(Concat(d, rest), q); !Placed(ops, f) && !SetAside(ops, f)
  {
    OpsOf(d, rest, f);
  }

  lemma OneCut(d: Dir<Name>, f: File, p: nat)
    requires Name(f, Next) in d
    ensures CutInto(d, Cut(d, FilePlan(d, f), p), First(FilePlan(d, f), p))
  {
    FileCut(d, f, p);
    var plan := FilePlan(d, f);
    assert p >= |plan| ==> First(plan, p) == plan;
    if 1 <= p < |plan| { assert First(plan, p) == [Rename(Name(f, Active), Name(f, Backup))]; }
  }

  /** The first file is through; the operations that follow are about others. */
  lemma ThenMore(d: Dir<Name>, e: Dir<Name>, t: Dir<Name>, f: File, ops: seq<Op<Name>>)
    requires CutInto(e, t, ops) && !Placed(ops, f) && !SetAside(ops, f)
    requires View(e, f) == View(d, f).Activated() && forall g: File :: g != f ==> View(e, g) == View(d, g)
    ensures CutInto(d, t, FilePlan(d, f) + ops)
  {
    forall g: File ensures View(t, g) == After(View(d, g), FilePlan(d, f) + ops, g) {
      assert View(t, g) == After(View(e, g), ops, g);
    }
  }

  /** One file done, the rest still to do. */
  lemma OneDone(d: Dir<Name>, f: File, rest: seq<File>)
    requires Name(f, Next) in d && f !in rest && forall g :: g in rest ==> Name(g, Next) in d
    ensures var e := Exec(d, FilePlan(d, f));
      && View(e, f) == View(d, f).Activated() && Concat(e, rest) == Concat(d, rest)
      && (forall g: File :: g != f ==> View(e, g) == View(d, g))
      && forall g :: g in rest ==> Name(g, Next) in e
  {
    FileCut(d, f, |FilePlan(d, f)|);
    var e := Exec(d, FilePlan(d, f));
    forall g | g in rest ensures View(e, g) == View(d, g) && Name(g, Next) in e { SameFile(d, e, g); }
    PlansAgree(d, e, rest);
  }

  /** What an activation cut after `p` operations has made of each file. */
  lemma ActivationCut(d: Dir<Name>, p: nat)
    ensures var t, ops := Cut(d, ActivatePlan(d), p), First(ActivatePlan(d), p);
      forall f: File ::
        && View(t, f) == After(View(d, f), ops, f)
        && (Placed(ops, f) ==> f in Reached(d, FILES) && Name(f, Next) in d)
        && (SetAside(ops, f) ==> f in Reached(d, FILES) && Name(f, Active) in d)
        && (p >= |ActivatePlan(d)| && f in Reached(d, FILES) ==> Placed(ops, f))
  {
    ReachedIsPart(d, FILES);
    CutExactly(d, Reached(d, FILES), p);
    forall f: File { OpsOf(d, Reached(d, FILES), f); }
  }

  lemma ReachedIsPart(d: Dir<Name>, files: seq<File>)
    requires Distinct(files)
    ensures Distinct(Reached(d, files)) && forall f :: f in Reached(d, files) ==> f in files && Name(f, Next) in d
  {
    if files != [] { ReachedIsPart(d, files[1..]); }
  }

  // --- The undo ---

  /** A rollback cut anywhere leaves each file as it was or restored. */
  ghost predicate PartlyRestored(d: Dir<Name>, t: Dir<Name>, files: seq<File>) {
    forall f: File :: FilePartlyRestored(d, t, f, f in files)
  }

  ghost predicate FilePartlyRestored(d: Dir<Name>, t: Dir<Name>, f: File, planned: bool) {
    View(t, f) == View(d, f) || (planned && View(t, f) == View(d, f).Restored())
  }

  lemma {:induction false} RestoreCut(d: Dir<Name>, files: seq<File>, p: nat)
    requires Distinct(files)
    ensures var t := Cut(d, RestorePlan(d, files), p);
      && PartlyRestored(d, t, files)
      && (p >= |RestorePlan(d, files)| ==> forall f :: f in files ==> View(t, f) == View(d, f).Restored())
      && (p < |RestorePlan(d, files)| ==> exists f :: f in files && View(t, f).backup.Some?)
    decreases |files|
  {
    if files != [] {
      var f, rest := files[0], files[1..];
      var t := Cut(d, RestorePlan(d, files), p);
      var op := Rename(Name(f, Backup), Name(f, Active));
      var has := Name(f, Backup) in d;
      var e, q := if has then Apply(d, op) else d, if has then p - 1 else p;
      if has {
        Plans.CutCons(Apply, d, op, RestorePlan(d, rest), p);
      } else {
        assert [] + RestorePlan(d, rest) == RestorePlan(d, rest);
      }
      if q >= 0 {
        assert View(e, f) == View(d, f).Restored();
        forall g: File ensures g != f ==> View(e, g) == View(d, g) {}
        RestorePlansAgree(d, e, rest);
        RestoreCut(e, rest, q);
        forall g: File ensures FilePartlyRestored(d, t, g, g in files) {
          assert FilePartlyRestored(e, t, g, g in rest);
          if g == f { assert f !in rest && g in files; }
        }
      } else {
        assert f in files && View(t, f).backup.Some?;
      }
    }
  }

  lemma RestorePlansAgree(d: Dir<Name>, e: Dir<Name>, files: seq<File>)
    requires forall f :: f in files ==> View(e, f) == View(d, f)
    ensures RestorePlan(e, files) == RestorePlan(d, files)
  {
    if files != [] {
      assert View(e, files[0]) == View(d, files[0]);
      RestorePlansAgree(d, e, files[1..]);
    }
  }

  /** Rollback cut once per entry of `cuts`, and then run to its end. */
  function RolledBack(d: Dir<Name>, cuts: seq<nat>): Dir<Name>
    decreases |cuts|
  {
    if cuts == [] then Exec(d, RollbackPlan(d)) else RolledBack(Cut(d, RollbackPlan(d), cuts[0]), cuts[1..])
  }

  lemma InAnchorFirst(f: File)
    ensures f in ANCHOR_FIRST
  {
  }

  /** However often it was cut, a rollback that ends has restored every file. */
  lemma {:induction false} RollbackConverges(d: Dir<Name>, cuts: seq<nat>)
    ensures forall f: File :: View(RolledBack(d, cuts), f) == View(d, f).Restored()
    decreases |cuts|
  {
    var p := if cuts == [] then |RollbackPlan(d)| else cuts[0];
    RestoreCut(d, ANCHOR_FIRST, p);
    forall f: File ensures View(RolledBack(d, cuts), f) == View(d, f).Restored() {
      InAnchorFirst(f);
      if cuts != [] {
        RollbackConverges(Cut(d, RollbackPlan(d), p), cuts[1..]);
      }
    }
  }

  /** What activation must find for every cut of it to be undone: an old file behind every
      file it will replace, and no backup that differs from what is active. */
  predicate Undoable(d: Dir<Name>) {
    && (forall f :: f in Reached(d, FILES) ==> Name(f, Active) in d)
    && (forall f: File :: View(d, f).backup.None? || View(d, f).backup == View(d, f).active)
  }

  ghost predicate Undone(d: Dir<Name>, p: nat, cuts: seq<nat>) {
    forall f: File :: View(RolledBack(Cut(d, ActivatePlan(d), p), cuts), f).active == View(d, f).active
  }

  /** From every crash point of an activation, and through any number of crashes inside the
      rollback, the completed rollback restores all six files -- exactly when `Undoable`. */
  lemma UndoExactly(d: Dir<Name>)
    ensures Undoable(d) <==> forall p: nat, cuts: seq<nat> :: Undone(d, p, cuts)
  {
    if Undoable(d) {
      forall p: nat, cuts: seq<nat> ensures Undone(d, p, cuts) { UndoneFrom(d, p, cuts); }
    } else {
      RollbackConverges(d, []);
      assert Cut(d, ActivatePlan(d), 0) == d;
      assert Undone(d, 0, []) ==> forall f: File :: View(d, f).backup.None? || View(d, f).backup == View(d, f).active;
      var n := |ActivatePlan(d)|;
      if forall f: File :: View(d, f).backup.None? || View(d, f).backup == View(d, f).active {
        var f :| f in Reached(d, FILES) && Name(f, Active) !in d;
        assert View(d, f).backup.None?;
        NothingToUndo(d, f);
        assert !Undone(d, n, []);
      } else {
        assert !Undone(d, 0, []);
      }
    }
  }

  lemma UndoneFrom(d: Dir<Name>, p: nat, cuts: seq<nat>)
    requires Undoable(d)
    ensures Undone(d, p, cuts)
  {
    ActivationCut(d, p);
    RollbackConverges(Cut(d, ActivatePlan(d), p), cuts);
  }

  /** An activation that ran to its end. */
  lemma FullyActivated(d: Dir<Name>, f: File)
    requires f in Reached(d, FILES)
    ensures View(Exec(d, ActivatePlan(d)), f) == View(d, f).Activated() && Name(f, Next) in d
  {
    ActivationCut(d, |ActivatePlan(d)|);
  }

  /** A file that had no predecessor keeps the candidate's contents after a rollback. */
  lemma NothingToUndo(d: Dir<Name>, f: File)
    requires f in Reached(d, FILES) && Name(f, Active) !in d && Name(f, Backup) !in d
    ensures View(RolledBack(Exec(d, ActivatePlan(d)), []), f).active == View(d, f).next != None
  {
    FullyActivated(d, f);
    RollbackConverges(Exec(d, ActivatePlan(d)), []);
  }

  /** A second activation before the first was decided overwrites the backups: a rollback
      then restores the first candidate, not what ran before it. */
  lemma SecondActivationLoses(d: Dir<Name>, e: Dir<Name>, f: File)
    requires f in Reached(d, FILES) && f in Reached(e, FILES)
    requires View(e, f).active == View(Exec(d, ActivatePlan(d)), f).active
    ensures View(RolledBack(Exec(e, ActivatePlan(e)), []), f).active == View(d, f).next
  {
    FullyActivated(d, f);
    FullyActivated(e, f);
    RollbackConverges(Exec(e, ActivatePlan(e)), []);
  }

  lemma {:induction false} ConcatSplits(d: Dir<Name>, a: seq<File>, b: seq<File>)
    ensures Concat(d, a + b) == Concat(d, a) + Concat(d, b)
    decreases |a|
  {
    if a == [] {
      assert a + b == b;
    } else {
      assert (a + b)[1..] == a[1..] + b;
      ConcatSplits(d, a[1..], b);
    }
  }

  // --- The anchor ---

  const BODY: seq<File> := [Image, Tree]
  const ANCHOR: seq<File> := [Manifest, ManifestSig, Cert, CertSig]

  predicate InAnchor(f: File) { f != Image && f != Tree }

  /** What activation does to the image and its tree, and then to the anchor. */
  function BodyPlan(d: Dir<Name>): seq<Op<Name>> { Concat(d, Reached(d, BODY)) }

  function AnchorPlan(d: Dir<Name>): seq<Op<Name>> {
    if Name(Image, Next) in d then Concat(d, Reached(d, ANCHOR)) else []
  }

  lemma PlanParts(d: Dir<Name>)
    ensures ActivatePlan(d) == BodyPlan(d) + AnchorPlan(d)
  {
    assert FILES[1..] == [Tree] + ANCHOR && ([Tree] + ANCHOR)[1..] == ANCHOR && BODY[1..] == [Tree];
    assert Reached(d, [Tree]) == if Name(Tree, Next) in d then [Tree] else [];
    if Name(Image, Next) in d {
      var body := Reached(d, BODY);
      assert Reached(d, FILES) == body + Reached(d, ANCHOR);
      ConcatSplits(d, body, Reached(d, ANCHOR));
    }
  }

  /** The four active anchor files are all as they were, or all the new ones. */
  ghost predicate AnchorWhole(d: Dir<Name>, t: Dir<Name>) {
    || (forall f: File :: InAnchor(f) ==> View(t, f).active == View(d, f).active)
    || (forall f: File :: InAnchor(f) ==> View(d, f).next.Some? && View(t, f).active == View(d, f).next)
  }

  predicate Differs(d: Dir<Name>, f: File) { View(d, f).next.Some? ==> View(d, f).active != View(d, f).next }

  /** Every anchor file is staged. */
  predicate AnchorStaged(d: Dir<Name>) { forall f: File :: InAnchor(f) ==> Name(f, Next) in d }

  lemma AnchorFiles(d: Dir<Name>)
    ensures forall f: File :: InAnchor(f) <==> f in ANCHOR
    ensures Distinct(ANCHOR) && Distinct(BODY)
    ensures var r := Reached(d, ANCHOR);
      && Distinct(r) && (forall f :: f in r ==> f in ANCHOR && Name(f, Next) in d)
      && (r != [] ==> r[0] == Manifest)
      && (AnchorStaged(d) <==> r == ANCHOR)
  {
    assert Manifest == ANCHOR[0] && ManifestSig == ANCHOR[1] && Cert == ANCHOR[2] && CertSig == ANCHOR[3];
    ReachedIsPart(d, ANCHOR);
    AllReached(d, ANCHOR);
  }

  lemma {:induction false} AllReached(d: Dir<Name>, files: seq<File>)
    requires Tree !in files
    ensures Reached(d, files) == files <==> forall f :: f in files ==> Name(f, Next) in d
    decreases |files|
  {
    if files != [] {
      assert files == [files[0]] + files[1..] && files[0] in files;
      AllReached(d, files[1..]);
    }
  }

  /** An activation cut after `p` operations leaves a whole anchor exactly when no anchor file is
      only set aside, and those in place are the same as before, or those not in place yet are. */
  lemma AnchorWholeExactly(d: Dir<Name>, p: nat)
    ensures var ops := First(ActivatePlan(d), p);
      AnchorWhole(d, Cut(d, ActivatePlan(d), p)) <==>
      && (forall f: File :: InAnchor(f) && SetAside(ops, f) ==> Placed(ops, f))
      && (|| (forall f: File :: InAnchor(f) && Placed(ops, f) ==> !Differs(d, f))
          || (AnchorStaged(d) && forall f: File :: InAnchor(f) && !Placed(ops, f) ==> !Differs(d, f)))
  {
    ActivationCut(d, p);
  }

  /** Where the operations of each file stand when every file is present on both sides. */
  lemma {:induction false} TwoEach(d: Dir<Name>, files: seq<File>, i: nat)
    requires i < |files| && forall f :: f in files ==> Name(f, Next) in d && Name(f, Active) in d
    ensures Reached(d, files) == files && |Concat(d, files)| == 2 * |files|
    ensures Concat(d, files)[2 * i] == Rename(Name(files[i], Active), Name(files[i], Backup))
    ensures Concat(d, files)[2 * i + 1] == Rename(Name(files[i], Next), Name(files[i], Active))
    decreases |files|
  {
    assert files[0] in files;
    if |files| > 1 {
      assert i > 0 ==> files[1..][i - 1] == files[i];
      TwoEach(d, files[1..], if i == 0 then 0 else i - 1);
    }
  }

  lemma Counted(d: Dir<Name>, files: seq<File>, i: nat, p: nat)
    requires Distinct(files) && i < |files|
    requires forall f :: f in files ==> Name(f, Next) in d && Name(f, Active) in d
    ensures SetAside(First(Concat(d, files), p), files[i]) <==> p >= 2 * i + 1
    ensures Placed(First(Concat(d, files), p), files[i]) <==> p >= 2 * i + 2
  {
    var plan := Concat(d, files);
    forall j: nat | j < |files|
      ensures |plan| == 2 * |files|
      ensures plan[2 * j] == Rename(Name(files[j], Active), Name(files[j], Backup))
      ensures plan[2 * j + 1] == Rename(Name(files[j], Next), Name(files[j], Active))
    {
      TwoEach(d, files, j);
    }
    var ops := First(plan, p);
    forall k: nat | k < |ops|
      ensures ops[k] == Rename(Name(files[i], Active), Name(files[i], Backup)) ==> k == 2 * i
      ensures ops[k] == Rename(Name(files[i], Next), Name(files[i], Active)) ==> k == 2 * i + 1
    {
      assert k == 2 * (k / 2) || k == 2 * (k / 2) + 1;
      assert plan[2 * (k / 2)] == Rename(Name(files[k / 2], Active), Name(files[k / 2], Backup));
    }
    if p >= 2 * i + 1 { assert ops[2 * i] == plan[2 * i]; }
    if p >= 2 * i + 2 { assert ops[2 * i + 1] == plan[2 * i + 1]; }
  }

  predicate AllPresent(d: Dir<Name>) { forall f: File :: Name(f, Next) in d && Name(f, Active) in d }

  /** The first `n` anchor files are the same in both anchors; the others are. */
  predicate SameBefore(d: Dir<Name>, n: int) { forall i :: 0 <= i < n && i < 4 ==> !Differs(d, ANCHOR[i]) }

  predicate SameFrom(d: Dir<Name>, n: int) { forall i :: 0 <= i < 4 && n <= i ==> !Differs(d, ANCHOR[i]) }

  /** With every file present on both sides: outside operations 5 to 11, or between two anchor files
      where the ones before are all the same as the old ones, or the ones after all are. */
  lemma AnchorWholeAt(d: Dir<Name>, p: nat)
    requires AllPresent(d)
    ensures AnchorWhole(d, Cut(d, ActivatePlan(d), p)) <==>
      || p <= 4 || p >= 12
      || (p % 2 == 0 && (SameBefore(d, p / 2 - 2) || SameFrom(d, p / 2 - 2)))
  {
    var n, even := if p <= 4 then 0 else if p >= 12 then 4 else p / 2 - 2, p <= 4 || p >= 12 || p % 2 == 0;
    assert n <= 4 && (n == 4 ==> even);
    AnchorWholeExactly(d, p);
    AnchorProgress(d, p, n, even);
    FourFiles(d, First(ActivatePlan(d), p), n, even);
  }

  /** The first `n` anchor files are in place, and the next one is set aside unless `even`. */
  predicate Progress(ops: seq<Op<Name>>, n: nat, even: bool) {
    forall i: nat | i < 4 ::
      (Placed(ops, ANCHOR[i]) <==> i < n) && (SetAside(ops, ANCHOR[i]) <==> i < n || (i == n && !even))
  }

  lemma AnchorProgress(d: Dir<Name>, p: nat, n: nat, even: bool)
    requires AllPresent(d)
    requires n == if p <= 4 then 0 else if p >= 12 then 4 else p / 2 - 2
    requires even == (p <= 4 || p >= 12 || p % 2 == 0)
    ensures Progress(First(ActivatePlan(d), p), n, even)
  {
    forall i: nat | i < 4 { AnchorCounted(d, i, p); }
  }

  lemma AnchorCounted(d: Dir<Name>, i: nat, p: nat)
    requires AllPresent(d) && i < 4
    ensures SetAside(First(ActivatePlan(d), p), ANCHOR[i]) <==> p >= 2 * i + 5
    ensures Placed(First(ActivatePlan(d), p), ANCHOR[i]) <==> p >= 2 * i + 6
  {
    TwoEach(d, FILES, 0);
    FilesOnce(i);
    Counted(d, FILES, i + 2, p);
  }

  lemma FilesOnce(i: nat)
    requires i < 4
    ensures Distinct(FILES) && |FILES| == 6 && FILES[i + 2] == ANCHOR[i]
  {
  }

  /** The condition of AnchorWholeExactly, counted. */
  lemma FourFiles(d: Dir<Name>, ops: seq<Op<Name>>, n: nat, even: bool)
    requires AnchorStaged(d) && n <= 4 && (n == 4 ==> even) && Progress(ops, n, even)
    ensures (forall f: File :: InAnchor(f) && SetAside(ops, f) ==> Placed(ops, f)) <==> even
    ensures (forall f: File :: InAnchor(f) && Placed(ops, f) ==> !Differs(d, f))
      <==> SameBefore(d, n)
    ensures (forall f: File :: InAnchor(f) && !Placed(ops, f) ==> !Differs(d, f))
      <==> SameFrom(d, n)
  {
    AnchorFiles(d);
    forall i: nat | i < 4 ensures InAnchor(ANCHOR[i]) {}
    if !even { assert SetAside(ops, ANCHOR[n]) && !Placed(ops, ANCHOR[n]); }
  }

  /** The same written out. */
  lemma OneByOne(d: Dir<Name>, n: nat)
    requires n <= 4
    ensures SameBefore(d, n) <==>
      && (n >= 1 ==> !Differs(d, Manifest)) && (n >= 2 ==> !Differs(d, ManifestSig))
      && (n >= 3 ==> !Differs(d, Cert)) && (n >= 4 ==> !Differs(d, CertSig))
    ensures SameFrom(d, n) <==>
      && (n < 1 ==> !Differs(d, Manifest)) && (n < 2 ==> !Differs(d, ManifestSig))
      && (n < 3 ==> !Differs(d, Cert)) && (n < 4 ==> !Differs(d, CertSig))
  {
    assert ANCHOR[0] == Manifest && ANCHOR[1] == ManifestSig && ANCHOR[2] == Cert && ANCHOR[3] == CertSig;
  }

  /** A new manifest signed by an unchanged certificate: torn after operations 5, 6, 7, 9 and 11. */
  lemma SameCertificate(d: Dir<Name>, p: nat)
    requires AllPresent(d)
    requires Differs(d, Manifest) && Differs(d, ManifestSig) && !Differs(d, Cert) && !Differs(d, CertSig)
    ensures AnchorWhole(d, Cut(d, ActivatePlan(d), p)) <==> p <= 4 || p == 8 || p == 10 || p >= 12
  {
    AnchorWholeAt(d, p);
    UnderSameCertificate(d, p, AnchorWhole(d, Cut(d, ActivatePlan(d), p)));
  }

  lemma UnderSameCertificate(d: Dir<Name>, p: nat, whole: bool)
    requires Differs(d, Manifest) && Differs(d, ManifestSig) && !Differs(d, Cert) && !Differs(d, CertSig)
    requires whole <==>
      p <= 4 || p >= 12 || (p % 2 == 0 && (SameBefore(d, p / 2 - 2) || SameFrom(d, p / 2 - 2)))
    ensures whole <==> p <= 4 || p == 8 || p == 10 || p >= 12
  {
    OneByOne(d, 1);
    OneByOne(d, 2);
    OneByOne(d, 3);
    if 4 < p < 12 && p % 2 == 0 {
      assert (p == 6 && p / 2 - 2 == 1) || (p == 8 && p / 2 - 2 == 2) || (p == 10 && p / 2 - 2 == 3);
    }
  }

  /** A new manifest and a new certificate: torn after every operation from 5 to 11. */
  lemma AnchorTornBetween(d: Dir<Name>, p: nat)
    requires AllPresent(d) && Differs(d, Manifest) && Differs(d, CertSig)
    ensures AnchorWhole(d, Cut(d, ActivatePlan(d), p)) <==> p <= 4 || p >= 12
  {
    AnchorWholeAt(d, p);
    if 4 < p < 12 { OneByOne(d, p / 2 - 2); }
  }

  /** And whichever files are present: the anchor is whole before the first operation on it, and
      when it is all staged and the last one is made. */
  lemma RotatedExactly(d: Dir<Name>, p: nat)
    requires Differs(d, Manifest) && Differs(d, CertSig)
    ensures AnchorWhole(d, Cut(d, ActivatePlan(d), p)) <==>
      p <= |BodyPlan(d)| || AnchorPlan(d) == [] || (AnchorStaged(d) && p >= |ActivatePlan(d)|)
  {
    AnchorWholeExactly(d, p);
    if p <= |BodyPlan(d)| || AnchorPlan(d) == [] {
      BeforeAnchor(d, p);
    } else {
      FirstOfAnchor(d, p);
      if AnchorStaged(d) {
        LastOfAnchor(d, p);
        if p >= |ActivatePlan(d)| { AllPlaced(d, p); }
      }
    }
  }

  lemma AllPlaced(d: Dir<Name>, p: nat)
    requires AnchorPlan(d) != [] && AnchorStaged(d) && p >= |ActivatePlan(d)|
    ensures forall f: File :: InAnchor(f) ==> Placed(First(ActivatePlan(d), p), f)
  {
    AnchorFiles(d);
    PlanParts(d);
    var ops := First(ActivatePlan(d), p);
    forall f: File | InAnchor(f) ensures Placed(ops, f) {
      OpsOf(d, ANCHOR, f);
      assert ops == BodyPlan(d) + Concat(d, ANCHOR);
    }
  }

  lemma BeforeAnchor(d: Dir<Name>, p: nat)
    requires p <= |BodyPlan(d)| || AnchorPlan(d) == []
    ensures var ops := First(ActivatePlan(d), p);
      forall f: File :: InAnchor(f) ==> !Placed(ops, f) && !SetAside(ops, f)
  {
    PlanParts(d);
    ReachedIsPart(d, BODY);
    assert First(ActivatePlan(d), p) == First(BodyPlan(d), p);
    forall f: File | InAnchor(f)
      ensures !Placed(First(BodyPlan(d), p), f) && !SetAside(First(BodyPlan(d), p), f)
    {
      assert f !in BODY;
      NotItsOwn(d, Reached(d, BODY), f, p);
    }
  }

  lemma FirstOfAnchor(d: Dir<Name>, p: nat)
    requires AnchorPlan(d) != [] && p > |BodyPlan(d)|
    ensures Placed(First(ActivatePlan(d), p), Manifest) || SetAside(First(ActivatePlan(d), p), Manifest)
  {
    PlanParts(d);
    AnchorFiles(d);
    var r, b := Reached(d, ANCHOR), |BodyPlan(d)|;
    assert AnchorPlan(d)[0] == FilePlan(d, Manifest)[0];
    assert First(ActivatePlan(d), p)[b] == AnchorPlan(d)[0];
  }

  lemma LastOfAnchor(d: Dir<Name>, p: nat)
    requires AnchorPlan(d) != [] && AnchorStaged(d) && p > |BodyPlan(d)|
    ensures Placed(First(ActivatePlan(d), p), CertSig) <==> p >= |ActivatePlan(d)|
  {
    var others := Reached(d, BODY) + [Manifest, ManifestSig, Cert];
    LastFile(d, others);
    ReachedIsPart(d, BODY);
    OpsOf(d, others, CertSig);
    LastOperation(d, Concat(d, others), CertSig, p);
  }

  lemma LastFile(d: Dir<Name>, others: seq<File>)
    requires AnchorPlan(d) != [] && AnchorStaged(d) && others == Reached(d, BODY) + [Manifest, ManifestSig, Cert]
    ensures ActivatePlan(d) == Concat(d, others) + Concat(d, [CertSig])
  {
    PlanParts(d);
    AnchorFiles(d);
    assert Reached(d, BODY) + ANCHOR == others + [CertSig];
    ConcatSplits(d, Reached(d, BODY), ANCHOR);
    ConcatSplits(d, others, [CertSig]);
  }

  lemma LastOperation(d: Dir<Name>, before: seq<Op<Name>>, f: File, p: nat)
    requires !Placed(before, f)
    ensures Placed(First(before + Concat(d, [f]), p), f) <==> p >= |before| + |FilePlan(d, f)|
    ensures |Concat(d, [f])| == |FilePlan(d, f)|
  {
    assert Concat(d, [f]) == FilePlan(d, f) + [] == FilePlan(d, f);
    var plan, place := before + FilePlan(d, f), Rename(Name(f, Next), Name(f, Active));
    var n := |plan| - 1;
    assert plan[n] == place;
    forall k: nat | k < n ensures plan[k] != place { if k < |before| { assert plan[k] in before; } }
    if p >= |plan| { assert First(plan, p)[n] == place; }
  }

  /** After the manifest alone, the new manifest stands beside the old signature. */
  lemma TornAnchor(d: Dir<Name>, p: nat)
    requires p == 6 && AllPresent(d)
    ensures var t := Cut(d, ActivatePlan(d), p);
      && View(t, Manifest).active == View(d, Manifest).next
      && View(t, ManifestSig).active == View(d, ManifestSig).active
      && (Differs(d, Manifest) && Differs(d, ManifestSig) ==> !AnchorWhole(d, t))
  {
    ActivationCut(d, p);
    AnchorProgress(d, p, 1, true);
    assert ANCHOR[0] == Manifest && ANCHOR[1] == ManifestSig;
    AnchorWholeExactly(d, p);
  }
}
