/** internal/otad/counter.go: the file-backed anti-rollback counter. */
module Counter {
  import opened Common
  import opened Versions
  import opened Plans
  import opened Durable
  import BootStateText

  const MAX_UINT: int := TWO_TO_THE_64 - 1

  /** strconv.ParseUint, base 10, 64 bits. */
  function ParseUint(s: string): Option<nat> {
    if s == "" || !AllDigits(s) || Number(s) > MAX_UINT then None else Some(Number(s))
  }

  /** Read: a missing file is zero, a malformed one an error. */
  function Reading(content: Option<Bytes>): Option<nat> {
    if content.None? then Some(0) else ParseUint(BootStateText.Trim(content.value))
  }

  function AdvancePlan(fs: Fs, path: Name, tmp: Name, to: nat): seq<Op> {
    var cur := Reading(fs.Content(path));
    if cur.None? || to <= cur.value then []
    else ReplacePlan(Truncate(tmp), tmp, [BootStateText.Decimal(to)], path)
  }

  datatype Report = Interrupted | BadValue | Done

  method Advance(m: Store<Fs, Op>, path: Name, tmp: Name, to: nat) returns (r: Report)
    requires m.apply == Durable.Apply
    modifies m
    ensures Performed(Durable.Apply, old(m.state), old(m.power), AdvancePlan(old(m.state), path, tmp, to),
                      m.state, m.power, r != Interrupted)
    ensures r == BadValue <==> Reading(old(m.state).Content(path)).None?
    ensures Reading(old(m.state).Content(path)).Some? && to <= Reading(old(m.state).Content(path)).value ==>
      r == Done && m.state == old(m.state) && m.power == old(m.power)
  {
    var cur := Reading(m.state.Content(path));
    if cur.None? { return BadValue; }
    if to <= cur.value { return Done; }
    var ok := ReplaceFile(m, Truncate(tmp), tmp, [BootStateText.Decimal(to)], path);
    return if ok then Done else Interrupted;
  }

  /** What Advance writes, Read reads back. */
  lemma ReadsBack(n: nat)
    requires n <= MAX_UINT
    ensures Reading(Some(BootStateText.Decimal(n))) == Some(n)
  {
    BootStateText.DecimalReads(n);
    var d := BootStateText.Decimal(n);
    forall i | 0 <= i < |d| ensures !BootStateText.IsSpace(d[i]) { assert IsDigit(d[i]); }
    BootStateText.PlainStays(d);
  }

  /** An Advance cut anywhere leaves a counter that reads as before or, if that is higher, as
      asked; a malformed counter file is left alone. */
  lemma AdvanceCut(fs: Fs, path: Name, tmp: Name, to: nat, p: nat)
    requires fs.Valid() && fs.Private(tmp) && tmp != path && to <= MAX_UINT
    ensures var plan, cur := AdvancePlan(fs, path, tmp, to), Reading(fs.Content(path));
      var t := Cut(Durable.Apply, fs, plan, p);
      && t.Valid() && t.Private(tmp)
      && (cur.None? ==> t == fs)
      && (cur.Some? ==>
            Reading(t.Content(path)) ==
              if p >= |plan| && to > cur.value then Some(to) else cur)
  {
    var cur := Reading(fs.Content(path));
    if cur.Some? && to > cur.value {
      var text := BootStateText.Decimal(to);
      ReplaceAtomic(fs, Truncate(tmp), tmp, [text], path, p);
      assert Joined([text]) == text by { assert [text][..0] == []; }
      ReadsBack(to);
    }
  }

  /** Advances in a row, each cut after some number of system calls. */
  function Advanced(fs: Fs, path: Name, tmp: Name, steps: seq<(nat, nat)>): Fs {
    if steps == [] then fs
    else
      var before, last := Advanced(fs, path, tmp, steps[..|steps| - 1]), steps[|steps| - 1];
      Cut(Durable.Apply, before, AdvancePlan(before, path, tmp, last.0), last.1)
  }

  /** The counter never falls, never becomes unreadable, and never passes the highest value
      anyone asked for. */
  lemma {:induction false} Monotone(fs: Fs, path: Name, tmp: Name, steps: seq<(nat, nat)>, bound: nat)
    requires fs.Valid() && fs.Private(tmp) && tmp != path && Reading(fs.Content(path)).Some?
    requires Reading(fs.Content(path)).value <= bound <= MAX_UINT
    requires forall i :: 0 <= i < |steps| ==> steps[i].0 <= bound
    ensures var t := Advanced(fs, path, tmp, steps);
      && t.Valid() && t.Private(tmp) && Reading(t.Content(path)).Some?
      && Reading(fs.Content(path)).value <= Reading(t.Content(path)).value <= bound
    decreases |steps|
  {
    if steps != [] {
      var n := |steps| - 1;
      Monotone(fs, path, tmp, steps[..n], bound);
      AdvanceCut(Advanced(fs, path, tmp, steps[..n]), path, tmp, steps[n].0, steps[n].1);
    }
  }
}
