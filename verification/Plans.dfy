/** A routine seen as the list of writes it makes: a machine that loses power, or an
    operation that fails, after `p` of them leaves `Cut(apply, s, plan, p)`. */
module Plans {
  import opened Common

  function Cut<S, W>(apply: (S, W) -> S, s: S, plan: seq<W>, p: nat): S
    decreases p
  {
    if p == 0 || plan == [] then s else Cut(apply, apply(s, plan[0]), plan[1..], p - 1)
  }

  lemma {:induction false} CutAppend<S, W>(apply: (S, W) -> S, s: S, a: seq<W>, b: seq<W>, p: nat)
    ensures p <= |a| ==> Cut(apply, s, a + b, p) == Cut(apply, s, a, p)
    ensures p >= |a| ==> Cut(apply, s, a, p) == Cut(apply, s, a, |a|)
    ensures p >= |a| ==> Cut(apply, s, a + b, p) == Cut(apply, Cut(apply, s, a, |a|), b, p - |a|)
    decreases |a|
  {
    if a == [] {
      assert a + b == b;
    } else if p > 0 {
      assert (a + b)[0] == a[0] && (a + b)[1..] == a[1..] + b;
      CutAppend(apply, apply(s, a[0]), a[1..], b, p - 1);
      CutAppend(apply, apply(s, a[0]), a[1..], b, |a| - 1);
    }
  }

  lemma CutCons<S, W>(apply: (S, W) -> S, s: S, w: W, rest: seq<W>, p: nat)
    ensures Cut(apply, s, [w] + rest, p) == if p == 0 then s else Cut(apply, apply(s, w), rest, p - 1)
  {
    assert ([w] + rest)[1..] == rest;
  }

  /** A routine that made the writes of `plan` in order, as far as the power went. */
  ghost predicate Performed<S, W>(apply: (S, W) -> S, s0: S, p0: nat, plan: seq<W>, s1: S, p1: nat, ok: bool) {
    s1 == Cut(apply, s0, plan, p0) && p1 == p0 - Min(p0, |plan|) && (ok <==> |plan| <= p0)
  }

  lemma PerformedThen<S, W>(apply: (S, W) -> S, s0: S, p0: nat, a: seq<W>, s1: S, p1: nat, b: seq<W>,
                            s2: S, p2: nat, ok: bool)
    requires Performed(apply, s0, p0, a, s1, p1, true) && Performed(apply, s1, p1, b, s2, p2, ok)
    ensures Performed(apply, s0, p0, a + b, s2, p2, ok)
  {
    CutAppend(apply, s0, a, b, p0);
  }

  lemma PerformedCut<S, W>(apply: (S, W) -> S, s0: S, p0: nat, a: seq<W>, b: seq<W>, s1: S, p1: nat)
    requires Performed(apply, s0, p0, a, s1, p1, false)
    ensures Performed(apply, s0, p0, a + b, s1, p1, false)
  {
    CutAppend(apply, s0, a, b, p0);
  }

  /** One more step of a routine whose plan goes on with `rest` after it. */
  lemma Extend<S, W>(apply: (S, W) -> S, s0: S, p0: nat, done: seq<W>, s1: S, p1: nat, step: seq<W>, rest: seq<W>,
                     s2: S, p2: nat, ok: bool)
    requires Performed(apply, s0, p0, done, s1, p1, true) && Performed(apply, s1, p1, step, s2, p2, ok)
    ensures ok ==> Performed(apply, s0, p0, done + step, s2, p2, true)
    ensures !ok ==> Performed(apply, s0, p0, (done + step) + rest, s2, p2, false)
  {
    PerformedThen(apply, s0, p0, done, s1, p1, step, s2, p2, ok);
    if !ok { PerformedCut(apply, s0, p0, done + step, rest, s2, p2); }
  }

  /** One turn of a loop that works through `plan`. */
  lemma Onward<S, W>(apply: (S, W) -> S, s0: S, p0: nat, plan: seq<W>, done: seq<W>, s1: S, p1: nat,
                     step: seq<W>, rest: seq<W>, s2: S, p2: nat, ok: bool)
    requires Performed(apply, s0, p0, done, s1, p1, true) && done + (step + rest) == plan
    requires Performed(apply, s1, p1, step, s2, p2, ok)
    ensures ok ==> Performed(apply, s0, p0, done + step, s2, p2, true) && (done + step) + rest == plan
    ensures !ok ==> Performed(apply, s0, p0, plan, s2, p2, false)
  {
    assert (done + step) + rest == plan;
    Extend(apply, s0, p0, done, s1, p1, step, rest, s2, p2, ok);
  }

  /** Durable state on a machine that will complete `power` more writes. */
  class Store<S, W> {
    const apply: (S, W) -> S
    var state: S
    var power: nat

    constructor (apply: (S, W) -> S, state: S, power: nat)
      ensures this.apply == apply && this.state == state && this.power == power
    {
      this.apply, this.state, this.power := apply, state, power;
    }

    method Do(w: W) returns (ok: bool)
      modifies this
      ensures Performed(apply, old(state), old(power), [w], state, power, ok)
      ensures ok ==> state == apply(old(state), w)
    {
      CutCons(apply, state, w, [], power);
      assert [w] + [] == [w];
      if power == 0 { return false; }
      state := apply(state, w);
      power := power - 1;
      return true;
    }

    /** Several writes in a row. */
    method DoAll(plan: seq<W>) returns (ok: bool)
      modifies this
      ensures Performed(apply, old(state), old(power), plan, state, power, ok)
    {
      ghost var s0, p0 := state, power;
      ok := true;
      for i := 0 to |plan|
        invariant ok && Performed(apply, s0, p0, plan[..i], state, power, true)
      {
        ghost var s1, p1 := state, power;
        ok := Do(plan[i]);
        assert plan[..i + 1] == plan[..i] + [plan[i]] && plan == plan[..i + 1] + plan[i + 1..];
        Extend(apply, s0, p0, plan[..i], s1, p1, [plan[i]], plan[i + 1..], state, power, ok);
        if !ok { return; }
      }
      assert plan[..|plan|] == plan;
    }
  }
}
