/** One directory of files changed by renames and removes, each durable in program order.
    `Cut(d, plan, p)` is what a machine that stops after `p` of them leaves. */
module Directory {
  import opened Common
  import Plans

  type Dir<N(==)> = map<N, Bytes>

  datatype Op<N(==)> =
    | Rename(src: N, dst: N)
    | Remove(name: N)
    | Store(name: N, bytes: Bytes)   // a download: temporary file renamed into place

  function Lookup<N>(d: Dir<N>, name: N): Option<Bytes> { if name in d then Some(d[name]) else None }

  function Apply<N>(d: Dir<N>, op: Op<N>): Dir<N> {
    match op
    case Rename(src, dst) => if src in d then (d - {src})[dst := d[src]] else d
    case Remove(name) => d - {name}
    case Store(name, bytes) => d[name := bytes]
  }

  function Cut<N>(d: Dir<N>, plan: seq<Op<N>>, p: nat): Dir<N> { Plans.Cut(Apply, d, plan, p) }

  function Exec<N>(d: Dir<N>, plan: seq<Op<N>>): Dir<N> { Cut(d, plan, |plan|) }

  /** The directory of a machine that will complete some number of operations. */
  type Volume<N(==)> = Plans.Store<Dir<N>, Op<N>>

  ghost predicate Performed<N>(d0: Dir<N>, p0: nat, plan: seq<Op<N>>, d1: Dir<N>, p1: nat, ok: bool) {
    Plans.Performed(Apply, d0, p0, plan, d1, p1, ok)
  }
}
