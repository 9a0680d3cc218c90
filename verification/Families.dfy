// A machine with one token pair per login: a family is open or closed, and
// holds its current pair.

module Families {
  import opened OpaqueToken
  import opened Sessions
  import D = Dgraph

  datatype Pair = Pair(access: Digest, refresh: Digest, jti: string)

  datatype Family = Family(pair: Pair, open: bool, who: Principal, deadline: int)

  type Registry = map<D.Uid, Family>

  datatype Move =
    | Stutter
    | Open(root: D.Uid, family: Family)
    | Renew(root: D.Uid, pair: Pair)
    | Close(roots: set<D.Uid>)

  ghost predicate Does(m: Move, f: Registry, g: Registry) {
    match m
    case Stutter => g == f
    case Open(r, fam) => r !in f && fam.open && g == f[r := fam]
    case Renew(r, p) => r in f && f[r].open && (forall x :: x in f ==> f[x].pair != p) && g == f[r := f[r].(pair := p)]
    case Close(rs) => rs <= f.Keys && g == map r | r in f :: if r in rs then f[r].(open := false) else f[r]
  }

  lemma Renewed(f: Registry, r: D.Uid, fam: Family, p: Pair)
    requires r in f && f[r].open && fam == f[r].(pair := p)
    requires forall x :: x in f ==> f[x].pair != p
    ensures Does(Renew(r, p), f, f[r := fam])
  {
  }

  /** Identity and deadline never change, and a closed family never moves again. */
  lemma ClosedIsFinal(m: Move, f: Registry, g: Registry, r: D.Uid)
    requires Does(m, f, g) && r in f
    ensures r in g && g[r].who == f[r].who && g[r].deadline == f[r].deadline
    ensures !f[r].open ==> g[r] == f[r]
  {
  }
}
