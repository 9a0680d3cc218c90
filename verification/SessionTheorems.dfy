// What holds of every interleaving of the session protocol. `At` is the state
// some run reaches; a second list of events is a continuation of that run.

module SessionTheorems {
  import opened Prelude
  import opened OpaqueToken
  import opened Sessions
  import opened SessionStore
  import opened SessionProtocol
  import opened SessionInvariants
  import opened SessionSteps
  import D = Dgraph

  /** A run: any configuration, any starting time, any events. */
  datatype Trace = Trace(cfg: Config, start: int, events: seq<Event>)

  function At(r: Trace): State { Run(Init(r.cfg, r.start), r.events) }

  function Then(r: Trace, more: seq<Event>): Trace { r.(events := r.events + more) }

  lemma {:induction false} RunSplits(s: State, a: seq<Event>, b: seq<Event>)
    ensures Run(s, a + b) == Run(Run(s, a), b)
    decreases |a|
  {
    hide Step;
    if a == [] {
      assert a + b == b;
    } else {
      assert (a + b)[1..] == a[1..] + b;
      RunSplits(Step(s, a[0]), a[1..], b);
    }
  }

  lemma Extend(r: Trace, e: Event)
    ensures At(Then(r, [e])) == Step(At(r), e)
  {
    RunSplits(Init(r.cfg, r.start), r.events, [e]);
    assert [e][1..] == [];
    hide Step, Init;
    assert Run(At(r), [e]) == Run(Step(At(r), e), []);
  }

  lemma Reached(r: Trace)
    ensures Inv(At(r))
  {
    hide Inv, Run;
    Reachable(r.cfg, r.start, r.events);
  }

  lemma Continues(r: Trace, more: seq<Event>)
    ensures Inv(At(r)) && Inv(At(Then(r, more))) && After(At(r), At(Then(r, more)))
    ensures At(Then(r, more)) == Run(At(r), more)
  {
    hide Inv, Run, After;
    RunSplits(Init(r.cfg, r.start), r.events, more);
    Reached(r);
    RunKeeps(At(r), more);
  }

  // --- Identity of tokens ------------------------------------------------------------

  lemma DistinctTokens(w: World, u: D.Uid, v: D.Uid)
    requires WorldOk(w) && u in w.hist.births && v in w.hist.births && u != v
    ensures var a, b := w.hist.births[u].core, w.hist.births[v].core;
      a.accessHash != b.accessHash && a.refreshHash != b.refreshHash && a.refreshJti != b.refreshJti
  {
    hide NodesOk, FamiliesOk, PastOk, D.WellFormed, ActivationOk, RawToken;
    var m := w.hist.mints;
    assert MakerOk(w.hist.births, m, u) && MakerOk(w.hist.births, m, v);
    var p, q := w.hist.births[u].maker, w.hist.births[v].maker;
    assert p != q;
    TokensDisjoint(PREFIX_ACCESS, m[p].access, PREFIX_ACCESS, m[q].access);
    TokensDisjoint(PREFIX_REFRESH, m[p].refresh, PREFIX_REFRESH, m[q].refresh);
    TokensDisjoint(PREFIX_JTI, m[p].jti, PREFIX_JTI, m[q].jti);
  }

  lemma KindsApart(w: World, u: D.Uid, entropy: seq<Byte>)
    requires WorldOk(w) && u in w.hist.births
    ensures w.hist.births[u].core.accessHash != Hash(RawToken(PREFIX_REFRESH, entropy))
    ensures w.hist.births[u].core.refreshHash != Hash(RawToken(PREFIX_ACCESS, entropy))
    ensures w.hist.births[u].core.refreshJti != ""
  {
    hide NodesOk, FamiliesOk, PastOk, D.WellFormed, ActivationOk, RawToken;
    assert MakerOk(w.hist.births, w.hist.mints, u);
    var m := w.hist.mints[w.hist.births[u].maker];
    TokensDisjoint(PREFIX_ACCESS, m.access, PREFIX_REFRESH, entropy);
    TokensDisjoint(PREFIX_REFRESH, m.refresh, PREFIX_ACCESS, entropy);
    JtiNonEmpty(m.jti);
  }

  lemma JtiNonEmpty(entropy: seq<Byte>)
    ensures RawToken(PREFIX_JTI, entropy) != ""
  {
  }

  /** Access digests, refresh digests and token ids of all sessions ever created
      are pairwise different, the two kinds of digest never meet, and a lookup
      has at most one match, so taking the first result takes the only one. */
  lemma IndexSound(r: Trace, h: Digest, entropy: seq<Byte>)
    ensures var w := At(r).w;
      && (forall u, v :: u in w.hist.births && v in w.hist.births && u != v ==>
            && w.hist.births[u].core.accessHash != w.hist.births[v].core.accessHash
            && w.hist.births[u].core.refreshHash != w.hist.births[v].core.refreshHash
            && w.hist.births[u].core.refreshJti != w.hist.births[v].core.refreshJti)
      && |Query(w.db, ByAccessHash(h))| <= 1
      && |Query(w.db, ByRefreshHash(h))| <= 1
      && Lookup(w, RawToken(PREFIX_REFRESH, entropy)) == None
      && LookupRefresh(w, RawToken(PREFIX_ACCESS, entropy)) == None
  {
    hide Run, WorldOk, ProcOk, Select, RawToken;
    Reached(r);
    var w := At(r).w;
    forall u, v | u in w.hist.births && v in w.hist.births && u != v
      ensures w.hist.births[u].core.accessHash != w.hist.births[v].core.accessHash
      ensures w.hist.births[u].core.refreshHash != w.hist.births[v].core.refreshHash
      ensures w.hist.births[u].core.refreshJti != w.hist.births[v].core.refreshJti
    {
      DistinctTokens(w, u, v);
    }
    SingleMatch(w, ByAccessHash(h));
    SingleMatch(w, ByRefreshHash(h));
    WrongKind(w, entropy);
  }

  lemma Matched(w: World, f: Filter, u: D.Uid)
    requires WorldOk(w) && u in Query(w.db, f) && (f.ByAccessHash? || f.ByRefreshHash?)
    ensures u in w.hist.births
    ensures f.ByAccessHash? ==> w.hist.births[u].core.accessHash == f.hash
    ensures f.ByRefreshHash? ==> w.hist.births[u].core.refreshHash == f.hash
  {
    hide Select, FamiliesOk, MintsOk, PastOk, D.WellFormed, PrincipalOf, StatusOf;
    assert NodeOk(Node(w, u), w.hist.births, w.hist.succ, u);
  }

  lemma SingleMatch(w: World, f: Filter)
    requires WorldOk(w) && (f.ByAccessHash? || f.ByRefreshHash?)
    ensures |Query(w.db, f)| <= 1
  {
    hide Select, WorldOk, Matches;
    var found := Query(w.db, f);
    if |found| > 1 {
      Matched(w, f, found[0]);
      Matched(w, f, found[1]);
      DistinctTokens(w, found[0], found[1]);
    }
  }

  lemma WrongKind(w: World, entropy: seq<Byte>)
    requires WorldOk(w)
    ensures Lookup(w, RawToken(PREFIX_REFRESH, entropy)) == None
    ensures LookupRefresh(w, RawToken(PREFIX_ACCESS, entropy)) == None
  {
    hide Select, WorldOk, Matches, RawToken, View;
    var a := ByAccessHash(Hash(RawToken(PREFIX_REFRESH, entropy)));
    if Query(w.db, a) != [] {
      assert Query(w.db, a)[0] in Query(w.db, a);
      Matched(w, a, Query(w.db, a)[0]);
      KindsApart(w, Query(w.db, a)[0], entropy);
    }
    var b := ByRefreshHash(Hash(RawToken(PREFIX_ACCESS, entropy)));
    if Query(w.db, b) != [] {
      assert Query(w.db, b)[0] in Query(w.db, b);
      Matched(w, b, Query(w.db, b)[0]);
      KindsApart(w, Query(w.db, b)[0], entropy);
    }
  }

  // --- Rotation chains -----------------------------------------------------------------

  /** However the steps interleave, a session is replaced at most once, and its
      stored `replaced_by_jti` names exactly that replacement. */
  lemma SingleSuccessor(r: Trace, p: D.Uid, u: D.Uid, v: D.Uid)
    ensures var w := At(r).w;
      (u in w.hist.births && v in w.hist.births
       && w.hist.births[u].origin == Rotated(p) && w.hist.births[v].origin == Rotated(p)) ==> u == v
    ensures var w := At(r).w;
      (u in w.hist.births && w.hist.births[u].origin == Rotated(p) && Visible(w, p)) ==>
        StatusOf(Node(w, p)).replacedBy == w.hist.births[u].core.refreshJti
  {
    hide Run, ProcOk, MintsOk, PastOk, D.WellFormed, RootOk, TailOk, CoreOf;
    Reached(r);
    var w := At(r).w;
    assert u in w.hist.births ==> OriginOk(w.cfg, w.hist.births, w.hist.succ, u);
    assert v in w.hist.births ==> OriginOk(w.cfg, w.hist.births, w.hist.succ, v);
    assert NodeOk(Node(w, p), w.hist.births, w.hist.succ, p);
  }

  /** In the store: `a` says it was replaced by the token generation of `b`. */
  ghost predicate Link(w: World, a: D.Uid, b: D.Uid) {
    && Visible(w, a) && Visible(w, b)
    && StatusOf(Node(w, a)).replacedBy != ""
    && StatusOf(Node(w, a)).replacedBy == CoreOf(Node(w, b)).refreshJti
  }

  lemma LinkIsSucc(w: World, a: D.Uid, b: D.Uid)
    requires WorldOk(w)
    ensures Link(w, a, b) ==> a in w.hist.succ && w.hist.succ[a] == b && a < b
  {
    if Link(w, a, b) {
      assert NodeOk(Node(w, a), w.hist.births, w.hist.succ, a);
      assert NodeOk(Node(w, b), w.hist.births, w.hist.succ, b);
      assert a in w.hist.succ;
      var c := w.hist.succ[a];
      assert OriginOk(w.cfg, w.hist.births, w.hist.succ, c);
      if b != c {
        DistinctTokens(w, b, c);
      }
      hide WorldOk, CoreOf, StatusOf, Link;
    }
  }

  lemma LinksInjective(w: World, a: D.Uid, b: D.Uid, c: D.Uid)
    requires WorldOk(w) && Link(w, a, c) && Link(w, b, c)
    ensures a == b
  {
    hide Link, CoreOf, StatusOf, NodesOk, MintsOk, PastOk, D.WellFormed, RootOk, TailOk, OriginOk;
    LinkIsSucc(w, a, c);
    LinkIsSucc(w, b, c);
    assert w.hist.births[c].origin == Rotated(a);
    assert w.hist.births[c].origin == Rotated(b);
  }

  ghost predicate LinkPath(w: World, path: seq<D.Uid>) {
    forall i {:trigger path[i]} :: 0 <= i < |path| - 1 ==> Link(w, path[i], path[i + 1])
  }

  lemma {:induction false} PathIncreases(w: World, path: seq<D.Uid>, i: nat, j: nat)
    requires WorldOk(w) && LinkPath(w, path) && i < j < |path|
    ensures path[i] < path[j]
  {
    hide WorldOk, Link;
    LinkIsSucc(w, path[j - 1], path[j]);
    if i < j - 1 {
      PathIncreases(w, path, i, j - 1);
    }
  }

  /** Two paths that end at one session agree as far as the shorter one goes back. */
  lemma {:induction false} PathsMerge(w: World, p: seq<D.Uid>, q: seq<D.Uid>, k: nat)
    requires WorldOk(w) && LinkPath(w, p) && LinkPath(w, q)
    requires k < |p| && k < |q| && p[|p| - 1] == q[|q| - 1]
    ensures p[|p| - 1 - k] == q[|q| - 1 - k]
  {
    hide WorldOk, Link;
    if k > 0 {
      PathsMerge(w, p, q, k - 1);
      assert Link(w, p[|p| - 1 - k], p[|p| - 1 - k + 1]);
      assert Link(w, q[|q| - 1 - k], q[|q| - 1 - k + 1]);
      LinksInjective(w, p[|p| - 1 - k], q[|q| - 1 - k], p[|p| - k]);
    }
  }

  /** Two paths that start at one session agree as far as the shorter one goes on. */
  lemma {:induction false} PathsFork(w: World, p: seq<D.Uid>, q: seq<D.Uid>, k: nat)
    requires WorldOk(w) && LinkPath(w, p) && LinkPath(w, q)
    requires k < |p| && k < |q| && p[0] == q[0]
    ensures p[k] == q[k]
  {
    hide WorldOk, Link;
    if k > 0 {
      PathsFork(w, p, q, k - 1);
      assert Link(w, p[k - 1], p[k - 1 + 1]) && Link(w, q[k - 1], q[k - 1 + 1]);
      LinkIsSucc(w, p[k - 1], p[k]);
      LinkIsSucc(w, q[k - 1], q[k]);
    }
  }

  /** The links `replaced_by_jti` to `refresh_jti` in the store form disjoint
      simple chains: no path revisits a session, and two paths that share their
      first or their last session run together. */
  lemma ChainsAreSimple(r: Trace, p: seq<D.Uid>, q: seq<D.Uid>)
    ensures LinkPath(At(r).w, p) ==> forall i, j :: 0 <= i < j < |p| ==> p[i] != p[j]
    ensures LinkPath(At(r).w, p) && LinkPath(At(r).w, q) && 0 < |p| <= |q| && p[0] == q[0] ==> p == q[..|p|]
    ensures LinkPath(At(r).w, p) && LinkPath(At(r).w, q) && 0 < |p| <= |q| && p[|p| - 1] == q[|q| - 1] ==>
      p == q[|q| - |p|..]
  {
    hide Run, WorldOk, ProcOk, LinkPath;
    Reached(r);
    var w := At(r).w;
    if LinkPath(w, p) {
      forall i, j | 0 <= i < j < |p| ensures p[i] != p[j] { PathIncreases(w, p, i, j); }
    }
    if LinkPath(w, p) && LinkPath(w, q) && 0 < |p| <= |q| {
      if p[0] == q[0] {
        forall k | 0 <= k < |p| ensures p[k] == q[k] { PathsFork(w, p, q, k); }
      }
      if p[|p| - 1] == q[|q| - 1] {
        forall k | 0 <= k < |p| ensures p[k] == q[|q| - |p| + k] { PathsMerge(w, p, q, |p| - 1 - k); }
      }
    }
  }

  lemma LiveIsTail(w: World, u: D.Uid)
    requires WorldOk(w) && LiveAt(w, u)
    ensures u in w.hist.births && Visible(w, u) && u !in w.hist.succ
    ensures w.hist.births[u].root in w.hist.tails && w.hist.tails[w.hist.births[u].root] == u
  {
    hide MintsOk, D.WellFormed, RootOk, OriginOk, CoreOf, StatusOf;
    assert NodeOk(Node(w, u), w.hist.births, w.hist.succ, u);
    assert TailOk(w.hist.births, w.hist.succ, w.hist.tails, u);
  }

  /** A family never has two live sessions, and the live one has not been replaced. */
  lemma OneLivePerFamily(r: Trace, u: D.Uid, v: D.Uid)
    ensures var w := At(r).w;
      LiveAt(w, u) && LiveAt(w, v) ==>
        && u in w.hist.births && v in w.hist.births
        && (w.hist.births[u].root == w.hist.births[v].root ==> u == v)
        && (forall x :: x in w.hist.births ==> w.hist.births[x].origin != Rotated(u))
  {
    hide Run, ProcOk, LiveAt;
    Reached(r);
    var w := At(r).w;
    if LiveAt(w, u) && LiveAt(w, v) {
      LiveIsTail(w, u);
      LiveIsTail(w, v);
      hide NodesOk, MintsOk, PastOk, D.WellFormed, RootOk, TailOk;
      forall x | x in w.hist.births ensures w.hist.births[x].origin != Rotated(u) {
        assert OriginOk(w.cfg, w.hist.births, w.hist.succ, x);
      }
    }
  }
}
