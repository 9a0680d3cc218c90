// The session store as its clients observe it: the queries and the committed
// mutations of internal/repository/dgraph/session.go, with their effect on each node.

module SessionStore {
  import opened Prelude
  import opened OpaqueToken
  import opened Sessions
  import D = Dgraph

  // --- Queries ---------------------------------------------------------------

  datatype Filter =
    | ByAccessHash(hash: Digest)
    | ByRefreshHash(hash: Digest)
    | LiveOf(userId: string)       // no type filter in the query
    | ExpiredBy(threshold: int)

  predicate Matches(f: Filter, n: D.Fields) {
    match f
    case ByAccessHash(h) => Typed(n) && D.Get(n, D.AccessHash) == Some(D.Hashed(h))
    case ByRefreshHash(h) => Typed(n) && D.Get(n, D.RefreshHash) == Some(D.Hashed(h))
    case LiveOf(user) => D.Get(n, D.UserId) == Some(D.Text(user)) && D.Get(n, D.Revoked) != Some(D.Flag(true))
    case ExpiredBy(t) =>
      Typed(n) && D.RefreshExpiresAt in n && n[D.RefreshExpiresAt].Instant? && n[D.RefreshExpiresAt].at <= t
  }

  /** Matching nodes below `bound`, in uid order. */
  function Select(nodes: map<D.Uid, D.Fields>, f: Filter, bound: D.Uid): (found: seq<D.Uid>)
    ensures forall u :: u in found <==> u < bound && u in nodes && Matches(f, nodes[u])
    ensures forall i, j :: 0 <= i < j < |found| ==> found[i] < found[j]
  {
    D.Scan(nodes, n => Matches(f, n), bound)
  }

  function Query(db: D.Db, f: Filter): seq<D.Uid> { Select(db.nodes, f, db.nextUid) }

  function GetByID(db: D.Db, u: D.Uid): Option<Session> {
    if Typed(D.NodeAt(db, u)) then Some(View(u, D.NodeAt(db, u))) else None
  }

  function QueryOne(db: D.Db, f: Filter): Option<Session> {
    var found := Query(db, f);
    if found == [] then None else Some(View(found[0], D.NodeAt(db, found[0])))
  }

  /** What the two lists find, predicate by predicate. */
  lemma ListFinds(db: D.Db, u: D.Uid, user: string, t: int)
    requires D.WellFormed(db)
    ensures var n := D.NodeAt(db, u);
      var deadline := D.Get(n, D.RefreshExpiresAt);
      && (u in Query(db, LiveOf(user)) <==>
            D.Get(n, D.UserId) == Some(D.Text(user)) && D.Get(n, D.Revoked) != Some(D.Flag(true)))
      && (u in Query(db, ExpiredBy(t)) <==>
            D.Get(n, D.DType) == Some(D.Type(D.SessionType))
            && deadline.Some? && deadline.value.Instant? && deadline.value.at <= t)
  {
  }

  // --- Mutations -------------------------------------------------------------

  datatype Mutation =
    | Create(core: Core)
    | Revoke(uids: seq<D.Uid>, now: int)
    | Rotate(prev: D.Uid, now: int, core: Core)
    | Touch(uid: D.Uid, now: int)
    | Purge(uids: seq<D.Uid>)

  function RevokeQuads(uids: seq<D.Uid>, now: int): seq<D.Quads> {
    if uids == [] then []
    else RevokeQuads(uids[..|uids| - 1], now) + [D.Block(D.Iri(uids[|uids| - 1]), RevokeFields(now))]
  }

  function QuadsOf(m: Mutation): seq<D.Quads>
    requires !m.Purge?
  {
    match m
    case Create(core) => [D.Block(D.Blank, NewFields(core))]
    case Revoke(uids, now) => RevokeQuads(uids, now)
    case Rotate(prev, now, core) =>
      [D.Block(D.Iri(prev), ReplaceFields(now, core.refreshJti)), D.Block(D.Blank, NewFields(core))]
    case Touch(u, now) => [D.Block(D.Iri(u), TouchFields(now))]
  }

  function Members(uids: seq<D.Uid>): set<D.Uid> { set u | u in uids }

  function Apply(db: D.Db, m: Mutation): D.Db {
    if m.Purge? then D.Delete(db, Members(m.uids)) else D.Commit(db, QuadsOf(m))
  }

  /** The mutation names only nodes the database has handed out. */
  predicate Grounded(db: D.Db, m: Mutation) {
    match m
    case Create(_) => true
    case Revoke(uids, _) => forall u :: u in uids ==> u < db.nextUid
    case Rotate(prev, _, _) => prev < db.nextUid
    case Touch(u, _) => u < db.nextUid
    case Purge(_) => true
  }

  /** What a mutation leaves at node `u`. */
  function Effect(db: D.Db, m: Mutation, u: D.Uid): D.Fields {
    var n := D.NodeAt(db, u);
    match m
    case Create(core) => if u == db.nextUid then NewFields(core) else n
    case Revoke(uids, now) => if u in uids then n + RevokeFields(now) else n
    case Rotate(prev, now, core) =>
      if u == db.nextUid then NewFields(core) else if u == prev then n + ReplaceFields(now, core.refreshJti) else n
    case Touch(v, now) => if u == v then n + TouchFields(now) else n
    case Purge(uids) => if u in uids && D.DType in n then map[] else n
  }

  lemma {:induction false} RevokeQuadsShape(uids: seq<D.Uid>, now: int)
    ensures |RevokeQuads(uids, now)| == |uids|
    ensures forall i :: 0 <= i < |uids| ==> RevokeQuads(uids, now)[i] == D.Block(D.Iri(uids[i]), RevokeFields(now))
  {
    if uids != [] {
      RevokeQuadsShape(uids[..|uids| - 1], now);
    }
  }

  lemma {:induction false} RevokeEffect(nodes: map<D.Uid, D.Fields>, uids: seq<D.Uid>, now: int, blank: D.Uid, u: D.Uid)
    ensures D.Read(D.ApplyQuads(nodes, RevokeQuads(uids, now), blank), u)
         == if u in uids then D.Read(nodes, u) + RevokeFields(now) else D.Read(nodes, u)
  {
    if uids != [] {
      var init, last := uids[..|uids| - 1], uids[|uids| - 1];
      var quads := RevokeQuads(uids, now);
      assert quads[..|quads| - 1] == RevokeQuads(init, now);
      assert uids == init + [last];
      RevokeEffect(nodes, init, now, blank, u);
      if u == last && u in init {
        var n := D.Read(nodes, u);
        assert n + RevokeFields(now) + RevokeFields(now) == n + RevokeFields(now);
      }
    }
  }

  lemma CreateEffect(nodes: map<D.Uid, D.Fields>, core: Core, blank: D.Uid)
    requires blank !in nodes
    ensures D.ApplyQuads(nodes, QuadsOf(Create(core)), blank) == nodes[blank := NewFields(core)]
  {
    hide ScalarFields;
    D.OneBlock(nodes, QuadsOf(Create(core))[0], blank);
    assert map[] + NewFields(core) == NewFields(core);
  }

  lemma RotateEffect(nodes: map<D.Uid, D.Fields>, prev: D.Uid, now: int, core: Core, blank: D.Uid)
    requires blank !in nodes && prev != blank
    ensures D.ApplyQuads(nodes, QuadsOf(Rotate(prev, now, core)), blank)
         == nodes[prev := D.Read(nodes, prev) + ReplaceFields(now, core.refreshJti)][blank := NewFields(core)]
  {
    var a := D.Block(D.Iri(prev), ReplaceFields(now, core.refreshJti));
    var b := D.Block(D.Blank, NewFields(core));
    D.TwoBlocks(nodes, a, b, blank);
    D.OneBlock(nodes, a, blank);
    D.OneBlock(D.ApplyQuads(nodes, [a], blank), b, blank);
    assert map[] + NewFields(core) == NewFields(core);
  }

  /** Node by node, a committed mutation does exactly what `Effect` says. */
  lemma ApplyEffect(db: D.Db, m: Mutation, u: D.Uid)
    requires D.WellFormed(db) && Grounded(db, m)
    ensures D.NodeAt(Apply(db, m), u) == Effect(db, m, u)
  {
    match m
    case Create(core) =>
      CreateEffect(db.nodes, core, db.nextUid);
    case Revoke(uids, now) =>
      RevokeEffect(db.nodes, uids, now, db.nextUid, u);
    case Rotate(prev, now, core) =>
      RotateEffect(db.nodes, prev, now, core, db.nextUid);
    case Touch(v, now) =>
      D.OneBlock(db.nodes, QuadsOf(m)[0], db.nextUid);
    case Purge(_) =>
  }

  lemma ApplyExtends(db: D.Db, m: Mutation)
    requires D.WellFormed(db) && Grounded(db, m)
    ensures D.WellFormed(Apply(db, m)) && D.Extends(db, Apply(db, m))
    ensures Apply(db, m).ts == db.ts + 1
    ensures Apply(db, m).nextUid == db.nextUid + (if m.Create? || m.Rotate? then 1 else 0)
  {
    if m.Purge? {
      D.DeleteExtends(db, Members(m.uids));
    } else {
      var quads := QuadsOf(m);
      if m.Revoke? {
        RevokeQuadsShape(m.uids, m.now);
        assert forall i :: 0 <= i < |quads| ==> m.uids[i] in m.uids;
      }
      assert m.Create? ==> quads[0].subject.Blank?;
      assert m.Rotate? ==> quads[1].subject.Blank?;
      D.CommitExtends(db, quads);
    }
  }
}
