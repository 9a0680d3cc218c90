// What every interleaving of the session protocol keeps: one invariant of the
// world, one assertion per program point, and what steps of others may change.

module SessionInvariants {
  import opened Prelude
  import opened Times
  import opened OpaqueToken
  import opened Sessions
  import opened SessionProtocol
  import D = Dgraph

  type Births = map<D.Uid, Birth>
  type Succ = map<D.Uid, D.Uid>

  // --- The world -------------------------------------------------------------------

  function ReplacedByOf(births: Births, succ: Succ, u: D.Uid): string {
    if u in succ && succ[u] in births then births[succ[u]].core.refreshJti else ""
  }

  /** A node is a session exactly as it was born, apart from its status, or it
      is a remnant no query can find. */
  ghost predicate NodeOk(n: D.Fields, births: Births, succ: Succ, u: D.Uid) {
    if Typed(n) then
      && u in births
      && CoreOf(n) == births[u].core
      && D.Get(n, D.UserId) == Some(D.Text(births[u].core.who.userId))
      && D.Get(n, D.RefreshExpiresAt) == Some(D.Instant(births[u].core.refreshExpiresAt))
      && (Live(n) || StatusOf(n).revoked)
      && StatusOf(n).replacedBy == ReplacedByOf(births, succ, u)
    else
      D.DType !in n && D.UserId !in n && !Live(n)
  }

  ghost predicate NodesOk(db: D.Db, births: Births, succ: Succ) {
    forall u :: NodeOk(D.NodeAt(db, u), births, succ, u)
  }

  /** The family a session belongs to shares principal and deadline. */
  ghost predicate RootOk(births: Births, u: D.Uid)
    requires u in births
  {
    var b := births[u];
    && b.root in births && b.root <= u
    && !births[b.root].origin.Rotated?
    && births[b.root].root == b.root
    && b.core.who == births[b.root].core.who
    && b.core.permVersion == births[b.root].core.permVersion
    && b.core.refreshExpiresAt == births[b.root].core.refreshExpiresAt
  }

  ghost predicate OriginOk(cfg: Config, births: Births, succ: Succ, u: D.Uid)
    requires u in births
  {
    var b := births[u];
    && b.lag >= 0
    && b.core.expiresAt == Trunc(b.mintedAt + cfg.AccessTTL())
    && if b.origin.Rotated? then
         var p := b.origin.parent;
         && p in births && p < u && births[p].bornTs < b.bornTs
         && p in succ && succ[p] == u
         && b.root == births[p].root
         && b.mintedAt - b.lag <= b.core.refreshExpiresAt
       else
         && b.root == u && b.lag == 0
         && b.core.refreshExpiresAt == Trunc(b.mintedAt + cfg.RefreshTTL())
  }

  ghost predicate SameLogin(a: Principal, b: Principal) {
    a.kind == b.kind && a.userId == b.userId && a.clientId == b.clientId
  }

  ghost predicate MakerOk(births: Births, mints: map<Pid, Draws>, u: D.Uid)
    requires u in births
  {
    var b := births[u];
    && b.maker in mints
    && b.core.accessHash == Hash(MintOf(mints[b.maker]).access)
    && b.core.refreshHash == Hash(MintOf(mints[b.maker]).refresh)
    && b.core.refreshJti == MintOf(mints[b.maker]).jti
  }

  ghost predicate TailOk(births: Births, succ: Succ, tails: map<D.Uid, D.Uid>, u: D.Uid)
    requires u in births
  {
    u in succ || (births[u].root in tails && tails[births[u].root] == u)
  }

  ghost predicate FamiliesOk(cfg: Config, births: Births, succ: Succ, tails: map<D.Uid, D.Uid>) {
    && (forall u :: u in births ==>
          RootOk(births, u) && OriginOk(cfg, births, succ, u) && TailOk(births, succ, tails, u))
    && (forall p :: p in succ ==> p in births && succ[p] in births && births[succ[p]].origin == Rotated(p))
    && (forall r :: r in tails ==> tails[r] in births && births[tails[r]].root == r)
  }

  ghost predicate ActivationOk(births: Births, u: D.Uid)
    requires u in births
  {
    var o := births[u].origin;
    o.Activated? ==> o.parent in births && o.parent < u && SameLogin(births[u].core.who, births[o.parent].core.who)
  }

  ghost predicate MintsOk(births: Births, mints: map<Pid, Draws>) {
    && (forall u :: u in births ==> MakerOk(births, mints, u) && ActivationOk(births, u))
    && (forall u, v :: u in births && v in births && births[u].maker == births[v].maker ==> u == v)
    && (forall p, q :: p in mints && q in mints && p != q ==>
          && mints[p].access != mints[q].access
          && mints[p].refresh != mints[q].refresh
          && mints[p].jti != mints[q].jti)
  }

  /** Sessions that were replaced or left behind are not live; every birth is in the past. */
  ghost predicate PastOk(db: D.Db, births: Births, succ: Succ) {
    && (forall p :: p in succ ==> !Live(D.NodeAt(db, p)))
    && (forall u :: u in births ==> u < db.nextUid && births[u].bornTs <= db.ts)
    && (forall u :: u in births && births[u].origin.Activated? ==> !Live(D.NodeAt(db, births[u].origin.parent)))
  }

  ghost predicate WorldOk(w: World) {
    && D.WellFormed(w.db)
    && NodesOk(w.db, w.hist.births, w.hist.succ)
    && FamiliesOk(w.cfg, w.hist.births, w.hist.succ, w.hist.tails)
    && MintsOk(w.hist.births, w.hist.mints)
    && PastOk(w.db, w.hist.births, w.hist.succ)
  }

  // --- The program points ------------------------------------------------------------

  ghost predicate Observed(w: World, x: Session) {
    x.id in w.hist.births && x.core == w.hist.births[x.id].core
  }

  ghost predicate Unborn(w: World, pid: Pid) {
    forall u :: u in w.hist.births ==> w.hist.births[u].maker != pid
  }

  ghost predicate Unminted(w: World, pid: Pid) {
    pid !in w.hist.mints && Unborn(w, pid)
  }

  ghost predicate HasMint(w: World, pid: Pid, m: Mint) {
    pid in w.hist.mints && m == MintOf(w.hist.mints[pid])
  }

  /** `pid` committed session `u`, and if it is a refresh, in place of the session its raw token names. */
  ghost predicate MadeBy(w: World, pid: Pid, op: Op, u: D.Uid) {
    && u in w.hist.births
    && w.hist.births[u].maker == pid
    && (op.RefreshOp? ==>
          && w.hist.births[u].origin.Rotated?
          && w.hist.births[u].origin.parent in w.hist.births
          && w.hist.births[w.hist.births[u].origin.parent].core.refreshHash == Hash(op.raw))
  }

  ghost predicate BornOf(w: World, user: string, ts: nat, u: D.Uid) {
    u in w.hist.births && w.hist.births[u].core.who.userId == user && w.hist.births[u].bornTs <= ts
  }

  /** Every session of `user` committed up to `ts` is dead. */
  ghost predicate SweptUpTo(w: World, user: string, ts: nat) {
    ts <= w.db.ts && forall u :: BornOf(w, user, ts, u) ==> !LiveAt(w, u)
  }

  ghost predicate SweepOk(w: World, user: string, uids: seq<D.Uid>, listTs: nat) {
    && listTs <= w.db.ts
    && (forall u :: u in uids ==> BornOf(w, user, listTs, u))
    && (forall u :: BornOf(w, user, listTs, u) && LiveAt(w, u) ==> u in uids)
  }

  ghost predicate OutcomeOk(w: World, pid: Pid, op: Op, o: Outcome) {
    match o
    case Tokens(m, u, _) => MadeBy(w, pid, op, u) && HasMint(w, pid, m)
    case Failed(Some(u)) => MadeBy(w, pid, op, u)
    case Replayed(user, Some(ts)) => Unborn(w, pid) && SweptUpTo(w, user, ts)
    case SweptAll(user, ts) => Unborn(w, pid) && SweptUpTo(w, user, ts)
    case _ => Unborn(w, pid)
  }

  ghost predicate ToRefresh(w: World, op: Op, x: Session) {
    op.RefreshOp? && Observed(w, x) && x.core.refreshHash == Hash(op.raw)
  }

  ghost predicate OriginReady(w: World, origin: Origin, who: Principal) {
    && !origin.Rotated?
    && (origin.Activated? ==>
          && origin.parent in w.hist.births && !LiveAt(w, origin.parent)
          && SameLogin(who, w.hist.births[origin.parent].core.who))
  }

  ghost predicate ProcOk(w: World, pid: Pid, op: Op, pc: Pc) {
    match pc
    case Start => Unminted(w, pid)
    case Looked(x) => Unminted(w, pid) && Observed(w, x) && (op.RefreshOp? ==> ToRefresh(w, op, x))
    case Checked(x, c) => Unminted(w, pid) && ToRefresh(w, op, x) && c <= x.core.refreshExpiresAt && c <= w.clock
    case RotateReady(x, m, at, c) =>
      Unborn(w, pid) && HasMint(w, pid, m) && ToRefresh(w, op, x) && c <= x.core.refreshExpiresAt && c <= at
    case RotateOpen(x, m, at, c, ts, prev) =>
      && Unborn(w, pid) && HasMint(w, pid, m) && ToRefresh(w, op, x) && c <= x.core.refreshExpiresAt && c <= at
      && prev.core == x.core
      && ts <= w.db.ts
      && (D.LastWrite(w.db, D.Data(x.id, D.Revoked)) <= ts ==> LiveAt(w, x.id))
    case CreateReady(who, _, _, _, m, _, origin) =>
      Unborn(w, pid) && HasMint(w, pid, m) && !op.RefreshOp? && OriginReady(w, origin, who)
    case Created(m, u) => MadeBy(w, pid, op, u) && HasMint(w, pid, m)
    case SweepReady(_) => Unborn(w, pid)
    case Sweeping(user, uids, ts) => Unborn(w, pid) && SweepOk(w, user, uids, ts)
    case RevokeReady(x) => Unminted(w, pid) && Observed(w, x)
    case Renew(x) => Unminted(w, pid) && Observed(w, x) && !LiveAt(w, x.id)
    case TouchReady(x) => Unminted(w, pid) && Observed(w, x)
    case Purging(uids, t) =>
      && Unminted(w, pid) && t <= w.clock
      && (forall u :: u in uids ==> u in w.hist.births && w.hist.births[u].core.refreshExpiresAt <= t)
    case Done(o) => OutcomeOk(w, pid, op, o)
  }

  /** The invariant of the whole machine. */
  ghost predicate Inv(s: State) {
    && WorldOk(s.w)
    && (forall pid :: pid in s.procs ==> ProcOk(s.w, pid, s.procs[pid].op, s.procs[pid].pc))
    && s.w.hist.mints.Keys <= s.procs.Keys
  }

  // --- How the world may move ----------------------------------------------------------

  /** `w2` comes later than `w1` in some run: history only grows, what is dead or gone stays so. */
  ghost predicate Later(w1: World, w2: World) {
    && w1.cfg == w2.cfg && w1.clock <= w2.clock
    && D.Extends(w1.db, w2.db)
    && (forall u :: u in w1.hist.births ==> u in w2.hist.births && w2.hist.births[u] == w1.hist.births[u])
    && (forall u :: u in w2.hist.births && u !in w1.hist.births ==>
          u >= w1.db.nextUid && w2.hist.births[u].bornTs > w1.db.ts)
    && (forall p :: p in w1.hist.succ ==> p in w2.hist.succ && w2.hist.succ[p] == w1.hist.succ[p])
    && (forall p :: p in w1.hist.mints ==> p in w2.hist.mints && w2.hist.mints[p] == w1.hist.mints[p])
    && (forall u :: u in w1.hist.births && !LiveAt(w1, u) ==> !LiveAt(w2, u))
    && (forall u :: u in w1.hist.births && !Visible(w1, u) ==> !Visible(w2, u))
  }

  /** A step of `actor` mints and creates in nobody else's name. */
  ghost predicate Moves(w1: World, w2: World, actor: Pid) {
    && Later(w1, w2)
    && (forall u :: u in w2.hist.births && u !in w1.hist.births ==> w2.hist.births[u].maker == actor)
    && (forall p :: p in w2.hist.mints && p !in w1.hist.mints ==> p == actor)
  }

  lemma LaterRefl(w: World)
    ensures Later(w, w)
  {
  }

  lemma LaterTrans(a: World, b: World, c: World)
    requires Later(a, b) && Later(b, c)
    ensures Later(a, c)
  {
    D.ExtendsTrans(a.db, b.db, c.db);
  }

  /** Rely: what a waiting process knows survives everybody else's steps. */
  lemma ProcStable(w1: World, w2: World, actor: Pid, pid: Pid, op: Op, pc: Pc)
    requires Moves(w1, w2, actor) && pid != actor
    requires ProcOk(w1, pid, op, pc)
    ensures ProcOk(w2, pid, op, pc)
  {
    if pc.RotateOpen? {
      var k := D.Data(pc.x.id, D.Revoked);
      if D.LastWrite(w2.db, k) <= pc.startTs {
        assert D.LastWrite(w2.db, k) == D.LastWrite(w1.db, k);
        assert D.Val(w2.db, pc.x.id, D.Revoked) == D.Val(w1.db, pc.x.id, D.Revoked);
      }
    }
  }
}
