// When the keys of a session were last written, in every reachable state, and
// from it exactly when a rotation loses its race.

module SessionWrites {
  import opened OpaqueToken
  import opened Prelude
  import opened Sessions
  import opened SessionStore
  import opened SessionProtocol
  import opened SessionInvariants
  import opened SessionSteps
  import opened SessionTheorems
  import opened SessionRaces
  import D = Dgraph

  /** Some session was born with this digest. */
  ghost predicate Owned(births: Births, p: D.Pred, h: Digest) {
    exists u :: u in births && DigestAt(births[u].core, p, D.Hashed(h))
  }

  /** What a rotation rewrites of a live session was last written at its birth. */
  ghost predicate LiveWrites(db: D.Db, births: Births) {
    forall u, p :: u in births && Live(D.NodeAt(db, u)) && Replaced(p) ==>
      D.LastWrite(db, D.Data(u, p)) <= births[u].bornTs
  }

  predicate Digested(p: D.Pred) { p.AccessHash? || p.RefreshHash? }

  /** A digest nobody was born with was never written. */
  ghost predicate DigestWrites(db: D.Db, births: Births) {
    forall p: D.Pred, h: Digest ::
      (Digested(p) && D.LastWrite(db, D.Index(p, D.Hashed(h))) > 0) ==> Owned(births, p, h)
  }

  ghost predicate WritesOk(db: D.Db, births: Births) {
    NewUidsUnwritten(db) && LiveWrites(db, births) && DigestWrites(db, births)
  }

  /** A rotation read a session that had been committed by then. */
  ghost predicate PcWrites(births: Births, pc: Pc) {
    pc.RotateOpen? ==> pc.x.id in births && births[pc.x.id].bornTs <= pc.startTs
  }

  ghost predicate WritesInv(s: State) {
    && WritesOk(s.w.db, s.w.hist.births)
    && forall pid :: pid in s.procs ==> PcWrites(s.w.hist.births, s.procs[pid].pc)
  }

  // --- One mutation ------------------------------------------------------------------------

  /** The sessions known after a mutation: the one it creates, if any, on top. */
  ghost predicate Adds(w: World, m: Mutation, births: Births) {
    if m.Create? || m.Rotate? then
      && w.db.nextUid in births && births == w.hist.births[w.db.nextUid := births[w.db.nextUid]]
      && births[w.db.nextUid].bornTs == w.db.ts + 1
      && births[w.db.nextUid].core.accessHash == m.core.accessHash
      && births[w.db.nextUid].core.refreshHash == m.core.refreshHash
    else births == w.hist.births
  }

  /** What is live after a mutation was live before and not its target. */
  lemma AliveBefore(w: World, m: Mutation, u: D.Uid)
    requires WorldOk(w) && Grounded(w.db, m) && u in w.hist.births && Live(D.NodeAt(Apply(w.db, m), u))
    ensures LiveAt(w, u) && !Hits(m, u)
  {
    hide FamiliesOk, MintsOk, Apply, NewFields;
    ApplyEffect(w.db, m, u);
    assert NodeOk(Node(w, u), w.hist.births, w.hist.succ, u);
    match m
    case Revoke(_, now) => StatusRevoked(Node(w, u), now);
    case Rotate(_, now, core) => StatusReplaced(Node(w, u), now, core.refreshJti);
    case Touch(_, now) => StatusTouched(Node(w, u), now);
    case _ =>
  }

  lemma PurgedOwned(w: World, uids: seq<D.Uid>, p: D.Pred, h: Digest)
    requires WorldOk(w) && Digested(p)
    requires D.Index(p, D.Hashed(h)) in Written(w.db, Mutation.Purge(uids))
    ensures Owned(w.hist.births, p, h)
  {
    hide FamiliesOk, MintsOk, PastOk;
    var u :| u in Members(uids) && u in w.db.nodes && D.DType in w.db.nodes[u] && p in w.db.nodes[u]
             && w.db.nodes[u][p] == D.Hashed(h);
    assert NodeOk(Node(w, u), w.hist.births, w.hist.succ, u);
    assert DigestAt(w.hist.births[u].core, p, D.Hashed(h));
  }

  lemma WrittenOwned(w: World, m: Mutation, births: Births, p: D.Pred, h: Digest)
    requires WorldOk(w) && Grounded(w.db, m) && Adds(w, m, births) && Digested(p)
    requires D.Index(p, D.Hashed(h)) in Written(w.db, m)
    ensures Owned(births, p, h)
  {
    hide NodesOk, FamiliesOk, MintsOk, PastOk, NewFields, Written;
    match m
    case Create(c) =>
      CreateKeys(w.db, c);
      assert DigestAt(births[w.db.nextUid].core, p, D.Hashed(h));
    case Rotate(prev, now, c) =>
      RotateKeys(w.db, prev, now, c);
      assert DigestAt(births[w.db.nextUid].core, p, D.Hashed(h));
    case Revoke(uids, now) =>
      RevokeWritesData(w.db, uids, now, D.Index(p, D.Hashed(h)));
    case Touch(u, now) =>
      TouchKeys(w.db, u, now);
    case Purge(uids) =>
      PurgedOwned(w, uids, p, h);
  }

  lemma RevokeWritesData(db: D.Db, uids: seq<D.Uid>, now: int, k: D.Key)
    ensures k in Written(db, Mutation.Revoke(uids, now)) ==> k.Data?
  {
    RevokeKeys(db.nodes, uids, now, db.nextUid, k);
  }

  lemma OwnedStill(w: World, m: Mutation, births: Births, p: D.Pred, h: Digest)
    requires WorldOk(w) && Adds(w, m, births) && Owned(w.hist.births, p, h)
    ensures Owned(births, p, h)
  {
    hide WorldOk;
    var u :| u in w.hist.births && DigestAt(w.hist.births[u].core, p, D.Hashed(h));
    BornBelow(w, u);
    assert u in births && DigestAt(births[u].core, p, D.Hashed(h));
  }

  lemma NewStaysUnwritten(db: D.Db, m: Mutation)
    requires D.WellFormed(db) && NewUidsUnwritten(db) && Grounded(db, m)
    ensures NewUidsUnwritten(Apply(db, m))
  {
    ApplyExtends(db, m);
    hide D.WellFormed, D.Extends, Apply, Written, Grounded;
    forall v, p | v >= Apply(db, m).nextUid ensures D.LastWrite(Apply(db, m), D.Data(v, p)) == 0 {
      WritesNew(db, m, v, p);
      WriteTimes(db, m, D.Data(v, p));
    }
  }

  lemma LiveWritten(w: World, m: Mutation, births: Births, u: D.Uid, p: D.Pred)
    requires WorldOk(w) && LiveWrites(w.db, w.hist.births) && Grounded(w.db, m) && Adds(w, m, births)
    requires u in births && Live(D.NodeAt(Apply(w.db, m), u)) && Replaced(p)
    ensures D.LastWrite(Apply(w.db, m), D.Data(u, p)) <= births[u].bornTs
  {
    hide WorldOk, Apply, Written, Hits, Grounded, Live;
    SoundStore(w);
    if u in w.hist.births {
      hide D.WellFormed, D.LastWrite;
      BornBelow(w, u);
      AliveBefore(w, m, u);
      WritesReplaced(w.db, m, u, p);
      WriteTimes(w.db, m, D.Data(u, p));
    } else {
      hide D.Extends, D.LastWrite;
      ApplyExtends(w.db, m);
    }
  }

  lemma DigestWritten(w: World, m: Mutation, births: Births, p: D.Pred, h: Digest)
    requires WorldOk(w) && DigestWrites(w.db, w.hist.births) && Grounded(w.db, m) && Adds(w, m, births)
    requires Digested(p) && D.LastWrite(Apply(w.db, m), D.Index(p, D.Hashed(h))) > 0
    ensures Owned(births, p, h)
  {
    hide WorldOk, Apply, Written, Grounded, Owned, D.WellFormed, D.LastWrite;
    WriteTimes(w.db, m, D.Index(p, D.Hashed(h)));
    if D.Index(p, D.Hashed(h)) in Written(w.db, m) {
      WrittenOwned(w, m, births, p, h);
    } else {
      OwnedStill(w, m, births, p, h);
    }
  }

  lemma StoreWrites(w: World, m: Mutation, births: Births)
    requires WorldOk(w) && WritesOk(w.db, w.hist.births) && Grounded(w.db, m) && Adds(w, m, births)
    ensures WritesOk(Apply(w.db, m), births)
  {
    hide WorldOk, D.WellFormed, Apply, Grounded, Owned, Adds, NewUidsUnwritten;
    SoundStore(w);
    NewStaysUnwritten(w.db, m);
    var next := Apply(w.db, m);
    forall u, p | u in births && Live(D.NodeAt(next, u)) && Replaced(p)
      ensures D.LastWrite(next, D.Data(u, p)) <= births[u].bornTs
    {
      LiveWritten(w, m, births, u, p);
    }
    forall p: D.Pred, h: Digest | Digested(p) && D.LastWrite(next, D.Index(p, D.Hashed(h))) > 0
      ensures Owned(births, p, h)
    {
      DigestWritten(w, m, births, p, h);
    }
  }

  lemma SoundStore(w: World)
    requires WorldOk(w)
    ensures D.WellFormed(w.db)
  {
    hide NodesOk, FamiliesOk, MintsOk, PastOk;
  }

  lemma BornPast(w: World, u: D.Uid)
    requires WorldOk(w) && u in w.hist.births
    ensures w.hist.births[u].bornTs <= w.db.ts
  {
    hide NodesOk, FamiliesOk, MintsOk, D.WellFormed;
  }

  // --- One step ----------------------------------------------------------------------------

  lemma RotateWrites(w: World, pid: Pid, p: D.Uid, core: Core, at: int, lag: int)
    requires WorldOk(w) && WritesOk(w.db, w.hist.births) && p in w.hist.births
    ensures var t := CommitRotate(w, pid, p, core, at, lag); WritesOk(t.db, t.hist.births)
  {
    hide WorldOk, WritesOk, Apply;
    BornBelow(w, p);
    var t := CommitRotate(w, pid, p, core, at, lag);
    assert Adds(w, Rotate(p, w.clock, core), t.hist.births);
    StoreWrites(w, Rotate(p, w.clock, core), t.hist.births);
  }

  lemma CreateWrites(w: World, pid: Pid, pc: Pc)
    requires WorldOk(w) && WritesOk(w.db, w.hist.births) && pc.CreateReady?
    ensures var t := CommitCreate(w, pid, OpenCore(w, pc), pc.origin, pc.at); WritesOk(t.db, t.hist.births)
  {
    hide WorldOk, WritesOk, Apply, OpenCore;
    var core := OpenCore(w, pc);
    var t := CommitCreate(w, pid, core, pc.origin, pc.at);
    assert Adds(w, Create(core), t.hist.births);
    StoreWrites(w, Create(core), t.hist.births);
  }

  lemma StatusGrounded(w: World, m: Mutation)
    requires WorldOk(w) && (m.Revoke? || m.Touch? || m.Purge?)
    requires m.Revoke? ==> forall u :: u in m.uids ==> u in w.hist.births
    requires m.Touch? ==> m.uid in w.hist.births
    ensures Grounded(w.db, m)
  {
    hide NodesOk, FamiliesOk, MintsOk, D.WellFormed;
  }

  lemma StatusWrites(w: World, m: Mutation)
    requires WorldOk(w) && WritesOk(w.db, w.hist.births) && (m.Revoke? || m.Touch? || m.Purge?)
    requires m.Revoke? ==> forall u :: u in m.uids ==> u in w.hist.births
    requires m.Touch? ==> m.uid in w.hist.births
    ensures WritesOk(Store(w, m).db, Store(w, m).hist.births)
  {
    hide WorldOk, WritesOk, Apply, Grounded;
    StatusGrounded(w, m);
    StoreWrites(w, m, w.hist.births);
  }

  lemma NextWrites(w: World, pid: Pid, op: Op, pc: Pc, f: Fault, d: Draws)
    requires WorldOk(w) && ProcOk(w, pid, op, pc) && WritesOk(w.db, w.hist.births)
    ensures var t := Next(w, pid, op, pc, f, d).0; WritesOk(t.db, t.hist.births)
  {
    hide WorldOk, WritesOk, CommitRotate, CommitCreate, Store, Started, Judged, RotationAborts, RotationCore, OpenCore;
    hide FreshDraws, MintOf, Query, GetByID, LiveAt;
    match pc
    case RotateOpen(_, _, _, _, _, _) =>
      if op.RefreshOp? {
        RotateWrites(w, pid, pc.x.id, RotationCore(w, op, pc), pc.at, pc.at - pc.checkedAt);
      }
    case CreateReady(_, _, _, _, _, _, _) => CreateWrites(w, pid, pc);
    case Sweeping(_, uids, _) =>
      assert forall u :: u in uids ==> u in w.hist.births;
      StatusWrites(w, Revoke(uids, w.clock));
    case RevokeReady(x) =>
      assert forall u :: u in [x.id] ==> u in w.hist.births;
      StatusWrites(w, Revoke([x.id], w.clock));
    case TouchReady(x) => StatusWrites(w, Touch(x.id, w.clock));
    case Purging(uids, _) => StatusWrites(w, Purge(uids));
    case _ =>
  }

  lemma NextRead(w: World, pid: Pid, op: Op, pc: Pc, f: Fault, d: Draws)
    requires WorldOk(w) && ProcOk(w, pid, op, pc) && PcWrites(w.hist.births, pc)
    ensures var (t, next) := Next(w, pid, op, pc, f, d); PcWrites(t.hist.births, next)
  {
    hide WorldOk, CommitRotate, CommitCreate, Store, Started, Judged, RotationAborts, RotationCore, OpenCore;
    hide FreshDraws, MintOf, Query, GetByID, LiveAt, Unborn, Unminted, HasMint;
    match pc
    case Start => StartsElsewhere(w, op, f);
    case Looked(x) => JudgedElsewhere(w, op, x);
    case RotateReady(x, _, _, _) => BornPast(w, x.id);
    case RotateOpen(_, _, _, _, _, _) =>
    case _ =>
      hide ProcOk;
  }

  lemma StartsElsewhere(w: World, op: Op, f: Fault)
    ensures !Started(w, op, f).RotateOpen?
  {
    hide Lookup, LookupRefresh, Query, GetByID;
  }

  lemma JudgedElsewhere(w: World, op: Op, x: Session)
    ensures !Judged(w, op, x).RotateOpen?
  {
  }

  lemma ReadLater(w: World, t: World, pc: Pc)
    requires Later(w, t) && PcWrites(w.hist.births, pc)
    ensures PcWrites(t.hist.births, pc)
  {
    hide D.Extends, LiveAt, Visible;
  }

  lemma StepWrites(s: State, e: Event)
    requires Inv(s) && WritesInv(s)
    ensures WritesInv(Step(s, e))
  {
    hide WorldOk, ProcOk, WritesOk, PcWrites, Next, Later;
    StepKeeps(s, e);
    match e
    case Begin(_, _) => StartsUnread(s.w.hist.births);
    case Tick(_) =>
    case Act(q, f, d) =>
      if q in s.procs {
        NextWrites(s.w, q, s.procs[q].op, s.procs[q].pc, f, d);
        NextRead(s.w, q, s.procs[q].op, s.procs[q].pc, f, d);
        forall p | p in s.procs && p != q ensures PcWrites(Step(s, e).w.hist.births, s.procs[p].pc) {
          ReadLater(s.w, Step(s, e).w, s.procs[p].pc);
        }
      }
  }

  lemma StartsUnread(births: Births)
    ensures PcWrites(births, Start)
  {
  }

  lemma {:induction false} RunWrites(s: State, es: seq<Event>)
    requires Inv(s) && WritesInv(s)
    ensures WritesInv(Run(s, es))
    decreases |es|
  {
    hide Inv, Step, WritesInv, After;
    if es != [] {
      StepKeeps(s, es[0]);
      StepWrites(s, es[0]);
      RunWrites(Step(s, es[0]), es[1..]);
    }
  }

  lemma EverWritten(r: Trace)
    ensures WritesInv(At(r))
  {
    hide Inv, Run;
    InitOk(r.cfg, r.start);
    assert WritesInv(Init(r.cfg, r.start));
    hide WritesInv;
    RunWrites(Init(r.cfg, r.start), r.events);
  }

  // --- Exactly when a rotation loses -----------------------------------------------------------

  lemma Undigested(w: World, pid: Pid, m: Mint, u: D.Uid)
    requires WorldOk(w) && HasMint(w, pid, m) && Unborn(w, pid) && u in w.hist.births
    ensures w.hist.births[u].core.accessHash != Hash(m.access) && w.hist.births[u].core.refreshHash != Hash(m.refresh)
  {
    hide NodesOk, FamiliesOk, PastOk, D.WellFormed, ActivationOk, RawToken;
    var mints, q := w.hist.mints, w.hist.births[u].maker;
    assert MakerOk(w.hist.births, mints, u);
    TokensDisjoint(PREFIX_ACCESS, mints[pid].access, PREFIX_ACCESS, mints[q].access);
    TokensDisjoint(PREFIX_REFRESH, mints[pid].refresh, PREFIX_REFRESH, mints[q].refresh);
  }

  lemma DigestUnwritten(w: World, pid: Pid, m: Mint, c: Core, p: D.Pred, v: D.Value)
    requires WorldOk(w) && DigestWrites(w.db, w.hist.births) && HasMint(w, pid, m) && Unborn(w, pid)
    requires c.accessHash == Hash(m.access) && c.refreshHash == Hash(m.refresh) && DigestAt(c, p, v)
    ensures D.LastWrite(w.db, D.Index(p, v)) == 0
  {
    hide WorldOk, HasMint, Unborn, MintOf;
    forall u | u in w.hist.births ensures !DigestAt(w.hist.births[u].core, p, v) {
      Undigested(w, pid, m, u);
    }
    assert !Owned(w.hist.births, p, v.digest);
  }

  lemma AbortsIffDead(w: World, pid: Pid, op: Op, pc: Pc)
    requires WorldOk(w) && ProcOk(w, pid, op, pc) && op.RefreshOp? && pc.RotateOpen?
    requires WritesOk(w.db, w.hist.births) && PcWrites(w.hist.births, pc)
    ensures RotationAborts(w, op, pc) <==> !LiveAt(w, pc.x.id)
  {
    hide WorldOk, ProcOk, RotationCore, MintOf, Unborn, HasMint, DigestWrites, LiveWrites, LiveAt;
    hide D.WellFormed, D.LastWrite, QuadsOf, D.Conflicts, DigestAt, Replaced, NewUidsUnwritten;
    var core, u := RotationCore(w, op, pc), pc.x.id;
    RotationDigests(w, op, pc);
    SoundStore(w);
    BornBelow(w, u);
    OpenRead(w, pid, op, pc);
    NewUnwritten(w.db);
    forall p, v | DigestAt(core, p, v) ensures D.LastWrite(w.db, D.Index(p, v)) <= pc.startTs {
      DigestUnwritten(w, pid, pc.mint, core, p, v);
    }
    forall p | Replaced(p) && D.LastWrite(w.db, D.Data(u, p)) > pc.startTs ensures !LiveAt(w, u) {
      StatusUnwritten(w, pc, p);
    }
    LosesIff(w.db, pc.startTs, u, w.clock, core, !LiveAt(w, u));
  }

  lemma NewUnwritten(db: D.Db)
    requires NewUidsUnwritten(db)
    ensures forall p :: D.LastWrite(db, D.Data(db.nextUid, p)) == 0
  {
    hide D.LastWrite;
  }

  lemma RotationDigests(w: World, op: Op, pc: Pc)
    requires op.RefreshOp? && pc.RotateOpen?
    ensures var c := RotationCore(w, op, pc);
      c.accessHash == Hash(pc.mint.access) && c.refreshHash == Hash(pc.mint.refresh)
  {
  }

  lemma OpenRead(w: World, pid: Pid, op: Op, pc: Pc)
    requires ProcOk(w, pid, op, pc) && pc.RotateOpen?
    ensures HasMint(w, pid, pc.mint) && Unborn(w, pid)
    ensures D.LastWrite(w.db, D.Data(pc.x.id, D.Revoked)) <= pc.startTs ==> LiveAt(w, pc.x.id)
  {
    hide HasMint, Unborn, LiveAt, D.LastWrite;
  }

  lemma StatusUnwritten(w: World, pc: Pc, p: D.Pred)
    requires pc.RotateOpen? && PcWrites(w.hist.births, pc) && LiveWrites(w.db, w.hist.births) && Replaced(p)
    ensures LiveAt(w, pc.x.id) ==> D.LastWrite(w.db, D.Data(pc.x.id, p)) <= pc.startTs
  {
    hide Live, D.LastWrite;
  }

  /** In every reachable state a rotation that is ready to commit will abort if
      and only if its session is no longer live. */
  lemma AbortsIff(r: Trace, p: Pid)
    requires p in At(r).procs && At(r).procs[p].op.RefreshOp? && At(r).procs[p].pc.RotateOpen?
    ensures var Proc(op, pc) := At(r).procs[p]; RotationAborts(At(r).w, op, pc) <==> !LiveAt(At(r).w, pc.x.id)
  {
    hide Run, WorldOk, ProcOk, RotationAborts, WritesOk, PcWrites, LiveAt;
    Reached(r);
    EverWritten(r);
    AbortsIffDead(At(r).w, p, At(r).procs[p].op, At(r).procs[p].pc);
  }
}
