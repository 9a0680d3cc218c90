// Pieces of runs: single operations carried out, in part or in full, with
// nobody else moving. Concrete runs are put together from them.

module SessionRuns {
  import opened Prelude
  import opened OpaqueToken
  import opened Sessions
  import opened SessionStore
  import opened SessionProtocol
  import opened SessionInvariants
  import opened SessionPreservation
  import opened SessionSteps
  import opened SessionTheorems
  import opened SessionSafety
  import opened SessionMeaning
  import opened FamilyRefinement
  import D = Dgraph

  lemma StartsEmpty(cfg: Config, start: int)
    ensures At(Trace(cfg, start, [])) == Init(cfg, start)
  {
  }

  const ALICE := Principal(KIND_USER, "alice", "", "", "", {}, {}, {})

  /** What an entropy source delivers that gives the same byte over and over. */
  function DrawsOf(b: Byte): Draws {
    Draws(seq(TOKEN_BYTES, i => b), seq(TOKEN_BYTES, i => b), seq(JTI_BYTES, i => b))
  }

  lemma DrawsApart(b: Byte, c: Byte)
    requires b != c
    ensures DrawsOf(b).access != DrawsOf(c).access && DrawsOf(b).refresh != DrawsOf(c).refresh
    ensures DrawsOf(b).jti != DrawsOf(c).jti
  {
    assert DrawsOf(b).access[0] == b && DrawsOf(c).access[0] == c;
    assert DrawsOf(b).refresh[0] == b && DrawsOf(c).refresh[0] == c;
    assert DrawsOf(b).jti[0] == b && DrawsOf(c).jti[0] == c;
  }

  // --- What one operation adds -----------------------------------------------------------

  /** `q`, drawing `d`, added session `v` to what `s` holds, and is done; every
      other goroutine stands where it stood. */
  ghost predicate Added(s: State, t: State, q: Pid, d: Draws, v: D.Uid) {
    && v == s.w.db.nextUid && t.w.db.nextUid == v + 1 && t.w.cfg == s.w.cfg
    && t.w.hist.births.Keys == s.w.hist.births.Keys + {v}
    && (forall u :: u in s.w.hist.births ==> t.w.hist.births[u] == s.w.hist.births[u])
    && t.w.hist.mints == s.w.hist.mints[q := d]
    && t.procs.Keys == s.procs.Keys + {q}
    && (forall p :: p in s.procs && p != q ==> t.procs[p] == s.procs[p])
    && t.procs[q].pc.Done? && t.procs[q].pc.outcome.Tokens? && t.procs[q].pc.outcome.uid == v
    && t.procs[q].pc.outcome.mint == MintOf(d)
    && LiveAt(t.w, v)
    && t.w.hist.births[v].core.accessHash == Hash(MintOf(d).access)
    && t.w.hist.births[v].core.refreshHash == Hash(MintOf(d).refresh)
  }

  /** Only `q` moved, and the database is as it was. */
  ghost predicate Waits(s: State, t: State, q: Pid, op: Op) {
    && t.w.db == s.w.db && t.w.cfg == s.w.cfg && t.w.hist.births == s.w.hist.births
    && t.procs.Keys == s.procs.Keys + {q} && t.procs[q].op == op
    && (forall p :: p in s.procs && p != q ==> t.procs[p] == s.procs[p])
  }

  // --- Logging in --------------------------------------------------------------------------

  lemma LogIn(r: Trace, q: Pid, who: Principal, d: Draws) returns (r2: Trace)
    requires q !in At(r).procs && FreshDraws(At(r).w.hist.mints, d)
    ensures r2.cfg == r.cfg && r2.start == r.start
    ensures var s, t := At(r), At(r2);
      var v := s.w.db.nextUid;
      && Added(s, t, q, d, v) && t.w.db.ts == s.w.db.ts + 1 && t.w.clock == s.w.clock
      && var b := t.w.hist.births[v];
         b.core.who == who && b.bornTs == s.w.db.ts + 1 && b.root == v && b.origin == Login
         && b.mintedAt == s.w.clock && b.lag == 0
  {
    hide Run, FreshDraws, WorldOk, ProcOk, MintOf, Apply, LiveAt, Started, Added;
    var op := OpenOp(who, 0, "", "");
    var s := At(r);
    Extend(r, Begin(q, op));
    var r1 := Then(r, [Begin(q, op)]);
    Extend(r1, Act(q, NoFault, d));
    var rm := Then(r1, [Act(q, NoFault, d)]);
    r2 := CreateFrom(rm, q, d);
    Joined(s, At(rm), At(r2), q, d, s.w.db.nextUid);
  }

  lemma Joined(s: State, m: State, t: State, q: Pid, d: Draws, v: D.Uid)
    requires Added(m, t, q, d, v)
    requires m.w.db.nextUid == s.w.db.nextUid && m.w.cfg == s.w.cfg && m.w.hist.births == s.w.hist.births
    requires m.w.hist.mints[q := d] == s.w.hist.mints[q := d]
    requires m.procs.Keys == s.procs.Keys + {q} && forall p :: p in s.procs && p != q ==> m.procs[p] == s.procs[p]
    ensures Added(s, t, q, d, v)
  {
    hide LiveAt, MintOf;
  }

  /** From a process ready to create: commit and read back. */
  lemma CreateFrom(r: Trace, q: Pid, d: Draws) returns (r2: Trace)
    requires q in At(r).procs && At(r).procs[q].pc.CreateReady? && At(r).procs[q].pc.mint == MintOf(d)
    requires q in At(r).w.hist.mints && At(r).w.hist.mints[q] == d
    ensures r2.cfg == r.cfg && r2.start == r.start
    ensures var s, t := At(r), At(r2);
      var v, pc := s.w.db.nextUid, s.procs[q].pc;
      && Added(s, t, q, d, v) && t.w.db.ts == s.w.db.ts + 1 && t.w.clock == s.w.clock
      && t.procs[q].op == s.procs[q].op
      && (forall u :: u in s.w.hist.births ==> (LiveAt(t.w, u) <==> LiveAt(s.w, u)))
      && var b := t.w.hist.births[v];
         b.core.who == pc.who && b.bornTs == s.w.db.ts + 1 && b.root == v && b.origin == pc.origin
         && b.mintedAt == pc.at && b.lag == 0
  {
    hide Run, FreshDraws, WorldOk, ProcOk, MintOf, Apply, LiveAt, Started;
    var s := At(r);
    var pc, act := s.procs[q].pc, Act(q, NoFault, d);
    Reached(r);
    Extend(r, act);
    var r1 := Then(r, [act]);
    var core := OpenCore(s.w, pc);
    assert At(r1).w == CommitCreate(s.w, q, core, pc.origin, pc.at);
    assert At(r1).procs[q].pc == Created(pc.mint, s.w.db.nextUid);
    CreatedLive(s.w, q, core, pc.origin, pc.at);
    CreatedBirth(s.w, q, pc);
    Extend(r1, act);
    r2 := Then(r1, [act]);
    assert At(r2).w == At(r1).w;
    assert s.w.hist.mints[q := d] == s.w.hist.mints;
    NewBelow(s.w);
    hide GetByID, CommitCreate, OpenCore;
  }

  lemma CreatedBirth(w: World, q: Pid, pc: Pc)
    requires pc.CreateReady?
    ensures var t, v := CommitCreate(w, q, OpenCore(w, pc), pc.origin, pc.at), w.db.nextUid;
      && t.hist.births == w.hist.births[v := t.hist.births[v]] && t.hist.mints == w.hist.mints
      && t.cfg == w.cfg && t.clock == w.clock
      && var b := t.hist.births[v];
         b.core.who == pc.who && b.bornTs == w.db.ts + 1 && b.root == v && b.origin == pc.origin
         && b.mintedAt == pc.at && b.lag == 0
         && b.core.accessHash == Hash(pc.mint.access) && b.core.refreshHash == Hash(pc.mint.refresh)
  {
    hide Apply;
  }

  lemma CreatedLive(w: World, q: Pid, core: Core, origin: Origin, at: int)
    requires WorldOk(w)
    ensures var t := CommitCreate(w, q, core, origin, at);
      && t.db.nextUid == w.db.nextUid + 1 && t.db.ts == w.db.ts + 1 && LiveAt(t, w.db.nextUid)
      && forall u :: u in w.hist.births ==> (LiveAt(t, u) <==> LiveAt(w, u))
  {
    hide WorldOk, Apply, D.Extends, D.WellFormed, Live;
    NewLive(w, core, w.db.nextUid);
    CreateExtends(w, core);
    CreateKeepsLive(w, core);
  }

  lemma CreateExtends(w: World, core: Core)
    requires WorldOk(w)
    ensures Apply(w.db, Create(core)).nextUid == w.db.nextUid + 1 && Apply(w.db, Create(core)).ts == w.db.ts + 1
  {
    hide NodesOk, FamiliesOk, MintsOk, PastOk, D.Extends, Apply;
    ApplyExtends(w.db, Create(core));
  }

  /** The clock moves on. */
  lemma Pause(r: Trace, elapsed: nat) returns (r2: Trace)
    ensures r2.cfg == r.cfg && r2.start == r.start
    ensures At(r2) == At(r).(w := At(r).w.(clock := At(r).w.clock + elapsed))
  {
    hide Run;
    Extend(r, Tick(elapsed));
    r2 := Then(r, [Tick(elapsed)]);
  }

  // --- Lookups -------------------------------------------------------------------------------

  /** A stored session is what a query for one of its digests returns. */
  lemma FindsVisible(w: World, f: Filter, u: D.Uid)
    requires WorldOk(w) && Visible(w, u) && u in w.hist.births
    requires (f.ByAccessHash? && f.hash == w.hist.births[u].core.accessHash)
          || (f.ByRefreshHash? && f.hash == w.hist.births[u].core.refreshHash)
    requires f.hash != NoDigest
    ensures QueryOne(w.db, f) == Some(View(u, Node(w, u))) && CoreOf(Node(w, u)) == w.hist.births[u].core
  {
    hide Select, WorldOk, PrincipalOf, LiveAt, StatusOf;
    StoredCore(w, u);
    VisibleBelow(w, u);
    Listed(w, f, u);
    SingleMatch(w, f);
    assert Query(w.db, f) == [u];
  }

  lemma Listed(w: World, f: Filter, u: D.Uid)
    requires f.ByAccessHash? || f.ByRefreshHash?
    requires Visible(w, u) && f.hash != NoDigest && u < w.db.nextUid && u in w.db.nodes
    requires f.ByAccessHash? ==> CoreOf(Node(w, u)).accessHash == f.hash
    requires f.ByRefreshHash? ==> CoreOf(Node(w, u)).refreshHash == f.hash
    ensures u in Query(w.db, f)
  {
    hide Select, PrincipalOf;
  }

  lemma LiveVisible(w: World, u: D.Uid)
    requires WorldOk(w) && LiveAt(w, u)
    ensures Visible(w, u) && u in w.hist.births && !View(u, Node(w, u)).status.revoked
    ensures GetByID(w.db, u) == Some(View(u, Node(w, u)))
  {
    hide FamiliesOk, MintsOk, PastOk, D.WellFormed, CoreOf;
    assert NodeOk(Node(w, u), w.hist.births, w.hist.succ, u);
  }

  lemma DeadRevoked(w: World, u: D.Uid)
    requires WorldOk(w) && Visible(w, u) && !LiveAt(w, u)
    ensures View(u, Node(w, u)).status.revoked
  {
    hide FamiliesOk, MintsOk, PastOk, D.WellFormed, CoreOf;
    assert NodeOk(Node(w, u), w.hist.births, w.hist.succ, u);
  }

  // --- Refreshing ------------------------------------------------------------------------------

  /** A rotation whose read is the latest commit does not abort. */
  lemma NothingSince(w: World, op: Op, pc: Pc)
    requires WorldOk(w) && op.RefreshOp? && pc.RotateOpen? && pc.startTs == w.db.ts
    ensures !RotationAborts(w, op, pc)
  {
    hide NodesOk, FamiliesOk, MintsOk, PastOk, RotationCore, QuadsOf;
  }

  lemma FindsRefresh(w: World, raw: string, u: D.Uid)
    requires WorldOk(w) && u in w.hist.births && LiveAt(w, u) && w.hist.births[u].core.refreshHash == Hash(raw)
    ensures LookupRefresh(w, raw) == Some(View(u, Node(w, u))) && GetByID(w.db, u) == Some(View(u, Node(w, u)))
    ensures !View(u, Node(w, u)).status.revoked && CoreOf(Node(w, u)) == w.hist.births[u].core
  {
    hide WorldOk, LiveAt, LookupRefresh;
    LiveVisible(w, u);
    FindsVisible(w, ByRefreshHash(Hash(raw)), u);
    NamedLookup(w, raw);
  }

  /** Lookup and check of the refresh token. */
  lemma RefreshToChecked(r: Trace, q: Pid, raw: string, u: D.Uid) returns (r2: Trace)
    requires q !in At(r).procs
    requires u in At(r).w.hist.births && LiveAt(At(r).w, u) && At(r).w.hist.births[u].core.refreshHash == Hash(raw)
    requires At(r).w.clock <= At(r).w.hist.births[u].core.refreshExpiresAt
    ensures r2.cfg == r.cfg && r2.start == r.start && At(r2).w == At(r).w && WorldOk(At(r).w)
    ensures At(r2).procs
         == At(r).procs[q := Proc(RefreshOp(raw, "", ""), Checked(View(u, Node(At(r).w, u)), At(r).w.clock))]
  {
    hide Run, FreshDraws, WorldOk, ProcOk, MintOf, LiveAt, GetByID, LookupRefresh, View;
    var op, step := RefreshOp(raw, "", ""), Act(q, NoFault, Draws([], [], []));
    var w := At(r).w;
    Reached(r);
    var x := View(u, Node(w, u));
    FindsRefresh(w, raw, u);
    ViewParts(w, u);
    Extend(r, Begin(q, op));
    var r1 := Then(r, [Begin(q, op)]);
    Extend(r1, step);
    var r3 := Then(r1, [step]);
    assert At(r3).w == w && At(r3).procs[q].pc == Looked(x);
    Extend(r3, step);
    r2 := Then(r3, [step]);
    assert At(r2).procs == At(r).procs[q := At(r2).procs[q]];
  }

  /** Mint `pause` later, and the read of the rotation. */
  lemma RefreshToOpen(r: Trace, q: Pid, raw: string, u: D.Uid, d: Draws, pause: nat) returns (r2: Trace)
    requires q !in At(r).procs && FreshDraws(At(r).w.hist.mints, d)
    requires u in At(r).w.hist.births && LiveAt(At(r).w, u) && At(r).w.hist.births[u].core.refreshHash == Hash(raw)
    requires At(r).w.clock <= At(r).w.hist.births[u].core.refreshExpiresAt
    ensures r2.cfg == r.cfg && r2.start == r.start
    ensures var s, t := At(r), At(r2);
      && Waits(s, t, q, RefreshOp(raw, "", "")) && t.w.hist.mints == s.w.hist.mints[q := d]
      && t.w.clock == s.w.clock + pause
      && var pc := t.procs[q].pc;
         pc.RotateOpen? && pc.x.id == u && pc.mint == MintOf(d) && pc.startTs == t.w.db.ts
         && pc.at == t.w.clock && pc.checkedAt == s.w.clock
  {
    hide Run, FreshDraws, WorldOk, ProcOk, MintOf, LiveAt, GetByID, View;
    var w, step := At(r).w, Act(q, NoFault, d);
    var x := View(u, Node(w, u));
    var r4 := RefreshToChecked(r, q, raw, u);
    FindsRefresh(w, raw, u);
    ViewParts(w, u);
    var rp := Pause(r4, pause);
    Extend(rp, step);
    var r5 := Then(rp, [step]);
    assert At(r5).w.db == w.db && At(r5).procs[q].pc == RotateReady(x, MintOf(d), w.clock + pause, w.clock);
    Extend(r5, step);
    r2 := Then(r5, [step]);
  }

  lemma NamedLookup(w: World, raw: string)
    ensures LookupRefresh(w, raw) == QueryOne(w.db, ByRefreshHash(Hash(raw)))
    ensures Lookup(w, raw) == QueryOne(w.db, ByAccessHash(Hash(raw)))
  {
    hide QueryOne;
  }

  lemma ViewParts(w: World, u: D.Uid)
    ensures View(u, Node(w, u)).id == u && View(u, Node(w, u)).core == CoreOf(Node(w, u))
  {
    hide CoreOf, StatusOf;
  }

  /** The commit of a rotation that nothing stands against, and its read-back. */
  lemma CommitOpen(r: Trace, q: Pid, d: Draws) returns (r2: Trace)
    requires q in At(r).procs && At(r).procs[q].op.RefreshOp? && At(r).procs[q].pc.RotateOpen?
    requires !RotationAborts(At(r).w, At(r).procs[q].op, At(r).procs[q].pc)
    requires At(r).procs[q].pc.mint == MintOf(d) && q in At(r).w.hist.mints && At(r).w.hist.mints[q] == d
    ensures r2.cfg == r.cfg && r2.start == r.start
    ensures var s, t := At(r), At(r2);
      var v, pc := s.w.db.nextUid, s.procs[q].pc;
      && Added(s, t, q, d, v) && t.w.db.ts == s.w.db.ts + 1 && t.w.clock == s.w.clock && t.procs[q].op == s.procs[q].op
      && pc.x.id in s.w.hist.births && !LiveAt(t.w, pc.x.id) && (Visible(s.w, pc.x.id) ==> Visible(t.w, pc.x.id))
      && (forall u :: u in s.w.hist.births && u != pc.x.id ==> Node(t.w, u) == Node(s.w, u))
      && var b := t.w.hist.births[v];
         b.core.who == s.w.hist.births[pc.x.id].core.who && b.bornTs == s.w.db.ts + 1
         && b.root == s.w.hist.births[pc.x.id].root && b.origin == Rotated(pc.x.id)
         && b.mintedAt == pc.at && b.lag == pc.at - pc.checkedAt
  {
    hide Run, FreshDraws, WorldOk, ProcOk, MintOf, Apply, LiveAt, RotationAborts, CommitRotate, RotationCore;
    hide Visible, Node;
    var s := At(r);
    var op, pc, act := s.procs[q].op, s.procs[q].pc, Act(q, NoFault, d);
    Reached(r);
    assert ProcOk(s.w, q, op, pc);
    Extend(r, act);
    var r1 := Then(r, [act]);
    assert At(r1).procs[q].pc == Created(pc.mint, s.w.db.nextUid);
    RotatedNow(s.w, q, op, pc);
    Extend(r1, act);
    r2 := Then(r1, [act]);
    assert At(r2).w == At(r1).w;
    assert s.w.hist.mints[q := d] == s.w.hist.mints;
    NewBelow(s.w);
    hide GetByID;
  }

  lemma RotatedNow(w: World, q: Pid, op: Op, pc: Pc)
    requires WorldOk(w) && ProcOk(w, q, op, pc) && op.RefreshOp? && pc.RotateOpen? && !RotationAborts(w, op, pc)
    ensures var t := CommitRotate(w, q, pc.x.id, RotationCore(w, op, pc), pc.at, pc.at - pc.checkedAt);
      var v, u := w.db.nextUid, pc.x.id;
      && u in w.hist.births && LiveAt(t, v) && !LiveAt(t, u) && (Visible(w, u) ==> Visible(t, u))
      && t.db.nextUid == v + 1 && t.db.ts == w.db.ts + 1
      && (forall x :: x in w.hist.births && x != u ==> Node(t, x) == Node(w, x))
      && t.hist.births == w.hist.births[v := t.hist.births[v]] && t.hist.mints == w.hist.mints
      && t.cfg == w.cfg && t.clock == w.clock
      && var b := t.hist.births[v];
         b.core.who == w.hist.births[u].core.who && b.bornTs == w.db.ts + 1 && b.root == w.hist.births[u].root
         && b.origin == Rotated(u) && b.maker == q && b.mintedAt == pc.at && b.lag == pc.at - pc.checkedAt
         && b.core.accessHash == Hash(pc.mint.access) && b.core.refreshHash == Hash(pc.mint.refresh)
  {
    hide WorldOk, RotationAborts, LiveAt, MintOf, Visible, Node, Apply;
    CommitReady(w, q, op, pc);
    var core := RotationCore(w, op, pc);
    hide RotationReady;
    BornParent(w, q, pc.x.id, core, pc.at, pc.at - pc.checkedAt);
    RenewNodes(w, q, pc.x.id, core, pc.at, pc.at - pc.checkedAt);
    ReplacedDead(w, q, pc.x.id, core, pc.at, pc.at - pc.checkedAt);
    RotationShape(w, op, pc);
    hide ProcOk;
  }

  lemma RotationShape(w: World, op: Op, pc: Pc)
    requires op.RefreshOp? && pc.RotateOpen?
    ensures RotationCore(w, op, pc).who == pc.prev.core.who
    ensures RotationCore(w, op, pc).accessHash == Hash(pc.mint.access)
    ensures RotationCore(w, op, pc).refreshHash == Hash(pc.mint.refresh)
  {
  }

  lemma ReplacedDead(w: World, q: Pid, p: D.Uid, core: Core, at: int, lag: int)
    requires WorldOk(w) && RotationReady(w, q, p, core, at, lag)
    ensures var t := CommitRotate(w, q, p, core, at, lag);
      && !LiveAt(t, p) && (Visible(w, p) ==> Visible(t, p))
      && t.db.nextUid == w.db.nextUid + 1 && t.db.ts == w.db.ts + 1
  {
    hide FamiliesOk, MintsOk, PastOk, D.Extends, Apply, RotationReady, NodesOk;
    BornParent(w, q, p, core, at, lag);
    BornBelow(w, p);
    ApplyEffect(w.db, Rotate(p, w.clock, core), p);
    ApplyExtends(w.db, Rotate(p, w.clock, core));
    StatusReplaced(Node(w, p), w.clock, core.refreshJti);
    CoreKept(Node(w, p), ReplaceFields(w.clock, core.refreshJti));
    hide Typed, Live, ReplaceFields;
  }

  /** A whole refresh with nobody else moving. */
  lemma Refresh(r: Trace, q: Pid, raw: string, u: D.Uid, d: Draws, pause: nat) returns (r2: Trace)
    requires q !in At(r).procs && FreshDraws(At(r).w.hist.mints, d)
    requires u in At(r).w.hist.births && LiveAt(At(r).w, u) && At(r).w.hist.births[u].core.refreshHash == Hash(raw)
    requires At(r).w.clock <= At(r).w.hist.births[u].core.refreshExpiresAt
    ensures r2.cfg == r.cfg && r2.start == r.start
    ensures var s, t := At(r), At(r2);
      var v := s.w.db.nextUid;
      && Added(s, t, q, d, v) && t.w.db.ts == s.w.db.ts + 1 && t.w.clock == s.w.clock + pause
      && !LiveAt(t.w, u) && Visible(t.w, u)
      && (forall x :: x in s.w.hist.births && x != u ==> Node(t.w, x) == Node(s.w, x))
      && var b := t.w.hist.births[v];
         b.core.who == s.w.hist.births[u].core.who && b.bornTs == s.w.db.ts + 1 && b.root == s.w.hist.births[u].root
         && b.origin == Rotated(u) && b.mintedAt == s.w.clock + pause && b.lag == pause
  {
    hide Run, WorldOk, ProcOk, MintOf, LiveAt, FreshDraws, Added, RotationAborts, Visible, Node;
    var m := RefreshToOpen(r, q, raw, u, d, pause);
    Reached(r);
    LiveVisible(At(r).w, u);
    Reached(m);
    NothingSince(At(m).w, At(m).procs[q].op, At(m).procs[q].pc);
    SameVisible(At(r).w, At(m).w, u);
    r2 := CommitOpen(m, q, d);
    SameNodes(At(r).w, At(m).w);
    Joined(At(r), At(m), At(r2), q, d, At(r).w.db.nextUid);
  }

  lemma SameVisible(w: World, t: World, u: D.Uid)
    requires t.db == w.db
    ensures Visible(t, u) == Visible(w, u) && LiveAt(t, u) == LiveAt(w, u)
  {
  }

  lemma SameNodes(w: World, t: World)
    requires t.db == w.db
    ensures forall u :: Node(t, u) == Node(w, u)
  {
  }

  // --- Replay ----------------------------------------------------------------------------------

  /** A refresh with a spent token, up to the list of its bulk revocation. */
  lemma ReplayToSweep(r: Trace, q: Pid, raw: string, u: D.Uid, live: D.Uid) returns (r2: Trace)
    requires q !in At(r).procs && u in At(r).w.hist.births && live in At(r).w.hist.births
    requires At(r).w.hist.births[u].core.refreshHash == Hash(raw) && Visible(At(r).w, u) && !LiveAt(At(r).w, u)
    requires LiveAt(At(r).w, live)
    requires At(r).w.hist.births[live].core.who.userId == At(r).w.hist.births[u].core.who.userId
    ensures r2.cfg == r.cfg && r2.start == r.start
    ensures var s, t := At(r), At(r2);
      && Waits(s, t, q, RefreshOp(raw, "", "")) && t.w == s.w
      && t.procs[q].pc.Sweeping? && t.procs[q].pc.userId == s.w.hist.births[u].core.who.userId
      && t.procs[q].pc.listTs == s.w.db.ts
  {
    hide Run, WorldOk, ProcOk, LiveAt, LookupRefresh, View, Query, Visible;
    var op, step := RefreshOp(raw, "", ""), Act(q, NoFault, DrawsOf(0));
    var w := At(r).w;
    var user := w.hist.births[u].core.who.userId;
    Reached(r);
    FindsVisible(w, ByRefreshHash(Hash(raw)), u);
    DeadRevoked(w, u);
    var x := View(u, Node(w, u));
    assert LookupRefresh(w, raw) == Some(x) by { NamedLookup(w, raw); }
    ViewParts(w, u);
    ListsLive(w, user, live);
    Extend(r, Begin(q, op));
    var r1 := Then(r, [Begin(q, op)]);
    Extend(r1, step);
    var r3 := Then(r1, [step]);
    assert At(r3).w == w && At(r3).procs[q].pc == SweepReady(user);
    Extend(r3, step);
    r2 := Then(r3, [step]);
  }

  lemma ListsLive(w: World, user: string, u: D.Uid)
    requires WorldOk(w) && u in w.hist.births && LiveAt(w, u) && w.hist.births[u].core.who.userId == user
    ensures Query(w.db, LiveOf(user)) != []
  {
    hide Select, WorldOk, LiveAt;
    ListOk(w, user);
    BornPast(w, u);
    assert BornOf(w, user, w.db.ts, u);
  }

  lemma BornPast(w: World, u: D.Uid)
    requires WorldOk(w) && u in w.hist.births
    ensures w.hist.births[u].bornTs <= w.db.ts
  {
    hide NodesOk, FamiliesOk, MintsOk, D.WellFormed;
  }

  /** The write of the bulk revocation: what was committed after its list survives. */
  lemma FinishSweep(r: Trace, q: Pid) returns (r2: Trace)
    requires q in At(r).procs && At(r).procs[q].op.RefreshOp? && At(r).procs[q].pc.Sweeping?
    ensures r2.cfg == r.cfg && r2.start == r.start
    ensures var s, t := At(r), At(r2);
      var pc := s.procs[q].pc;
      && t.procs.Keys == s.procs.Keys && t.procs[q].pc == Done(Replayed(pc.userId, Some(pc.listTs)))
      && t.procs[q].op == s.procs[q].op && t.w.hist == s.w.hist
      && (forall u :: (u in s.w.hist.births && LiveAt(s.w, u) && s.w.hist.births[u].bornTs > pc.listTs
                       && s.w.hist.births[u].core.who.userId == pc.userId) ==> LiveAt(t.w, u))
  {
    hide Run, WorldOk, ProcOk, LiveAt, Query, Apply;
    var act := Act(q, NoFault, DrawsOf(0));
    SweepExact(r, q, NoFault, DrawsOf(0));
    Extend(r, act);
    r2 := Then(r, [act]);
  }

  // --- Activating a context ----------------------------------------------------------------------

  /** Lookup and check of an activation, which then is about to revoke. */
  lemma ActivateToRevoke(r: Trace, q: Pid, op: Op, u: D.Uid) returns (r2: Trace)
    requires q !in At(r).procs && op.ActivateOp? && u in At(r).w.hist.births && LiveAt(At(r).w, u)
    requires At(r).w.hist.births[u].core.accessHash == Hash(op.raw)
    requires At(r).w.clock <= At(r).w.hist.births[u].core.expiresAt
    ensures r2.cfg == r.cfg && r2.start == r.start
    ensures var s, t := At(r), At(r2);
      && Waits(s, t, q, op) && t.w == s.w
      && t.procs[q].pc.RevokeReady? && t.procs[q].pc.x.id == u && t.procs[q].pc.x.core == s.w.hist.births[u].core
  {
    hide Run, WorldOk, ProcOk, LiveAt, Lookup, View, Visible, QueryOne, CoreOf, StatusOf, GetByID, LookupRefresh, Query;
    var step := Act(q, NoFault, DrawsOf(0));
    var w := At(r).w;
    Reached(r);
    LiveVisible(w, u);
    FindsVisible(w, ByAccessHash(Hash(op.raw)), u);
    var x := View(u, Node(w, u));
    assert Lookup(w, op.raw) == Some(x) by { NamedLookup(w, op.raw); }
    ViewParts(w, u);
    Extend(r, Begin(q, op));
    var r1 := Then(r, [Begin(q, op)]);
    Extend(r1, step);
    var r3 := Then(r1, [step]);
    assert At(r3).w == w && At(r3).procs[q].pc == Looked(x);
    Extend(r3, step);
    r2 := Then(r3, [step]);
  }

  /** The rest of it: revoke, mint `pause` later, create. */
  lemma FinishActivation(r: Trace, q: Pid, d: Draws, pause: nat) returns (r2: Trace)
    requires q in At(r).procs && At(r).procs[q].op.ActivateOp? && At(r).procs[q].pc.RevokeReady?
    requires FreshDraws(At(r).w.hist.mints, d)
    ensures r2.cfg == r.cfg && r2.start == r.start
    ensures var s, t := At(r), At(r2);
      var v, x := s.w.db.nextUid, s.procs[q].pc.x;
      && Added(s, t, q, d, v) && t.w.clock == s.w.clock + pause && t.procs[q].op == s.procs[q].op
      && x.id in s.w.hist.births && x.core == s.w.hist.births[x.id].core
      && (forall u :: u in s.w.hist.births ==> (LiveAt(t.w, u) <==> LiveAt(s.w, u) && u != x.id))
      && var b := t.w.hist.births[v];
         b.core.who == Reactor(x, s.procs[q].op) && b.root == v && b.origin == Activated(x.id)
         && b.mintedAt == s.w.clock + pause && b.lag == 0
  {
    hide Run, WorldOk, ProcOk, LiveAt, FreshDraws, MintOf, Apply, Added, Reactor;
    var s := At(r);
    var op, x, act := s.procs[q].op, s.procs[q].pc.x, Act(q, NoFault, d);
    Reached(r);
    assert ProcOk(s.w, q, op, s.procs[q].pc);
    Extend(r, act);
    var r1 := Then(r, [act]);
    assert At(r1).w == Store(s.w, Revoke([x.id], s.w.clock)) && At(r1).procs[q].pc == Renew(x);
    RevokedNow(s.w, q, op, x);
    var rp := Pause(r1, pause);
    Extend(rp, act);
    var rm := Then(rp, [act]);
    SameLive(At(rp).w, At(r1).w);
    SameLive(At(rm).w, At(rp).w);
    assert At(rm).procs[q].pc
        == CreateReady(Reactor(x, op), op.permVersion, "", "", MintOf(d), s.w.clock + pause, Activated(x.id));
    r2 := CreateFrom(rm, q, d);
    Joined(s, At(rm), At(r2), q, d, s.w.db.nextUid);
  }

  lemma RevokedNow(w: World, q: Pid, op: Op, x: Session)
    requires WorldOk(w) && ProcOk(w, q, op, RevokeReady(x))
    ensures var t := Store(w, Revoke([x.id], w.clock));
      && x.id in w.hist.births && x.core == w.hist.births[x.id].core
      && t.db.nextUid == w.db.nextUid && (forall u :: LiveAt(t, u) <==> LiveAt(w, u) && u != x.id)
  {
    hide WorldOk, Apply, LiveAt;
    assert x.id in [x.id];
    SweepEffect(w, q, [x.id]);
    SweepGrounded(w, [x.id]);
    RevokeExtends(w, Revoke([x.id], w.clock));
  }

  lemma RevokeExtends(w: World, m: Mutation)
    requires WorldOk(w) && Grounded(w.db, m) && m.Revoke?
    ensures Apply(w.db, m).nextUid == w.db.nextUid
  {
    hide NodesOk, FamiliesOk, MintsOk, PastOk, D.Extends, Apply, Grounded;
    ApplyExtends(w.db, m);
  }

  lemma SameLive(w: World, t: World)
    requires t.db == w.db
    ensures forall u :: LiveAt(t, u) == LiveAt(w, u)
  {
  }

  /** A whole activation with nobody else moving. */
  lemma Activate(r: Trace, q: Pid, op: Op, u: D.Uid, d: Draws, pause: nat) returns (r2: Trace)
    requires q !in At(r).procs && op.ActivateOp? && u in At(r).w.hist.births && LiveAt(At(r).w, u)
    requires At(r).w.hist.births[u].core.accessHash == Hash(op.raw) && FreshDraws(At(r).w.hist.mints, d)
    requires At(r).w.clock <= At(r).w.hist.births[u].core.expiresAt
    ensures r2.cfg == r.cfg && r2.start == r.start
    ensures var s, t := At(r), At(r2);
      var v := s.w.db.nextUid;
      && Added(s, t, q, d, v) && t.w.clock == s.w.clock + pause && t.procs[q].op == op
      && (forall x :: x in s.w.hist.births ==> (LiveAt(t.w, x) <==> LiveAt(s.w, x) && x != u))
      && var b := t.w.hist.births[v];
         b.root == v && b.origin == Activated(u) && b.mintedAt == s.w.clock + pause && b.lag == 0
  {
    hide Run, LiveAt, FreshDraws, MintOf, Added, Reactor;
    var m := ActivateToRevoke(r, q, op, u);
    r2 := FinishActivation(m, q, d, pause);
    assert At(m).w.hist.mints[q := d] == At(r).w.hist.mints[q := d];
    Joined(At(r), At(m), At(r2), q, d, At(r).w.db.nextUid);
  }
}
