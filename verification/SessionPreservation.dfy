// Every step of every process keeps the invariant.

module SessionPreservation {
  import opened Times
  import opened OpaqueToken
  import opened Sessions
  import opened SessionStore
  import opened SessionProtocol
  import opened SessionInvariants
  import D = Dgraph

  // --- Steps that leave the store alone --------------------------------------------

  lemma DrawMints(births: Births, mints: map<Pid, Draws>, pid: Pid, d: Draws)
    requires MintsOk(births, mints) && pid !in mints && FreshDraws(mints, d)
    ensures MintsOk(births, mints[pid := d])
  {
    hide MintOf;
    hide ActivationOk;
    forall u | u in births ensures MakerOk(births, mints[pid := d], u) {
      assert MakerOk(births, mints, u);
    }
  }

  lemma DrawMoves(w: World, pid: Pid, d: Draws)
    requires WorldOk(w) && pid !in w.hist.mints && FreshDraws(w.hist.mints, d)
    ensures WorldOk(Draw(w, pid, d)) && Moves(w, Draw(w, pid, d), pid)
  {
    hide NodesOk, FamiliesOk, PastOk, D.WellFormed, FreshDraws, MakerOk, ActivationOk;
    DrawMints(w.hist.births, w.hist.mints, pid, d);
    hide MintsOk;
    DrawLater(w, pid, d);
    hide Moves;
  }

  lemma DrawLater(w: World, pid: Pid, d: Draws)
    requires pid !in w.hist.mints
    ensures Moves(w, Draw(w, pid, d), pid)
  {
    D.ExtendsRefl(w.db);
    hide D.Extends;
  }

  lemma TickMoves(w: World, elapsed: nat, pid: Pid)
    requires WorldOk(w)
    ensures var t := w.(clock := w.clock + elapsed); WorldOk(t) && Moves(w, t, pid)
  {
    D.ExtendsRefl(w.db);
    hide NodesOk, FamiliesOk, MintsOk, PastOk, D.WellFormed, D.Extends;
  }

  lemma SameMoves(w: World, pid: Pid)
    requires WorldOk(w)
    ensures Moves(w, w, pid)
  {
    D.ExtendsRefl(w.db);
    hide NodesOk, FamiliesOk, MintsOk, PastOk, D.WellFormed, D.Extends;
  }

  // --- Status writes -----------------------------------------------------------------

  lemma RevokeNode(n: D.Fields, births: Births, succ: Succ, u: D.Uid, now: int)
    requires NodeOk(n, births, succ, u)
    ensures var m := n + RevokeFields(now);
      NodeOk(m, births, succ, u) && Typed(m) == Typed(n) && !Live(m)
  {
    CoreKept(n, RevokeFields(now));
    StatusRevoked(n, now);
    hide CoreOf;
  }

  lemma TouchNode(n: D.Fields, births: Births, succ: Succ, u: D.Uid, now: int)
    requires NodeOk(n, births, succ, u)
    ensures var m := n + TouchFields(now);
      NodeOk(m, births, succ, u) && Typed(m) == Typed(n) && Live(m) == Live(n)
  {
    CoreKept(n, TouchFields(now));
    StatusTouched(n, now);
    hide CoreOf;
  }

  /** A store effect that creates nothing and revives nothing keeps everything. */
  lemma StatusMoves(w: World, m: Mutation, pid: Pid)
    requires WorldOk(w)
    requires m.Revoke? || m.Touch? || m.Purge?
    requires Grounded(w.db, m)
    requires forall u :: NodeOk(Effect(w.db, m, u), w.hist.births, w.hist.succ, u)
    requires forall u :: Live(Effect(w.db, m, u)) ==> LiveAt(w, u)
    requires forall u :: Typed(Effect(w.db, m, u)) ==> Visible(w, u)
    ensures WorldOk(Store(w, m)) && Moves(w, Store(w, m), pid)
  {
    hide NodeOk, FamiliesOk, MintsOk, D.Extends, Live, Typed;
    var t := Store(w, m);
    ApplyExtends(w.db, m);
    hide D.WellFormed, Apply, Grounded;
    forall u ensures D.NodeAt(t.db, u) == Effect(w.db, m, u) { ApplyEffect(w.db, m, u); }
    hide Effect;
  }

  lemma RevokeMoves(w: World, uids: seq<D.Uid>, pid: Pid)
    requires WorldOk(w)
    requires forall u :: u in uids ==> u in w.hist.births
    ensures var t := Store(w, Revoke(uids, w.clock));
      WorldOk(t) && Moves(w, t, pid) && (forall u :: LiveAt(t, u) <==> LiveAt(w, u) && u !in uids)
  {
    var m := Revoke(uids, w.clock);
    assert Grounded(w.db, m);
    forall u
      ensures NodeOk(Effect(w.db, m, u), w.hist.births, w.hist.succ, u)
      ensures Typed(Effect(w.db, m, u)) == Visible(w, u)
      ensures Live(Effect(w.db, m, u)) <==> LiveAt(w, u) && u !in uids
    {
      hide NodeOk;
      RevokeNode(Node(w, u), w.hist.births, w.hist.succ, u, w.clock);
    }
    StatusMoves(w, m, pid);
    forall u ensures LiveAt(Store(w, m), u) <==> LiveAt(w, u) && u !in uids { ApplyEffect(w.db, m, u); }
  }

  lemma TouchMoves(w: World, v: D.Uid, pid: Pid)
    requires WorldOk(w) && v in w.hist.births
    ensures WorldOk(Store(w, Touch(v, w.clock))) && Moves(w, Store(w, Touch(v, w.clock)), pid)
  {
    hide NodeOk, Live, Typed, TouchFields, FamiliesOk, MintsOk;
    var m := Touch(v, w.clock);
    forall u
      ensures NodeOk(Effect(w.db, m, u), w.hist.births, w.hist.succ, u)
      ensures Typed(Effect(w.db, m, u)) == Visible(w, u) && Live(Effect(w.db, m, u)) == LiveAt(w, u)
    {
      TouchNode(Node(w, u), w.hist.births, w.hist.succ, u, w.clock);
    }
    StatusMoves(w, m, pid);
  }

  lemma PurgeMoves(w: World, uids: seq<D.Uid>, pid: Pid)
    requires WorldOk(w)
    ensures WorldOk(Store(w, Purge(uids))) && Moves(w, Store(w, Purge(uids)), pid)
  {
    var m := Purge(uids);
    forall u
      ensures NodeOk(Effect(w.db, m, u), w.hist.births, w.hist.succ, u)
      ensures Typed(Effect(w.db, m, u)) ==> Visible(w, u)
      ensures Live(Effect(w.db, m, u)) ==> LiveAt(w, u)
    {
      assert NodeOk(Node(w, u), w.hist.births, w.hist.succ, u);
    }
    StatusMoves(w, m, pid);
  }

  // --- Births --------------------------------------------------------------------------

  lemma NodeGrows(n: D.Fields, births: Births, succ: Succ, u: D.Uid, v: D.Uid, b: Birth)
    requires NodeOk(n, births, succ, u) && v !in births
    requires u in succ ==> succ[u] in births
    ensures NodeOk(n, births[v := b], succ, u)
  {
    hide CoreOf, StatusOf;
  }

  lemma NewNode(births: Births, succ: Succ, u: D.Uid, core: Core)
    requires u in births && births[u].core == Stored(core) && u !in succ
    ensures NodeOk(NewFields(core), births, succ, u) && Live(NewFields(core)) && Typed(NewFields(core))
  {
    ReadBack(u, core);
    NewKeyed(core);
    hide CoreOf, StatusOf, NewFields;
  }

  lemma FamilyMemberGrows(cfg: Config, births: Births, succ: Succ, u: D.Uid, v: D.Uid, b: Birth)
    requires u in births && v !in births
    requires RootOk(births, u) && OriginOk(cfg, births, succ, u)
    ensures RootOk(births[v := b], u) && OriginOk(cfg, births[v := b], succ, u)
  {
  }

  lemma FamiliesGrow(cfg: Config, h: History, v: D.Uid, b: Birth)
    requires FamiliesOk(cfg, h.births, h.succ, h.tails)
    requires v !in h.births && b.root == v && !b.origin.Rotated? && b.lag == 0
    requires b.core.expiresAt == Trunc(b.mintedAt + cfg.AccessTTL())
    requires b.core.refreshExpiresAt == Trunc(b.mintedAt + cfg.RefreshTTL())
    ensures FamiliesOk(cfg, h.births[v := b], h.succ, h.tails[v := v])
  {
    hide RootOk, OriginOk;
    var births, tails := h.births[v := b], h.tails[v := v];
    forall u | u in births
      ensures RootOk(births, u) && OriginOk(cfg, births, h.succ, u) && TailOk(births, h.succ, tails, u)
    {
      if u == v {
        FirstMember(cfg, h.births, h.succ, v, b);
      } else {
        FamilyMemberGrows(cfg, h.births, h.succ, u, v, b);
        RootIn(h.births, u);
        assert TailOk(h.births, h.succ, h.tails, u);
      }
    }
  }

  lemma RootIn(births: Births, u: D.Uid)
    requires u in births && RootOk(births, u)
    ensures births[u].root in births
  {
  }

  lemma FirstMember(cfg: Config, births: Births, succ: Succ, v: D.Uid, b: Birth)
    requires b.root == v && !b.origin.Rotated? && b.lag == 0
    requires b.core.expiresAt == Trunc(b.mintedAt + cfg.AccessTTL())
    requires b.core.refreshExpiresAt == Trunc(b.mintedAt + cfg.RefreshTTL())
    ensures RootOk(births[v := b], v) && OriginOk(cfg, births[v := b], succ, v)
  {
  }

  lemma MintsGrow(births: Births, mints: map<Pid, Draws>, v: D.Uid, b: Birth)
    requires MintsOk(births, mints) && v !in births
    requires forall u :: u in births ==> births[u].maker != b.maker
    requires MakerOk(births[v := b], mints, v) && ActivationOk(births[v := b], v)
    ensures MintsOk(births[v := b], mints)
  {
    hide MintOf;
    forall u | u in births ensures MakerOk(births[v := b], mints, u) && ActivationOk(births[v := b], u) {
      assert MakerOk(births, mints, u) && ActivationOk(births, u);
    }
  }

  lemma CreateNodes(w: World, core: Core, b: Birth)
    requires WorldOk(w) && b.core == Stored(core)
    ensures NodesOk(Apply(w.db, Create(core)), w.hist.births[w.db.nextUid := b], w.hist.succ)
    ensures forall u :: u in w.hist.births ==>
      D.NodeAt(Apply(w.db, Create(core)), u) == Node(w, u)
  {
    hide NodeOk, RootOk, OriginOk, TailOk, MintsOk, Apply, NewFields;
    var births, v := w.hist.births, w.db.nextUid;
    var db := Apply(w.db, Create(core));
    forall u ensures NodeOk(D.NodeAt(db, u), births[v := b], w.hist.succ, u) {
      ApplyEffect(w.db, Create(core), u);
      if u == v {
        NewNode(births[v := b], w.hist.succ, v, core);
      } else {
        NodeGrows(Node(w, u), births, w.hist.succ, u, v, b);
      }
    }
    forall u | u in births ensures D.NodeAt(db, u) == Node(w, u) { ApplyEffect(w.db, Create(core), u); }
  }

  ghost predicate CoreReady(w: World, pid: Pid, core: Core) {
    && pid in w.hist.mints
    && core.accessHash == Hash(MintOf(w.hist.mints[pid]).access)
    && core.refreshHash == Hash(MintOf(w.hist.mints[pid]).refresh)
    && core.refreshJti == MintOf(w.hist.mints[pid]).jti
  }

  /** Births added by a mutation whose nodes keep every older session as it was. */
  lemma BirthLater(w: World, t: World, pid: Pid, v: D.Uid, b: Birth)
    requires WorldOk(w) && v == w.db.nextUid && b.bornTs == w.db.ts + 1 && b.maker == pid
    requires t.cfg == w.cfg && t.clock == w.clock && D.Extends(w.db, t.db)
    requires t.hist.births == w.hist.births[v := b] && t.hist.mints == w.hist.mints
    requires forall p :: p in w.hist.succ ==> p in t.hist.succ && t.hist.succ[p] == w.hist.succ[p]
    requires forall u :: u in w.hist.births && LiveAt(t, u) ==> LiveAt(w, u)
    requires forall u :: u in w.hist.births && Visible(t, u) ==> Visible(w, u)
    ensures Moves(w, t, pid)
  {
    hide NodesOk, FamiliesOk, MintsOk, D.Extends, D.WellFormed, Live, Typed;
  }

  lemma CreateMoves(w: World, pid: Pid, core: Core, origin: Origin, at: int)
    requires WorldOk(w) && Unborn(w, pid) && OriginReady(w, origin, core.who) && CoreReady(w, pid, core)
    requires core.expiresAt == at + w.cfg.AccessTTL() && core.refreshExpiresAt == at + w.cfg.RefreshTTL()
    ensures WorldOk(CommitCreate(w, pid, core, origin, at)) && Moves(w, CommitCreate(w, pid, core, origin, at), pid)
  {
    hide NodeOk, RootOk, OriginOk, TailOk, MakerOk, MintOf, D.Extends, Apply, Live, Typed;
    var v := w.db.nextUid;
    var b := Birth(Stored(core), origin, v, w.db.ts + 1, pid, at, 0);
    var t := CommitCreate(w, pid, core, origin, at);
    assert v !in w.hist.births;
    CreateNodes(w, core, b);
    ApplyExtends(w.db, Create(core));
    hide D.WellFormed, NodesOk;
    BirthLater(w, t, pid, v, b);
    CreateMaker(w, pid, core, b);
    hide CoreReady;
    FamiliesGrow(w.cfg, w.hist, v, b);
    hide FamiliesOk;
    MintsGrow(w.hist.births, w.hist.mints, v, b);
    hide MintsOk;
    CreatePast(w, t, v, b);
    hide PastOk, Moves;
  }

  lemma CreatePast(w: World, t: World, v: D.Uid, b: Birth)
    requires PastOk(w.db, w.hist.births, w.hist.succ)
    requires forall p :: p in w.hist.succ ==> p in w.hist.births
    requires forall u :: u in w.hist.births && w.hist.births[u].origin.Activated? ==>
      w.hist.births[u].origin.parent in w.hist.births
    requires v == w.db.nextUid && b.bornTs == w.db.ts + 1 && OriginReady(w, b.origin, b.core.who)
    requires t.db.nextUid == v + 1 && t.db.ts == w.db.ts + 1
    requires forall u :: u in w.hist.births ==> Node(t, u) == Node(w, u)
    ensures PastOk(t.db, w.hist.births[v := b], w.hist.succ)
  {
    hide Live;
  }

  lemma CreateMaker(w: World, pid: Pid, core: Core, b: Birth)
    requires OriginReady(w, b.origin, core.who) && PastOk(w.db, w.hist.births, w.hist.succ) && CoreReady(w, pid, core)
    requires b.core == Stored(core) && b.maker == pid
    ensures MakerOk(w.hist.births[w.db.nextUid := b], w.hist.mints, w.db.nextUid)
    ensures ActivationOk(w.hist.births[w.db.nextUid := b], w.db.nextUid)
  {
    hide MintOf;
  }

  // --- Rotation ------------------------------------------------------------------------

  lemma ReplacedNode(n: D.Fields, births: Births, succ: Succ, u: D.Uid, v: D.Uid, b: Birth, now: int)
    requires NodeOk(n, births, succ, u) && v !in births && u !in succ
    ensures var m := n + ReplaceFields(now, b.core.refreshJti);
      NodeOk(m, births[v := b], succ[u := v], u) && Typed(m) == Typed(n) && !Live(m)
  {
    CoreKept(n, ReplaceFields(now, b.core.refreshJti));
    StatusReplaced(n, now, b.core.refreshJti);
    hide CoreOf;
  }

  lemma OtherNode(n: D.Fields, births: Births, succ: Succ, u: D.Uid, p: D.Uid, v: D.Uid, b: Birth)
    requires NodeOk(n, births, succ, u) && v !in births && u != p
    requires u in succ ==> succ[u] in births
    ensures NodeOk(n, births[v := b], succ[p := v], u)
  {
    hide CoreOf, StatusOf;
  }

  lemma RotateNodes(w: World, p: D.Uid, core: Core, b: Birth)
    requires WorldOk(w) && b.core == Stored(core) && p in w.hist.births && p !in w.hist.succ
    ensures var v := w.db.nextUid;
      NodesOk(Apply(w.db, Rotate(p, w.clock, core)), w.hist.births[v := b], w.hist.succ[p := v])
    ensures !Live(D.NodeAt(Apply(w.db, Rotate(p, w.clock, core)), p))
    ensures Typed(D.NodeAt(Apply(w.db, Rotate(p, w.clock, core)), p)) == Visible(w, p)
    ensures forall u :: u in w.hist.births && u != p ==>
      D.NodeAt(Apply(w.db, Rotate(p, w.clock, core)), u) == Node(w, u)
  {
    hide NodeOk, RootOk, OriginOk, TailOk, MintsOk, Apply, NewFields, ReplaceFields, Live, Typed;
    var births, succ, v, m := w.hist.births, w.hist.succ, w.db.nextUid, Rotate(p, w.clock, core);
    forall u ensures NodeOk(D.NodeAt(Apply(w.db, m), u), births[v := b], succ[p := v], u) {
      ApplyEffect(w.db, m, u);
      if u == v {
        NewNode(births[v := b], succ[p := v], v, core);
      } else if u == p {
        ReplacedNode(Node(w, p), births, succ, p, v, b, w.clock);
      } else {
        OtherNode(Node(w, u), births, succ, u, p, v, b);
      }
    }
    ApplyEffect(w.db, m, p);
    ReplacedNode(Node(w, p), births, succ, p, v, b, w.clock);
    forall u | u in births && u != p ensures D.NodeAt(Apply(w.db, m), u) == Node(w, u) { ApplyEffect(w.db, m, u); }
  }

  lemma RotatedMember(cfg: Config, births: Births, succ: Succ, u: D.Uid, p: D.Uid, v: D.Uid, b: Birth)
    requires u in births && v !in births && p !in succ
    requires RootOk(births, u) && OriginOk(cfg, births, succ, u)
    ensures RootOk(births[v := b], u) && OriginOk(cfg, births[v := b], succ[p := v], u)
  {
  }

  /** The newborn belongs to the family of the session it replaces. */
  ghost predicate Replaces(births: Births, b: Birth, p: D.Uid) {
    && p in births
    && b.origin == Rotated(p) && b.root == births[p].root && births[p].bornTs < b.bornTs
    && b.core.who == births[p].core.who && b.core.permVersion == births[p].core.permVersion
    && b.core.refreshExpiresAt == births[p].core.refreshExpiresAt
    && b.lag >= 0 && b.mintedAt - b.lag <= b.core.refreshExpiresAt
  }

  lemma NewestMember(cfg: Config, births: Births, succ: Succ, p: D.Uid, v: D.Uid, b: Birth)
    requires Replaces(births, b, p) && p < v && v !in births && RootOk(births, p)
    requires b.core.expiresAt == Trunc(b.mintedAt + cfg.AccessTTL())
    ensures RootOk(births[v := b], v) && OriginOk(cfg, births[v := b], succ[p := v], v)
  {
  }

  lemma FamiliesRotate(cfg: Config, h: History, p: D.Uid, v: D.Uid, b: Birth)
    requires FamiliesOk(cfg, h.births, h.succ, h.tails)
    requires Replaces(h.births, b, p) && p !in h.succ && p < v && v !in h.births
    requires b.core.expiresAt == Trunc(b.mintedAt + cfg.AccessTTL())
    ensures FamiliesOk(cfg, h.births[v := b], h.succ[p := v], h.tails[b.root := v])
  {
    hide RootOk, OriginOk;
    var births, succ, tails := h.births[v := b], h.succ[p := v], h.tails[b.root := v];
    assert TailOk(h.births, h.succ, h.tails, p);
    forall u | u in births
      ensures RootOk(births, u) && OriginOk(cfg, births, succ, u) && TailOk(births, succ, tails, u)
    {
      if u == v {
        NewestMember(cfg, h.births, h.succ, p, v, b);
      } else {
        RotatedMember(cfg, h.births, h.succ, u, p, v, b);
        assert TailOk(h.births, h.succ, h.tails, u);
      }
    }
  }

  lemma RotatePast(w: World, t: World, p: D.Uid, v: D.Uid, b: Birth)
    requires PastOk(w.db, w.hist.births, w.hist.succ)
    requires forall q :: q in w.hist.succ ==> q in w.hist.births
    requires forall u :: u in w.hist.births && w.hist.births[u].origin.Activated? ==>
      w.hist.births[u].origin.parent in w.hist.births
    requires v == w.db.nextUid && b.bornTs == w.db.ts + 1 && b.origin.Rotated?
    requires t.db.nextUid == v + 1 && t.db.ts == w.db.ts + 1
    requires !LiveAt(t, p)
    requires forall u :: u in w.hist.births && u != p ==> Node(t, u) == Node(w, u)
    ensures PastOk(t.db, w.hist.births[v := b], w.hist.succ[p := v])
  {
    hide Live;
  }

  ghost predicate RotationReady(w: World, pid: Pid, p: D.Uid, core: Core, at: int, lag: int) {
    && Unborn(w, pid) && CoreReady(w, pid, core)
    && p in w.hist.births && LiveAt(w, p)
    && core.who == w.hist.births[p].core.who && core.permVersion == w.hist.births[p].core.permVersion
    && core.refreshExpiresAt == w.hist.births[p].core.refreshExpiresAt
    && core.expiresAt == at + w.cfg.AccessTTL()
    && lag >= 0 && at - lag <= core.refreshExpiresAt
  }

  function RotationBirth(w: World, pid: Pid, p: D.Uid, core: Core, at: int, lag: int): Birth
    requires p in w.hist.births
  {
    Birth(Stored(core), Rotated(p), w.hist.births[p].root, w.db.ts + 1, pid, at, lag)
  }

  lemma RotateMoves(w: World, pid: Pid, p: D.Uid, core: Core, at: int, lag: int)
    requires WorldOk(w) && RotationReady(w, pid, p, core, at, lag)
    ensures WorldOk(CommitRotate(w, pid, p, core, at, lag)) && Moves(w, CommitRotate(w, pid, p, core, at, lag), pid)
  {
    RotateLater(w, pid, p, core, at, lag);
    RotateStore(w, pid, p, core, at, lag);
    RotateHistory(w, pid, p, core, at, lag);
    hide RotationReady, Moves, NodesOk, PastOk, D.WellFormed, FamiliesOk, MintsOk, Apply;
  }

  lemma RotateStore(w: World, pid: Pid, p: D.Uid, core: Core, at: int, lag: int)
    requires WorldOk(w) && RotationReady(w, pid, p, core, at, lag)
    ensures var t := CommitRotate(w, pid, p, core, at, lag);
      NodesOk(t.db, t.hist.births, t.hist.succ) && PastOk(t.db, t.hist.births, t.hist.succ) && D.WellFormed(t.db)
  {
    hide NodeOk, RootOk, OriginOk, TailOk, D.Extends, Apply, Live, Typed, CoreReady, Unborn, MakerOk;
    var v, b := w.db.nextUid, RotationBirth(w, pid, p, core, at, lag);
    var t := CommitRotate(w, pid, p, core, at, lag);
    assert v !in w.hist.births && p !in w.hist.succ;
    RotateNodes(w, p, core, b);
    ApplyExtends(w.db, Rotate(p, w.clock, core));
    hide D.WellFormed, NodesOk;
    RotatePast(w, t, p, v, b);
    hide FamiliesOk, MintsOk, PastOk;
  }

  lemma NewAndUnreplaced(w: World, p: D.Uid)
    requires WorldOk(w) && LiveAt(w, p)
    ensures w.db.nextUid !in w.hist.births && p !in w.hist.succ && (p in w.hist.births ==> p < w.db.nextUid)
  {
    hide NodesOk, D.WellFormed, FamiliesOk, MintsOk, Live;
  }

  lemma RotateHistory(w: World, pid: Pid, p: D.Uid, core: Core, at: int, lag: int)
    requires WorldOk(w) && RotationReady(w, pid, p, core, at, lag)
    ensures var t := CommitRotate(w, pid, p, core, at, lag);
      FamiliesOk(t.cfg, t.hist.births, t.hist.succ, t.hist.tails) && MintsOk(t.hist.births, t.hist.mints)
  {
    hide NodesOk, D.WellFormed, FamiliesOk, MintsOk, PastOk, Apply, LiveAt, CoreReady, Replaces, MakerOk;
    hide ActivationOk, Unborn;
    var v, b := w.db.nextUid, RotationBirth(w, pid, p, core, at, lag);
    NewAndUnreplaced(w, p);
    RotationReplaces(w, p, core, b);
    RotateMaker(w, pid, core, b);
    FamiliesRotate(w.cfg, w.hist, p, v, b);
    RotateMints(w, pid, v, b);
  }

  lemma RotateLater(w: World, pid: Pid, p: D.Uid, core: Core, at: int, lag: int)
    requires WorldOk(w) && RotationReady(w, pid, p, core, at, lag)
    ensures Moves(w, CommitRotate(w, pid, p, core, at, lag), pid)
  {
    hide NodeOk, RootOk, OriginOk, TailOk, MakerOk, MintsOk, D.Extends, Apply, Live, Typed, CoreReady, Unborn;
    var v := w.db.nextUid;
    var b := Birth(Stored(core), Rotated(p), w.hist.births[p].root, w.db.ts + 1, pid, at, lag);
    var t := CommitRotate(w, pid, p, core, at, lag);
    assert v !in w.hist.births && p !in w.hist.succ;
    RotateNodes(w, p, core, b);
    ApplyExtends(w.db, Rotate(p, w.clock, core));
    hide D.WellFormed, NodesOk, FamiliesOk, PastOk;
    BirthLater(w, t, pid, v, b);
    hide Moves;
  }

  lemma RotateMints(w: World, pid: Pid, v: D.Uid, b: Birth)
    requires MintsOk(w.hist.births, w.hist.mints) && Unborn(w, pid) && b.maker == pid && v !in w.hist.births
    requires MakerOk(w.hist.births[v := b], w.hist.mints, v) && ActivationOk(w.hist.births[v := b], v)
    ensures MintsOk(w.hist.births[v := b], w.hist.mints)
  {
    hide MintsOk, MakerOk, ActivationOk;
    MintsGrow(w.hist.births, w.hist.mints, v, b);
  }

  lemma RotationReplaces(w: World, p: D.Uid, core: Core, b: Birth)
    requires WorldOk(w) && p in w.hist.births && b.core == Stored(core)
    requires b.origin == Rotated(p) && b.root == w.hist.births[p].root && b.bornTs == w.db.ts + 1
    requires core.who == w.hist.births[p].core.who && core.permVersion == w.hist.births[p].core.permVersion
    requires core.refreshExpiresAt == w.hist.births[p].core.refreshExpiresAt
    requires b.lag >= 0 && b.mintedAt - b.lag <= core.refreshExpiresAt
    ensures Replaces(w.hist.births, b, p)
  {
    hide NodesOk, MintsOk, D.WellFormed;
    StoredDeadline(w.cfg, w.hist, p);
    hide FamiliesOk, Trunc;
  }

  lemma RotateMaker(w: World, pid: Pid, core: Core, b: Birth)
    requires CoreReady(w, pid, core) && b.core == Stored(core) && b.maker == pid && b.origin.Rotated?
    ensures MakerOk(w.hist.births[w.db.nextUid := b], w.hist.mints, w.db.nextUid)
    ensures ActivationOk(w.hist.births[w.db.nextUid := b], w.db.nextUid)
  {
    hide MintOf;
  }

  /** A stored deadline is in whole seconds, so passing it on does not move it. */
  lemma StoredDeadline(cfg: Config, h: History, u: D.Uid)
    requires FamiliesOk(cfg, h.births, h.succ, h.tails) && u in h.births
    ensures Trunc(h.births[u].core.refreshExpiresAt) == h.births[u].core.refreshExpiresAt
  {
    hide TailOk;
    var r := h.births[u].root;
    assert RootOk(h.births, u);
    RootDeadline(cfg, h.births, h.succ, r);
  }

  lemma RootDeadline(cfg: Config, births: Births, succ: Succ, r: D.Uid)
    requires r in births && OriginOk(cfg, births, succ, r) && !births[r].origin.Rotated?
    ensures Trunc(births[r].core.refreshExpiresAt) == births[r].core.refreshExpiresAt
  {
    TruncIdempotent(births[r].mintedAt + cfg.RefreshTTL());
  }
}
