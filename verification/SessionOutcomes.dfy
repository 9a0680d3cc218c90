// What the answers of the session service are worth.

module SessionOutcomes {
  import opened Prelude
  import opened OpaqueToken
  import opened Sessions
  import opened SessionStore
  import opened SessionProtocol
  import opened SessionInvariants
  import opened SessionSteps
  import opened SessionTheorems
  import opened SessionSafety
  import opened SessionMeaning
  import D = Dgraph

  // --- Tokens handed out -----------------------------------------------------------------

  lemma MintedFor(w: World, p: Pid, op: Op, m: Mint, u: D.Uid)
    requires WorldOk(w) && MadeBy(w, p, op, u) && HasMint(w, p, m)
    ensures w.hist.births[u].core.accessHash == Hash(m.access) && w.hist.births[u].core.refreshHash == Hash(m.refresh)
  {
    hide NodesOk, FamiliesOk, PastOk, D.WellFormed, MintOf, ActivationOk;
    assert MakerOk(w.hist.births, w.hist.mints, u);
  }

  lemma AcceptedIff(w: World, raw: string, u: D.Uid)
    requires WorldOk(w) && u in w.hist.births && w.hist.births[u].core.accessHash == Hash(raw)
    ensures Accepts(w, raw) <==> LiveAt(w, u) && w.clock <= w.hist.births[u].core.expiresAt
  {
    hide WorldOk, Accepts, LiveAt, Visible, Hash;
    if Accepts(w, raw) {
      var v := AcceptsGood(w, raw);
      if u != v {
        DistinctTokens(w, u, v);
      }
    }
    if LiveAt(w, u) && w.clock <= w.hist.births[u].core.expiresAt {
      LiveIsTail(w, u);
      GoodAccepts(w, raw, u);
    }
  }

  /** The access token a client was given is accepted exactly while its session
      is live and not expired, for as long as the run goes on. */
  lemma IssuedTokenIff(r: Trace, p: Pid)
    requires p in At(r).procs && At(r).procs[p].pc.Done? && At(r).procs[p].pc.outcome.Tokens?
    ensures var w, o := At(r).w, At(r).procs[p].pc.outcome;
      && o.uid in w.hist.births
      && (Accepts(w, o.mint.access) <==> LiveAt(w, o.uid) && w.clock <= w.hist.births[o.uid].core.expiresAt)
  {
    hide Run, WorldOk, Accepts, LiveAt, MintOf;
    Reached(r);
    var s := At(r);
    assert ProcOk(s.w, p, s.procs[p].op, s.procs[p].pc);
    var o := s.procs[p].pc.outcome;
    MintedFor(s.w, p, s.procs[p].op, o.mint, o.uid);
    AcceptedIff(s.w, o.mint.access, o.uid);
  }

  // --- Following one process through a run -------------------------------------------------

  /** An assertion about one process that its own steps establish and that later
      worlds keep holds at the end of every run. */
  ghost predicate Tracked(s: State, p: Pid, u: D.Uid) {
    p in s.procs ==> Ends(s.w, s.procs[p].op, s.procs[p].pc, u)
  }

  /** The operation is aimed at session `u`. */
  predicate Targets(op: Op, core: Core, u: D.Uid) {
    match op
    case LogoutOp(raw) => core.accessHash == Hash(raw)
    case ActivateOp(raw, _, _, _, _, _, _) => core.accessHash == Hash(raw)
    case RevokeOp(id, _) => id == u
    case _ => false
  }

  /** Whatever it has in hand is `u`, and once it reports success `u` is dead. */
  ghost predicate Ends(w: World, op: Op, pc: Pc, u: D.Uid) {
    u in w.hist.births &&
    (Targets(op, w.hist.births[u].core, u) ==>
       match pc
       case Looked(x) => x.id == u
       case RevokeReady(x) => x.id == u
       case Renew(x) => !LiveAt(w, u)
       case CreateReady(_, _, _, _, _, _, _) => !LiveAt(w, u)
       case Created(_, _) => !LiveAt(w, u)
       case Done(o) => o.LoggedOut? || o.Tokens? ==> !LiveAt(w, u)
       case _ => true)
  }

  lemma EndsLater(w: World, t: World, op: Op, pc: Pc, u: D.Uid)
    requires Later(w, t) && Ends(w, op, pc, u)
    ensures Ends(t, op, pc, u)
  {
    hide D.Extends, LiveAt, Targets, Visible;
  }

  lemma FoundIsTarget(w: World, raw: string, u: D.Uid)
    requires WorldOk(w) && u in w.hist.births && w.hist.births[u].core.accessHash == Hash(raw)
    ensures var found := Lookup(w, raw);
      (found.Some? ==> found.value.id == u) && (found.None? ==> !LiveAt(w, u))
  {
    hide WorldOk, Select, LiveAt, CoreOf, StatusOf, Visible;
    var f := ByAccessHash(Hash(raw));
    var found := Query(w.db, f);
    if found != [] {
      assert found[0] in found;
      Matched(w, f, found[0]);
      if found[0] != u {
        DistinctTokens(w, found[0], u);
      }
    } else if LiveAt(w, u) {
      LiveListed(w, f, u);
    }
  }

  lemma LiveListed(w: World, f: Filter, u: D.Uid)
    requires WorldOk(w) && LiveAt(w, u) && u in w.hist.births
    requires f.ByAccessHash? && f.hash.Sha256? && w.hist.births[u].core.accessHash == f.hash
    ensures u in Query(w.db, f)
  {
    hide WorldOk, Select, LiveAt, PrincipalOf;
    LiveIsTail(w, u);
    StoredCore(w, u);
    VisibleBelow(w, u);
  }

  lemma ByIdIsTarget(w: World, u: D.Uid)
    requires WorldOk(w) && u in w.hist.births
    ensures var found := GetByID(w.db, u);
      (found.Some? ==> found.value.id == u) && (found.None? ==> !LiveAt(w, u))
  {
    hide WorldOk, LiveAt, CoreOf, StatusOf;
    if LiveAt(w, u) {
      LiveIsTail(w, u);
    }
  }

  /** The first round trip finds `u`, or finds it gone. */
  lemma EndsStart(w: World, op: Op, f: Fault, u: D.Uid)
    requires WorldOk(w) && u in w.hist.births
    ensures Ends(w, op, Started(w, op, f), u)
  {
    hide WorldOk, LiveAt, Lookup, LookupRefresh, GetByID, Query;
    if Targets(op, w.hist.births[u].core, u) {
      match op
      case LogoutOp(raw) => FoundIsTarget(w, raw, u);
      case ActivateOp(raw, _, _, _, _, _, _) => FoundIsTarget(w, raw, u);
      case RevokeOp(id, _) => ByIdIsTarget(w, u);
      case _ =>
    }
  }

  lemma EndsRevoke(w: World, pid: Pid, op: Op, x: Session, f: Fault, d: Draws, u: D.Uid)
    requires WorldOk(w) && ProcOk(w, pid, op, RevokeReady(x)) && Ends(w, op, RevokeReady(x), u)
    ensures var t := Next(w, pid, op, RevokeReady(x), f, d); Ends(t.0, op, t.1, u)
  {
    hide WorldOk, LiveAt, Apply, Targets;
    assert x.id in [x.id];
    SweepEffect(w, pid, [x.id]);
  }

  /** Every other step keeps what is in hand, or ends the operation without success. */
  lemma EndsOwn(w: World, pid: Pid, op: Op, pc: Pc, f: Fault, d: Draws, u: D.Uid)
    requires WorldOk(w) && ProcOk(w, pid, op, pc) && Ends(w, op, pc, u)
    requires Later(w, Next(w, pid, op, pc, f, d).0)
    ensures var t := Next(w, pid, op, pc, f, d); Ends(t.0, op, t.1, u)
  {
    hide WorldOk, ProcOk, LiveAt, Apply, Started, D.Extends, CommitRotate, CommitCreate, RotationAborts,
         FreshDraws, MintOf, Query, GetByID, Visible;
    match pc
    case Start => EndsStart(w, op, f, u);
    case RevokeReady(x) => EndsRevoke(w, pid, op, x, f, d, u);
    case _ =>
  }

  lemma TrackStep(s: State, e: Event, p: Pid, u: D.Uid)
    requires Inv(s) && u in s.w.hist.births && Tracked(s, p, u)
    ensures Tracked(Step(s, e), p, u)
  {
    hide WorldOk, ProcOk, Ends, Next, Later;
    StepKeeps(s, e);
    match e
    case Begin(_, _) => EndsBegin(s.w, u);
    case Tick(_) => if p in s.procs { EndsLater(s.w, Step(s, e).w, s.procs[p].op, s.procs[p].pc, u); }
    case Act(q, f, d) =>
      if q in s.procs {
        if q == p {
          EndsOwn(s.w, p, s.procs[p].op, s.procs[p].pc, f, d, u);
        } else if p in s.procs {
          EndsLater(s.w, Step(s, e).w, s.procs[p].op, s.procs[p].pc, u);
        }
      }
  }

  lemma EndsBegin(w: World, u: D.Uid)
    requires u in w.hist.births
    ensures forall op :: Ends(w, op, Start, u)
  {
  }

  lemma {:induction false} TrackRun(s: State, es: seq<Event>, p: Pid, u: D.Uid)
    requires Inv(s) && u in s.w.hist.births && Tracked(s, p, u)
    ensures Tracked(Run(s, es), p, u)
    decreases |es|
  {
    hide Inv, Step, Tracked;
    if es != [] {
      StepKeeps(s, es[0]);
      TrackStep(s, es[0], p, u);
      hide D.Extends, LiveAt, Visible;
      TrackRun(Step(s, es[0]), es[1..], p, u);
    }
  }

  /** A logout, a revocation by id or a context activation that reports success
      has killed the session it was aimed at: its access token is rejected, then
      and in every later state, whatever ran in between. */
  lemma RevocationSticks(r: Trace, more: seq<Event>, later: seq<Event>, p: Pid, u: D.Uid, raw: string)
    requires u in At(r).w.hist.births && At(r).w.hist.births[u].core.accessHash == Hash(raw)
    requires p !in At(r).procs
    ensures var s := At(Then(r, more));
      (p in s.procs && Targets(s.procs[p].op, At(r).w.hist.births[u].core, u)
       && s.procs[p].pc.Done? && (s.procs[p].pc.outcome.LoggedOut? || s.procs[p].pc.outcome.Tokens?)) ==>
        !LiveAt(s.w, u) && !Accepts(At(Then(Then(r, more), later)).w, raw)
  {
    hide Run, WorldOk, ProcOk, LiveAt, Accepts, Visible, D.Extends, Targets;
    Continues(r, more);
    TrackRun(At(r), more, p, u);
    var s := At(Then(r, more));
    Continues(Then(r, more), later);
    if p in s.procs && Targets(s.procs[p].op, At(r).w.hist.births[u].core, u)
       && s.procs[p].pc.Done? && (s.procs[p].pc.outcome.LoggedOut? || s.procs[p].pc.outcome.Tokens?) {
      AcceptedIff(At(Then(Then(r, more), later)).w, raw, u);
    }
  }

  // --- Replay --------------------------------------------------------------------------------

  /** The presented token belongs to a session of this user that is dead. */
  ghost predicate Spent(w: World, raw: string, user: string) {
    exists u :: u in w.hist.births && w.hist.births[u].core.refreshHash == Hash(raw)
                && w.hist.births[u].core.who.userId == user && !LiveAt(w, u)
  }

  ghost predicate ReplayOk(w: World, op: Op, pc: Pc) {
    op.RefreshOp? ==>
      match pc
      case SweepReady(user) => Spent(w, op.raw, user)
      case Sweeping(user, _, _) => Spent(w, op.raw, user)
      case Done(Replayed(user, _)) => Spent(w, op.raw, user)
      case _ => true
  }

  lemma SpentLater(w: World, t: World, raw: string, user: string)
    requires Later(w, t) && Spent(w, raw, user)
    ensures Spent(t, raw, user)
  {
    hide D.Extends, LiveAt, Visible;
    var u :| u in w.hist.births && w.hist.births[u].core.refreshHash == Hash(raw)
             && w.hist.births[u].core.who.userId == user && !LiveAt(w, u);
    assert !LiveAt(t, u);
  }

  lemma ReplayLater(w: World, t: World, op: Op, pc: Pc)
    requires Later(w, t) && ReplayOk(w, op, pc)
    ensures ReplayOk(t, op, pc)
  {
    hide Later, Spent;
    if op.RefreshOp? {
      match pc
      case SweepReady(user) => SpentLater(w, t, op.raw, user);
      case Sweeping(user, _, _) => SpentLater(w, t, op.raw, user);
      case Done(Replayed(user, _)) => SpentLater(w, t, op.raw, user);
      case _ =>
    }
  }

  lemma DeadWhenRevoked(w: World, u: D.Uid)
    requires View(u, Node(w, u)).status.revoked
    ensures !LiveAt(w, u)
  {
    hide CoreOf;
  }

  /** The lookup that finds a revoked session. */
  lemma ReplayAtLookup(w: World, raw: string)
    requires WorldOk(w)
    ensures var found := LookupRefresh(w, raw);
      found.Some? && found.value.status.revoked ==> Spent(w, raw, found.value.core.who.userId)
  {
    hide WorldOk, Select, LiveAt, CoreOf, StatusOf;
    LookupOk(w, raw);
    var found := Query(w.db, ByRefreshHash(Hash(raw)));
    if found != [] && View(found[0], Node(w, found[0])).status.revoked {
      DeadWhenRevoked(w, found[0]);
    }
  }

  /** The transactional read that finds one. */
  lemma ReplayAtRead(w: World, pid: Pid, op: Op, pc: Pc)
    requires WorldOk(w) && ProcOk(w, pid, op, pc) && pc.RotateReady? && op.RefreshOp?
    ensures var prev := GetByID(w.db, pc.x.id);
      prev.Some? && prev.value.status.revoked ==> Spent(w, op.raw, pc.x.core.who.userId)
  {
    hide WorldOk, LiveAt, CoreOf, StatusOf, HasMint, Unborn;
    if GetByID(w.db, pc.x.id).Some? && GetByID(w.db, pc.x.id).value.status.revoked {
      DeadWhenRevoked(w, pc.x.id);
    }
  }

  lemma ReplayOwn(w: World, pid: Pid, op: Op, pc: Pc, f: Fault, d: Draws)
    requires WorldOk(w) && ProcOk(w, pid, op, pc) && ReplayOk(w, op, pc)
    requires Later(w, Next(w, pid, op, pc, f, d).0)
    ensures var t := Next(w, pid, op, pc, f, d); ReplayOk(t.0, op, t.1)
  {
    hide WorldOk, ProcOk, Apply, CommitRotate, CommitCreate, RotationAborts, FreshDraws, MintOf, Query, GetByID,
         Lookup, LookupRefresh, Spent, Later;
    if op.RefreshOp? {
      match pc
      case Start => ReplayAtLookup(w, op.raw);
      case RotateReady(_, _, _, _) => ReplayAtRead(w, pid, op, pc);
      case SweepReady(user) => SpentLater(w, Next(w, pid, op, pc, f, d).0, op.raw, user);
      case Sweeping(user, _, _) => SpentLater(w, Next(w, pid, op, pc, f, d).0, op.raw, user);
      case _ =>
    }
  }

  ghost predicate ReplayTracked(s: State, p: Pid) {
    p in s.procs ==> ReplayOk(s.w, s.procs[p].op, s.procs[p].pc)
  }

  lemma ReplayStep(s: State, e: Event, p: Pid)
    requires Inv(s) && ReplayTracked(s, p)
    ensures ReplayTracked(Step(s, e), p)
  {
    hide WorldOk, ProcOk, ReplayOk, Next, Later;
    StepKeeps(s, e);
    match e
    case Begin(_, _) => ReplayBegin(s.w);
    case Tick(_) => if p in s.procs { ReplayLater(s.w, Step(s, e).w, s.procs[p].op, s.procs[p].pc); }
    case Act(q, f, d) =>
      if q in s.procs {
        if q == p {
          ReplayOwn(s.w, p, s.procs[p].op, s.procs[p].pc, f, d);
        } else if p in s.procs {
          ReplayLater(s.w, Step(s, e).w, s.procs[p].op, s.procs[p].pc);
        }
      }
  }

  lemma ReplayBegin(w: World)
    ensures forall op :: ReplayOk(w, op, Start)
  {
  }

  lemma {:induction false} ReplayRun(s: State, es: seq<Event>, p: Pid)
    requires Inv(s) && ReplayTracked(s, p)
    ensures ReplayTracked(Run(s, es), p)
    decreases |es|
  {
    hide Inv, Step, ReplayTracked, After;
    if es != [] {
      StepKeeps(s, es[0]);
      ReplayStep(s, es[0], p);
      ReplayRun(Step(s, es[0]), es[1..], p);
    }
  }

  /** A refresh reports a replay only for a token whose session is dead, and the
      user whose sessions it goes after is the owner of that very session. */
  lemma ReplayIsReal(r: Trace, p: Pid)
    requires p in At(r).procs && At(r).procs[p].op.RefreshOp?
    requires At(r).procs[p].pc.Done? && At(r).procs[p].pc.outcome.Replayed?
    ensures Spent(At(r).w, At(r).procs[p].op.raw, At(r).procs[p].pc.outcome.userId)
  {
    hide Run, WorldOk, ProcOk, Spent;
    InitOk(r.cfg, r.start);
    ReplayRun(Init(r.cfg, r.start), r.events, p);
  }

  // --- Whom new tokens speak for -------------------------------------------------------------

  /** A session that is what a login or an activation asked for. */
  ghost predicate Requested(w: World, op: Op, who: Principal, permVersion: int, origin: Origin) {
    match op
    case OpenOp(asked, version, _, _) => who == asked && permVersion == version && origin == Login
    case ActivateOp(raw, _, _, _, _, _, version) =>
      && origin.Activated? && origin.parent in w.hist.births
      && w.hist.births[origin.parent].core.accessHash == Hash(raw)
      && permVersion == version
      && var login := w.hist.births[origin.parent].core.who;
         who == Principal(login.kind, login.userId, op.actorId, op.actorType, login.clientId,
                          op.permissions, op.delegated, op.policyGroups)
    case _ => true
  }

  ghost predicate BornAs(w: World, op: Op, u: D.Uid) {
    && u in w.hist.births
    && var b := w.hist.births[u]; Requested(w, op, b.core.who, b.core.permVersion, b.origin)
  }

  /** The session in hand is the one the caller presented, or may revoke. */
  ghost predicate Presented(op: Op, x: Session) {
    && (op.ActivateOp? ==> x.core.accessHash == Hash(op.raw))
    && (op.RevokeOp? ==> x.id == op.id && x.core.who.userId == op.requester)
  }

  ghost predicate OwnedBy(w: World, u: D.Uid, user: string) {
    u in w.hist.births && w.hist.births[u].core.who.userId == user
  }

  ghost predicate RequestOk(w: World, op: Op, pc: Pc) {
    match pc
    case Looked(x) => Presented(op, x)
    case RevokeReady(x) => Presented(op, x)
    case Renew(x) => Presented(op, x)
    case CreateReady(who, version, _, _, _, _, origin) => Requested(w, op, who, version, origin)
    case Created(_, u) => BornAs(w, op, u)
    case Done(Tokens(_, u, _)) => BornAs(w, op, u)
    case Done(LoggedOut) => op.RevokeOp? ==> OwnedBy(w, op.id, op.requester)
    case _ => true
  }

  lemma RequestLater(w: World, t: World, op: Op, pc: Pc)
    requires Later(w, t) && RequestOk(w, op, pc)
    ensures RequestOk(t, op, pc)
  {
    hide D.Extends, LiveAt, Visible;
  }

  lemma RequestStart(w: World, op: Op, f: Fault)
    requires WorldOk(w)
    ensures RequestOk(w, op, Started(w, op, f))
  {
    hide WorldOk, Lookup, LookupRefresh, GetByID, Query, Observed;
    if op.ActivateOp? {
      LookupOk(w, op.raw);
    }
    if op.RevokeOp? {
      ReadNode(w, op.id);
    }
  }

  lemma RequestRevoke(w: World, pid: Pid, op: Op, x: Session, f: Fault, d: Draws)
    requires ProcOk(w, pid, op, RevokeReady(x)) && RequestOk(w, op, RevokeReady(x))
    ensures var t := Next(w, pid, op, RevokeReady(x), f, d); RequestOk(t.0, op, t.1)
  {
    hide Apply, LiveAt, Unborn;
  }

  lemma RequestRenew(w: World, pid: Pid, op: Op, x: Session, f: Fault, d: Draws)
    requires WorldOk(w) && ProcOk(w, pid, op, Renew(x)) && RequestOk(w, op, Renew(x))
    ensures var t := Next(w, pid, op, Renew(x), f, d); RequestOk(t.0, op, t.1)
  {
    hide WorldOk, LiveAt, FreshDraws, MintOf, Unborn;
  }

  lemma CreateBirth(w: World, pid: Pid, pc: Pc)
    requires pc.CreateReady?
    ensures var t := CommitCreate(w, pid, OpenCore(w, pc), pc.origin, pc.at);
      && w.db.nextUid in t.hist.births
      && t.hist.births[w.db.nextUid].core.who == pc.who
      && t.hist.births[w.db.nextUid].core.permVersion == pc.permVersion
      && t.hist.births[w.db.nextUid].origin == pc.origin
  {
    hide Apply;
  }

  lemma RequestCommit(w: World, t: World, pid: Pid, op: Op, pc: Pc)
    requires RequestOk(w, op, pc) && pc.CreateReady? && Later(w, t)
    requires t == CommitCreate(w, pid, OpenCore(w, pc), pc.origin, pc.at)
    ensures BornAs(t, op, w.db.nextUid)
  {
    CreateBirth(w, pid, pc);
    hide CommitCreate, D.Extends, LiveAt, Visible;
  }

  lemma RequestRotate(w: World, pid: Pid, op: Op, pc: Pc, f: Fault, d: Draws)
    requires pc.RotateOpen?
    ensures var t := Next(w, pid, op, pc, f, d); RequestOk(t.0, op, t.1)
  {
    hide Apply, RotationAborts, RotationCore;
  }

  lemma RequestCreate(w: World, pid: Pid, op: Op, pc: Pc, f: Fault, d: Draws)
    requires RequestOk(w, op, pc) && pc.CreateReady? && Later(w, Next(w, pid, op, pc, f, d).0)
    ensures var t := Next(w, pid, op, pc, f, d); RequestOk(t.0, op, t.1)
  {
    hide CommitCreate, Requested, BornAs, Later;
    if f != Refused {
      RequestCommit(w, Next(w, pid, op, pc, f, d).0, pid, op, pc);
    }
  }

  /** The steps that neither mint nor commit hand on what they have. */
  lemma RequestKept(w: World, pid: Pid, op: Op, pc: Pc, f: Fault, d: Draws)
    requires RequestOk(w, op, pc) && !pc.Start? && !pc.RevokeReady? && !pc.Renew? && !pc.CreateReady? && !pc.RotateOpen?
    ensures var t := Next(w, pid, op, pc, f, d); RequestOk(t.0, op, t.1)
  {
    hide Requested, Apply, GetByID, Query, FreshDraws, MintOf, Started;
  }

  lemma RequestMinted(w: World, pid: Pid, op: Op, f: Fault, d: Draws)
    requires WorldOk(w)
    ensures var t := Next(w, pid, op, Start, f, d); RequestOk(t.0, op, t.1)
  {
    hide WorldOk, Started, FreshDraws, MintOf;
    RequestStart(w, op, f);
  }

  lemma RequestOwn(w: World, pid: Pid, op: Op, pc: Pc, f: Fault, d: Draws)
    requires WorldOk(w) && ProcOk(w, pid, op, pc) && RequestOk(w, op, pc)
    requires Later(w, Next(w, pid, op, pc, f, d).0)
    ensures var t := Next(w, pid, op, pc, f, d); RequestOk(t.0, op, t.1)
  {
    hide WorldOk, ProcOk, RequestOk, Next, Later;
    match pc
    case Start => RequestMinted(w, pid, op, f, d);
    case RevokeReady(x) => RequestRevoke(w, pid, op, x, f, d);
    case Renew(x) => RequestRenew(w, pid, op, x, f, d);
    case CreateReady(_, _, _, _, _, _, _) => RequestCreate(w, pid, op, pc, f, d);
    case RotateOpen(_, _, _, _, _, _) => RequestRotate(w, pid, op, pc, f, d);
    case _ => RequestKept(w, pid, op, pc, f, d);
  }

  ghost predicate RequestTracked(s: State, p: Pid) {
    p in s.procs ==> RequestOk(s.w, s.procs[p].op, s.procs[p].pc)
  }

  lemma RequestStep(s: State, e: Event, p: Pid)
    requires Inv(s) && RequestTracked(s, p)
    ensures RequestTracked(Step(s, e), p)
  {
    hide WorldOk, ProcOk, RequestOk, Next, Later;
    StepKeeps(s, e);
    match e
    case Begin(_, _) => RequestBegin(s.w);
    case Tick(_) => if p in s.procs { RequestLater(s.w, Step(s, e).w, s.procs[p].op, s.procs[p].pc); }
    case Act(q, f, d) =>
      if q in s.procs {
        if q == p {
          RequestOwn(s.w, p, s.procs[p].op, s.procs[p].pc, f, d);
        } else if p in s.procs {
          RequestLater(s.w, Step(s, e).w, s.procs[p].op, s.procs[p].pc);
        }
      }
  }

  lemma RequestBegin(w: World)
    ensures forall op :: RequestOk(w, op, Start)
  {
  }

  lemma {:induction false} RequestRun(s: State, es: seq<Event>, p: Pid)
    requires Inv(s) && RequestTracked(s, p)
    ensures RequestTracked(Run(s, es), p)
    decreases |es|
  {
    hide Inv, Step, RequestTracked, After;
    if es != [] {
      StepKeeps(s, es[0]);
      RequestStep(s, es[0], p);
      RequestRun(Step(s, es[0]), es[1..], p);
    }
  }

  /** The tokens of a login speak for the principal it asked for; those of an
      activation for the login of the presented token in the requested role. */
  lemma TokensAsRequested(r: Trace, p: Pid)
    requires p in At(r).procs && At(r).procs[p].pc.Done? && At(r).procs[p].pc.outcome.Tokens?
    ensures var w, u := At(r).w, At(r).procs[p].pc.outcome.uid;
      && BornAs(w, At(r).procs[p].op, u)
      && (Visible(w, u) ==> CoreOf(Node(w, u)).who == w.hist.births[u].core.who)
  {
    hide Run, WorldOk, ProcOk, Requested, CoreOf, Visible;
    Reached(r);
    InitOk(r.cfg, r.start);
    RequestRun(Init(r.cfg, r.start), r.events, p);
    var u := At(r).procs[p].pc.outcome.uid;
    if Visible(At(r).w, u) {
      StoredCore(At(r).w, u);
    }
  }

  /** A revocation by id succeeds only for the owner of the session. */
  lemma OnlyOwnerRevokes(r: Trace, p: Pid)
    requires p in At(r).procs && At(r).procs[p].op.RevokeOp? && At(r).procs[p].pc == Done(LoggedOut)
    ensures OwnedBy(At(r).w, At(r).procs[p].op.id, At(r).procs[p].op.requester)
  {
    hide Run, WorldOk, ProcOk, OwnedBy;
    InitOk(r.cfg, r.start);
    RequestRun(Init(r.cfg, r.start), r.events, p);
  }

  // --- When a logout ends a login ------------------------------------------------------------

  /** No session of the family is live. */
  ghost predicate FamilyDead(w: World, root: D.Uid) {
    forall v :: v in w.hist.births && w.hist.births[v].root == root ==> !LiveAt(w, v)
  }

  ghost predicate HasSuccessor(w: World, u: D.Uid) {
    exists c :: c in w.hist.births && w.hist.births[c].origin == Rotated(u)
  }

  /** The write of a logout, or of a revocation by id, closes the whole family of
      its session if and only if no rotation of that session committed before, or
      the line that rotation began is dead already. */
  lemma LogoutClosesIff(r: Trace, p: Pid, f: Fault, d: Draws)
    requires p in At(r).procs && At(r).procs[p].pc.RevokeReady? && f != Refused
    ensures var w, u := At(r).w, At(r).procs[p].pc.x.id;
      && u in w.hist.births
      && (FamilyDead(Step(At(r), Act(p, f, d)).w, w.hist.births[u].root)
          <==> !HasSuccessor(w, u) || FamilyDead(w, w.hist.births[u].root))
  {
    hide Run, WorldOk, ProcOk, Apply, LiveAt, Next;
    Reached(r);
    var s := At(r);
    var op, pc := s.procs[p].op, s.procs[p].pc;
    RevokeWrites(s.w, p, op, pc.x, f, d);
    SuccessorDead(s.w, pc.x.id);
    var t := Step(s, Act(p, f, d)).w;
    var root := s.w.hist.births[pc.x.id].root;
    if !HasSuccessor(s.w, pc.x.id) {
      forall v | v in s.w.hist.births && s.w.hist.births[v].root == root ensures !LiveAt(t, v) {
        if LiveAt(s.w, v) {
          OnlyTail(s.w, pc.x.id, v);
        }
      }
    }
    hide HasSuccessor;
  }

  lemma RevokeWrites(w: World, pid: Pid, op: Op, x: Session, f: Fault, d: Draws)
    requires WorldOk(w) && ProcOk(w, pid, op, RevokeReady(x)) && f != Refused
    ensures var t := Next(w, pid, op, RevokeReady(x), f, d).0;
      t.hist == w.hist && x.id in w.hist.births && (forall v :: LiveAt(t, v) <==> LiveAt(w, v) && v != x.id)
  {
    hide WorldOk, Apply, LiveAt;
    assert x.id in [x.id];
    SweepEffect(w, pid, [x.id]);
  }

  /** A session that was replaced is dead. */
  lemma SuccessorDead(w: World, u: D.Uid)
    requires WorldOk(w)
    ensures HasSuccessor(w, u) ==> !LiveAt(w, u)
  {
    hide NodesOk, MintsOk, D.WellFormed, RootOk, TailOk, Live;
    if HasSuccessor(w, u) {
      var c :| c in w.hist.births && w.hist.births[c].origin == Rotated(u);
      assert OriginOk(w.cfg, w.hist.births, w.hist.succ, c);
    }
  }

  lemma OnlyTail(w: World, u: D.Uid, v: D.Uid)
    requires WorldOk(w) && u in w.hist.births && LiveAt(w, v) && !HasSuccessor(w, u)
    requires v in w.hist.births && w.hist.births[v].root == w.hist.births[u].root
    ensures v == u
  {
    hide NodesOk, MintsOk, PastOk, D.WellFormed, RootOk, OriginOk, LiveAt;
    LiveIsTail(w, v);
    assert TailOk(w.hist.births, w.hist.succ, w.hist.tails, u);
  }

  /** A dead family stays dead: no rotation, however early it began, adds a live
      member, and no other operation ever adds one. */
  lemma DeadForGood(r: Trace, more: seq<Event>, root: D.Uid)
    requires root in At(r).w.hist.births && FamilyDead(At(r).w, root)
    ensures FamilyDead(At(Then(r, more)).w, root)
  {
    hide Run, WorldOk, ProcOk, LiveAt, Visible, D.Extends;
    Continues(r, more);
    var w, w2 := At(r).w, At(Then(r, more)).w;
    forall v | v in w2.hist.births && w2.hist.births[v].root == root ensures !LiveAt(w2, v) {
      NoNewMember(r, more, root, v);
    }
  }

  lemma {:induction false} NoNewMember(r: Trace, more: seq<Event>, root: D.Uid, v: D.Uid)
    requires root in At(r).w.hist.births && FamilyDead(At(r).w, root)
    requires v in At(Then(r, more)).w.hist.births && At(Then(r, more)).w.hist.births[v].root == root
    ensures v in At(r).w.hist.births
    decreases v
  {
    hide Run, WorldOk, ProcOk, LiveAt, Visible, D.Extends;
    Continues(r, more);
    var w, w2 := At(r).w, At(Then(r, more)).w;
    if v !in w.hist.births {
      MemberParent(w2, root, v);
      var p := w2.hist.births[v].origin.parent;
      NoNewMember(r, more, root, p);
      RevokedNeverReplaced(r, more, p, v);
    }
  }

  lemma MemberParent(w: World, root: D.Uid, v: D.Uid)
    requires WorldOk(w) && v in w.hist.births && w.hist.births[v].root == root && v != root
    ensures w.hist.births[v].origin.Rotated?
    ensures var p := w.hist.births[v].origin.parent;
      p in w.hist.births && p < v && w.hist.births[p].root == root
  {
    hide NodesOk, MintsOk, PastOk, D.WellFormed, RootOk, TailOk;
    assert OriginOk(w.cfg, w.hist.births, w.hist.succ, v);
  }

  // --- Purging ---------------------------------------------------------------------------------

  /** Once the delete of a purge commits, every session on its list is gone from
      every query, then and in every later state. */
  lemma PurgedForGood(r: Trace, pid: Pid, f: Fault, d: Draws, more: seq<Event>, u: D.Uid, q: Filter)
    requires pid in At(r).procs && At(r).procs[pid].pc.Purging? && f != Refused
    requires u in At(r).procs[pid].pc.uids
    ensures var w := At(Then(Then(r, [Act(pid, f, d)]), more)).w;
      !Visible(w, u) && GetByID(w.db, u) == None && u !in Query(w.db, q) && !LiveAt(w, u)
  {
    hide Run, WorldOk, ProcOk, LiveAt, Visible, Query, GetByID, Next, Later;
    var e := Act(pid, f, d);
    PurgeClears(r, pid, f, d, u);
    Extend(r, e);
    PurgedBorn(r, pid, u);
    StillBorn(r, [e], u);
    NoResurrection(Then(r, [e]), more, u, q);
  }

  lemma PurgedBorn(r: Trace, pid: Pid, u: D.Uid)
    requires pid in At(r).procs && At(r).procs[pid].pc.Purging? && u in At(r).procs[pid].pc.uids
    ensures u in At(r).w.hist.births
  {
    hide Run, WorldOk;
    Reached(r);
    assert ProcOk(At(r).w, pid, At(r).procs[pid].op, At(r).procs[pid].pc);
  }

  lemma StillBorn(r: Trace, more: seq<Event>, u: D.Uid)
    requires u in At(r).w.hist.births
    ensures u in At(Then(r, more)).w.hist.births
  {
    hide Run, WorldOk, ProcOk, LiveAt, Visible, D.Extends;
    Continues(r, more);
  }
}
