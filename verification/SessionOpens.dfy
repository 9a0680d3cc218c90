// What a login, a refresh and an activation create: field by field from the
// request, the clocks of their round trips and what the entropy source delivered.

module SessionOpens {
  import opened Prelude
  import opened Times
  import opened OpaqueToken
  import opened Sessions
  import opened SessionStore
  import opened SessionProtocol
  import opened SessionInvariants
  import opened SessionPreservation
  import opened SessionSteps
  import opened SessionTheorems
  import opened SessionServices
  import opened SessionWrites
  import opened SessionSchedules
  import opened SessionRefreshes
  import opened SessionCalls
  import D = Dgraph

  /** In `t` session `v` has been born with this core. */
  ghost predicate Bears(w: World, t: World, v: D.Uid, core: Core, origin: Origin) {
    && t.cfg == w.cfg && t.clock == w.clock && v !in w.hist.births && v in t.hist.births
    && t.hist.births == w.hist.births[v := t.hist.births[v]]
    && t.hist.births[v].core == core && t.hist.births[v].origin == origin
    && View(v, Node(t, v)) == Session(v, core, Status(false, None, "", core.createdAt, core.createdAt))
    && Visible(t, v) && LiveAt(t, v)
  }

  /** `t` is `w` with a new session `v` and nothing else changed. */
  ghost predicate Opens(w: World, t: World, v: D.Uid, core: Core, origin: Origin) {
    Bears(w, t, v, core, origin) && forall x :: x != v ==> Node(t, x) == Node(w, x)
  }

  /** `t` is `w` with session `u` revoked in favour of a new session `v`. */
  ghost predicate Replaces(w: World, t: World, u: D.Uid, v: D.Uid, core: Core) {
    && Bears(w, t, v, core, Rotated(u)) && u != v
    && Node(t, u) == Node(w, u)[D.Revoked := D.Flag(true)][D.RevokedAt := D.Instant(Trunc(w.clock))]
                               [D.ReplacedBy := D.Text(core.refreshJti)][D.UpdatedAt := D.Instant(Trunc(w.clock))]
    && forall x :: x != u && x != v ==> Node(t, x) == Node(w, x)
  }

  /** What a client that created session `v` is shown of it. */
  ghost function Shown(w: World, v: D.Uid): Option<Session>
    requires v in w.hist.births
  {
    if Visible(w, v) then Some(Session(v, w.hist.births[v].core, StatusOf(Node(w, v)))) else None
  }

  lemma ShownBack(s: State, v: D.Uid)
    requires Sound(s) && v in s.w.hist.births
    ensures GetByID(s.w.db, v) == Shown(s.w, v)
  {
    hide WritesInv, LiveAt, WorldOk, ProcOk, CoreOf, StatusOf;
    if Visible(s.w, v) {
      ViewLive(s.w, v);
    }
  }

  lemma NextUnborn(w: World)
    requires WorldOk(w)
    ensures w.db.nextUid !in w.hist.births && D.WellFormed(w.db)
  {
    hide NodesOk, FamiliesOk, MintsOk;
  }

  lemma CommitOpens(s: State, pid: Pid, core: Core, origin: Origin, at: int)
    requires Sound(s)
    ensures Opens(s.w, CommitCreate(s.w, pid, core, origin, at), s.w.db.nextUid, Stored(core), origin)
  {
    hide WritesInv, ProcOk, WorldOk, Apply, CoreOf, StatusOf, NewFields, D.WellFormed;
    NextUnborn(s.w);
    ReadBack(s.w.db.nextUid, core);
    var t := CommitCreate(s.w, pid, core, origin, at);
    forall x ensures Node(t, x) == Effect(s.w.db, Create(core), x) { ApplyEffect(s.w.db, Create(core), x); }
  }

  lemma CommitReplaces(s: State, pid: Pid, u: D.Uid, core: Core, at: int, lag: int)
    requires Sound(s) && u in s.w.hist.births
    ensures Replaces(s.w, CommitRotate(s.w, pid, u, core, at, lag), u, s.w.db.nextUid, Stored(core))
  {
    hide WritesInv, ProcOk, WorldOk, Apply, CoreOf, StatusOf, NewFields, D.WellFormed;
    NextUnborn(s.w);
    BornBelow(s.w, u);
    ReadBack(s.w.db.nextUid, core);
    var t, m := CommitRotate(s.w, pid, u, core, at, lag), Mutation.Rotate(u, s.w.clock, core);
    forall x ensures Node(t, x) == Effect(s.w.db, m, x) { ApplyEffect(s.w.db, m, x); }
  }

  lemma CreateTurn(w: World, pid: Pid, op: Op, pc: Pc, f: Fault, d: Draws)
    requires pc.CreateReady?
    ensures Next(w, pid, op, pc, f, d)
         == if f == Refused then (w, Done(Failed(None)))
            else (CommitCreate(w, pid, OpenCore(w, pc), pc.origin, pc.at),
                  if f == NoFault then Created(pc.mint, w.db.nextUid) else Done(Failed(Some(w.db.nextUid))))
  {
    hide CommitCreate, OpenCore;
  }

  lemma ShowTurn(w: World, pid: Pid, op: Op, m: Mint, v: D.Uid, f: Fault, d: Draws)
    ensures Next(w, pid, op, Created(m, v), f, d)
         == (w, Done(if f == NoFault then Tokens(m, v, GetByID(w.db, v)) else Failed(Some(v))))
  {
    hide GetByID;
  }

  /** The read-back after a commit, if its answer arrived. */
  lemma Reported(r: Trace, pid: Pid, op: Op, t: seq<Turn>, n: nat, k: nat, m: Mint, v: D.Uid)
    requires Called(r, pid, op, t, n) && k < n && Left(At(r), pid, t, k).procs.Keys >= {pid}
    requires var a := Left(At(r), pid, t, k);
      v in a.w.hist.births && (a.procs[pid].pc == Created(m, v) || a.procs[pid].pc == Done(Failed(Some(v))))
    ensures v in Sees(At(r), pid, t, k).hist.births
    ensures var a, back, end := Left(At(r), pid, t, k), Sees(At(r), pid, t, k), Play(At(r), pid, t);
      && pid in end.procs
      && end.procs[pid].pc == Done(if a.procs[pid].pc.Done? || t[k].fault != NoFault then Failed(Some(v))
                                   else Tokens(m, v, Shown(back, v)))
  {
    hide Run, Play, Next, FreshDraws, AlwaysFresh, Inv, WritesInv, Foreign, Shown, GetByID;
    CallMoves(r, pid, op, t, n, k);
    var a, met := Left(At(r), pid, t, k), Met(Left(At(r), pid, t, k), t[k]);
    ShowTurn(met.w, pid, op, m, v, t[k].fault, t[k].draws);
    Reached(r);
    EverWritten(r);
    SoundPlay(At(r), pid, t[..k]);
    StillBorn(a, t[k].between, v);
    ShownBack(met, v);
    Ended(At(r), pid, t, k + 1);
  }

  lemma StillBorn(s: State, es: seq<Event>, v: D.Uid)
    requires Sound(s) && v in s.w.hist.births
    ensures v in Run(s, es).w.hist.births
  {
    hide Run, Inv, WritesInv, LiveAt, Visible, D.Extends;
    RunKeeps(s, es);
  }

  /** The commit of a new session and its read-back. */
  lemma CreateTurns(r: Trace, pid: Pid, op: Op, t: seq<Turn>, k: nat, pc: Pc)
    requires Called(r, pid, op, t, k + 2) && pc.CreateReady?
    requires var a := Left(At(r), pid, t, k); pid in a.procs && a.procs[pid].pc == pc
    ensures var commit, back, end := Sees(At(r), pid, t, k), Sees(At(r), pid, t, k + 1), Play(At(r), pid, t);
      var v := commit.db.nextUid;
      && pid in end.procs
      && if t[k].fault == Refused then end.procs[pid].pc == Done(Failed(None)) && end.w == commit
         else && Opens(commit, Left(At(r), pid, t, k + 1).w, v, Stored(OpenCore(commit, pc)), pc.origin)
              && v in back.hist.births
              && end.procs[pid].pc
                 == Done(if t[k].fault != NoFault || t[k + 1].fault != NoFault then Failed(Some(v))
                         else Tokens(pc.mint, v, Shown(back, v)))
  {
    hide Run, Play, Next, FreshDraws, AlwaysFresh, Inv, WritesInv, Foreign, Sees, Shown, Bears, CommitCreate, OpenCore;
    CallMoves(r, pid, op, t, k + 2, k);
    var m := Met(Left(At(r), pid, t, k), t[k]);
    CreateTurn(m.w, pid, op, pc, t[k].fault, t[k].draws);
    CommitOpens(m, pid, OpenCore(m.w, pc), pc.origin, pc.at);
    BornThen(m.w, CommitCreate(m.w, pid, OpenCore(m.w, pc), pc.origin, pc.at), m.w.db.nextUid);
    if t[k].fault == Refused {
      Ended(At(r), pid, t, k + 1);
    } else {
      Reported(r, pid, op, t, k + 2, k + 1, pc.mint, m.w.db.nextUid);
    }
  }

  lemma BornThen(w: World, t: World, v: D.Uid)
    ensures forall core, origin :: Bears(w, t, v, core, origin) ==> v in t.hist.births
  {
  }

  // --- A login ------------------------------------------------------------------------------------

  /** What the entropy source delivered, as the client gets to see it. */
  function Minted(d: Draws): Mint {
    Mint("atk_" + Hex(d.access), "rtk_" + Hex(d.refresh), "jti_" + Hex(d.jti))
  }

  lemma OpenMint(w: World, pid: Pid, op: Op, f: Fault, d: Draws)
    requires op.OpenOp? && FreshDraws(w.hist.mints, d)
    ensures Next(w, pid, op, Start, f, d)
         == if f != NoFault then (w, Done(Failed(None)))
            else (Draw(w, pid, d),
                  CreateReady(op.who, op.permVersion, op.userAgent, op.ipAddress, Minted(d), w.clock, Login))
  {
    hide FreshDraws, Hex;
  }

  lemma OpenStored(w: World, pc: Pc)
    requires pc.CreateReady?
    ensures Stored(OpenCore(w, pc))
         == Core(pc.who, pc.permVersion, Hash(pc.mint.access), Hash(pc.mint.refresh), pc.mint.jti, Trunc(w.clock),
                 Trunc(pc.at + if w.cfg.accessTtl == 0 then 15 * MINUTE else w.cfg.accessTtl),
                 Trunc(pc.at + if w.cfg.refreshTtl == 0 then 30 * DAY else w.cfg.refreshTtl),
                 pc.userAgent, pc.ipAddress)
  {
    hide Trunc;
  }

  /** Over every schedule, what a login comes to: with an answered source and a commit
      that arrives, one new session that holds the requested principal, version, user
      agent and address, the digests of the minted tokens, and the two lifetimes
      from the time of the mint; and, answered, those tokens. */
  lemma OpenIff(r: Trace, pid: Pid, who: Principal, permVersion: int, userAgent: string, ipAddress: string,
               t: seq<Turn>)
    requires Called(r, pid, OpenOp(who, permVersion, userAgent, ipAddress), t, 3)
    ensures var mint, commit, back := Sees(At(r), pid, t, 0), Sees(At(r), pid, t, 1), Sees(At(r), pid, t, 2);
      var end, v, m := Play(At(r), pid, t), commit.db.nextUid, Minted(t[0].draws);
      && pid in end.procs
      && if t[0].fault != NoFault then end.procs[pid].pc == Done(Failed(None)) && end.w == mint
         else if t[1].fault == Refused then end.procs[pid].pc == Done(Failed(None)) && end.w == commit
         else && Opens(commit, Left(At(r), pid, t, 2).w, v,
                       Core(who, permVersion, Hash(m.access), Hash(m.refresh), m.jti, Trunc(commit.clock),
                            Trunc(mint.clock + if commit.cfg.accessTtl == 0 then 15 * MINUTE else commit.cfg.accessTtl),
                            Trunc(mint.clock + if commit.cfg.refreshTtl == 0 then 30 * DAY else commit.cfg.refreshTtl),
                            userAgent, ipAddress),
                       Login)
              && v in back.hist.births
              && end.procs[pid].pc == Done(if t[1].fault != NoFault || t[2].fault != NoFault then Failed(Some(v))
                                           else Tokens(m, v, Shown(back, v)))
  {
    hide Run, Play, Next, FreshDraws, AlwaysFresh, Sound, Foreign, Sees, Shown, Opens, OpenCore, Minted, Trunc;
    var op := OpenOp(who, permVersion, userAgent, ipAddress);
    CallMoves(r, pid, op, t, 3, 0);
    var mint := Met(Left(At(r), pid, t, 0), t[0]).w;
    OpenMint(mint, pid, op, t[0].fault, t[0].draws);
    var pc := CreateReady(who, permVersion, userAgent, ipAddress, Minted(t[0].draws), mint.clock, Login);
    if t[0].fault == NoFault {
      CreateTurns(r, pid, op, t, 1, pc);
      OpenStored(Sees(At(r), pid, t, 1), pc);
    } else {
      Ended(At(r), pid, t, 1);
    }
  }

  // --- A refresh ----------------------------------------------------------------------------------

  lemma RefreshMint(w: World, pid: Pid, op: Op, x: Session, checkedAt: int, f: Fault, d: Draws)
    requires FreshDraws(w.hist.mints, d)
    ensures Next(w, pid, op, Checked(x, checkedAt), f, d)
         == if f != NoFault then (w, Done(Failed(None)))
            else (Draw(w, pid, d), RotateReady(x, Minted(d), w.clock, checkedAt))
  {
    hide FreshDraws, Hex;
  }

  lemma RotateStored(w: World, op: Op, pc: Pc)
    requires op.RefreshOp? && pc.RotateOpen? && pc.prev.core == pc.x.core
    requires Trunc(pc.x.core.refreshExpiresAt) == pc.x.core.refreshExpiresAt
    ensures Stored(RotationCore(w, op, pc))
         == pc.x.core.(accessHash := Hash(pc.mint.access), refreshHash := Hash(pc.mint.refresh),
                       refreshJti := pc.mint.jti, createdAt := Trunc(w.clock),
                       expiresAt := Trunc(pc.at + if w.cfg.accessTtl == 0 then 15 * MINUTE else w.cfg.accessTtl),
                       userAgent := op.userAgent, ipAddress := op.ipAddress)
  {
    hide Trunc;
  }

  lemma RotateTurn(w: World, pid: Pid, op: Op, pc: Pc, f: Fault, d: Draws)
    requires op.RefreshOp? && pc.RotateOpen? && !RotationAborts(w, op, pc)
    ensures Next(w, pid, op, pc, f, d)
         == if f == Refused then (w, Done(Failed(None)))
            else (CommitRotate(w, pid, pc.x.id, RotationCore(w, op, pc), pc.at, pc.at - pc.checkedAt),
                  if f == NoFault then Created(pc.mint, w.db.nextUid) else Done(Failed(Some(w.db.nextUid))))
  {
    hide RotationAborts, CommitRotate, RotationCore;
  }

  /** A refresh with an open rotation of session `u`: what is in its hand. */
  lemma Opened(s: State, pid: Pid, u: D.Uid)
    requires Sound(s) && pid in s.procs && s.procs[pid].op.RefreshOp?
    requires s.procs[pid].pc.RotateOpen? && s.procs[pid].pc.x.id == u
    ensures var pc := s.procs[pid].pc;
      && u in s.w.hist.births && pc.x.core == s.w.hist.births[u].core && pc.prev.core == pc.x.core
      && Trunc(pc.x.core.refreshExpiresAt) == pc.x.core.refreshExpiresAt
      && (RotationAborts(s.w, s.procs[pid].op, pc) <==> !LiveAt(s.w, u))
  {
    hide WorldOk, WritesOk, PcWrites, RotationAborts, LiveAt, Unborn, HasMint, Trunc;
    assert ProcOk(s.w, pid, s.procs[pid].op, s.procs[pid].pc) && PcWrites(s.w.hist.births, s.procs[pid].pc);
    AbortsIffDead(s.w, pid, s.procs[pid].op, s.procs[pid].pc);
    DeadlineStored(s.w, u);
  }

  lemma DeadlineStored(w: World, u: D.Uid)
    requires WorldOk(w) && u in w.hist.births
    ensures Trunc(w.hist.births[u].core.refreshExpiresAt) == w.hist.births[u].core.refreshExpiresAt
  {
    hide NodesOk, FamiliesOk, MintsOk, PastOk, D.WellFormed, Trunc;
    StoredDeadline(w.cfg, w.hist, u);
  }

  /** Session `u` was born with refresh token `raw`. */
  ghost predicate Renews(w: World, raw: string, u: D.Uid) {
    u in w.hist.births && w.hist.births[u].core.refreshHash == Hash(raw)
  }

  lemma SoundRefresh(s: State, raw: string, u: D.Uid)
    requires Sound(s) && Renews(s.w, raw, u)
    ensures var x := LookupRefresh(s.w, raw);
      if !Visible(s.w, u) then x.None?
      else x.Some? && x.value.id == u && x.value.core == s.w.hist.births[u].core
           && (x.value.status.revoked <==> !LiveAt(s.w, u))
  {
    hide WritesInv, Visible, LiveAt, LookupRefresh, View, GetByID, WorldOk, ProcOk;
    RefreshFinds(s.w, raw, u);
    if Visible(s.w, u) {
      ViewLive(s.w, u);
    }
  }

  lemma RefreshLookup(w: World, pid: Pid, op: Op, f: Fault, d: Draws)
    requires op.RefreshOp?
    ensures var x := LookupRefresh(w, op.raw);
      Next(w, pid, op, Start, f, d)
      == (w, if f != NoFault then Done(Failed(None))
             else if x.None? then Done(NotFound)
             else if x.value.status.revoked then SweepReady(x.value.core.who.userId) else Looked(x.value))
  {
    hide LookupRefresh;
  }

  lemma RefreshCheck(w: World, pid: Pid, op: Op, x: Session, f: Fault, d: Draws)
    requires op.RefreshOp?
    ensures Next(w, pid, op, Looked(x), f, d)
         == (w, if w.clock > x.core.refreshExpiresAt then Done(RefreshExpired) else Checked(x, w.clock))
  {
  }

  lemma RefreshRead(w: World, pid: Pid, op: Op, x: Session, m: Mint, at: int, checkedAt: int, f: Fault, d: Draws)
    ensures var prev := GetByID(w.db, x.id);
      Next(w, pid, op, RotateReady(x, m, at, checkedAt), f, d)
      == (w, if f != NoFault || prev.None? then Done(Failed(None))
             else if prev.value.status.revoked then SweepReady(x.core.who.userId)
             else RotateOpen(x, m, at, checkedAt, w.db.ts, prev.value))
  {
    hide GetByID;
  }

  /** A refresh of session `u` that comes as far as the read of its rotation. */
  ghost predicate Refreshes(r: Trace, pid: Pid, op: Op, t: seq<Turn>, u: D.Uid) {
    && op.RefreshOp? && Called(r, pid, op, t, 6) && Renews(Sees(At(r), pid, t, 0), op.raw, u)
    && t[0].fault == NoFault && t[2].fault == NoFault && t[3].fault == NoFault
    && LiveAt(Sees(At(r), pid, t, 0), u)
    && Sees(At(r), pid, t, 1).clock <= Sees(At(r), pid, t, 0).hist.births[u].core.refreshExpiresAt
  }

  lemma SoundVisible(s: State, u: D.Uid)
    requires Sound(s)
    ensures LiveAt(s.w, u) ==> Visible(s.w, u)
  {
    hide WritesInv, Visible, LiveAt, WorldOk, ProcOk;
    LiveIsVisible(s.w, u);
  }

  /** Up to its read a refresh carries the session it looked up, and the tokens it minted. */
  lemma ToRead(r: Trace, pid: Pid, op: Op, t: seq<Turn>, u: D.Uid)
    requires Refreshes(r, pid, op, t, u)
    ensures var a, mint := Left(At(r), pid, t, 3), Sees(At(r), pid, t, 2);
      && pid in a.procs && a.procs[pid].pc.RotateReady? && a.procs[pid].pc.x.id == u
      && a.procs[pid].pc.x.core == Sees(At(r), pid, t, 0).hist.births[u].core
      && a.procs[pid].pc.mint == Minted(t[2].draws) && a.procs[pid].pc.at == mint.clock
  {
    hide Run, Play, Next, FreshDraws, AlwaysFresh, Sound, Foreign, Sees, LiveAt, Visible, LookupRefresh, Minted;
    CallMoves(r, pid, op, t, 6, 0);
    CallMoves(r, pid, op, t, 6, 1);
    CallMoves(r, pid, op, t, 6, 2);
    var m := Met(Left(At(r), pid, t, 0), t[0]);
    RefreshLookup(m.w, pid, op, t[0].fault, t[0].draws);
    SoundRefresh(m, op.raw, u);
    SoundVisible(m, u);
    var x := LookupRefresh(m.w, op.raw).value;
    RefreshCheck(Sees(At(r), pid, t, 1), pid, op, x, t[1].fault, t[1].draws);
    RefreshMint(Sees(At(r), pid, t, 2), pid, op, x, Sees(At(r), pid, t, 1).clock, t[2].fault, t[2].draws);
  }

  /** Over every schedule, what a refresh creates that finds its session live and
      unexpired, and live still at the read: nothing if the session is dead by the
      commit; otherwise one session of the same principal, version and deadline that
      holds the caller's user agent and address, the digests of the minted tokens
      and a fresh access lifetime, in place of the old one. */
  lemma RefreshCreates(r: Trace, pid: Pid, op: Op, t: seq<Turn>, u: D.Uid)
    requires Refreshes(r, pid, op, t, u) && LiveAt(Sees(At(r), pid, t, 3), u)
    ensures var mint, commit, back := Sees(At(r), pid, t, 2), Sees(At(r), pid, t, 4), Sees(At(r), pid, t, 5);
      var end, v, m := Play(At(r), pid, t), commit.db.nextUid, Minted(t[2].draws);
      && pid in end.procs
      && if t[4].fault == Refused || !LiveAt(commit, u) then end.procs[pid].pc == Done(Failed(None)) && end.w == commit
         else && u in commit.hist.births
              && Replaces(commit, Left(At(r), pid, t, 5).w, u, v,
                          commit.hist.births[u].core.(
                            accessHash := Hash(m.access), refreshHash := Hash(m.refresh), refreshJti := m.jti,
                            createdAt := Trunc(commit.clock),
                            expiresAt := Trunc(mint.clock + if commit.cfg.accessTtl == 0 then 15 * MINUTE
                                                            else commit.cfg.accessTtl),
                            userAgent := op.userAgent, ipAddress := op.ipAddress))
              && v in back.hist.births
              && end.procs[pid].pc == Done(if t[4].fault != NoFault || t[5].fault != NoFault then Failed(Some(v))
                                           else Tokens(m, v, Shown(back, v)))
  {
    hide Run, Play, Next, FreshDraws, AlwaysFresh, Sound, Foreign, Sees, LiveAt, Visible, Minted, GetByID, Shown;
    hide Bears, Replaces, RotationCore, RotationAborts, CommitRotate, Trunc, Renews;
    ToRead(r, pid, op, t, u);
    CallMoves(r, pid, op, t, 6, 3);
    CallMoves(r, pid, op, t, 6, 4);
    var pc3, m3 := Left(At(r), pid, t, 3).procs[pid].pc, Met(Left(At(r), pid, t, 3), t[3]);
    RefreshRead(m3.w, pid, op, pc3.x, pc3.mint, pc3.at, pc3.checkedAt, t[3].fault, t[3].draws);
    SoundById(m3, u);
    SoundVisible(m3, u);
    CommitPart(r, pid, op, t, u);
  }

  /** The commit of a rotation and its read-back. */
  lemma CommitPart(r: Trace, pid: Pid, op: Op, t: seq<Turn>, u: D.Uid)
    requires op.RefreshOp? && Called(r, pid, op, t, 6)
    requires var a := Left(At(r), pid, t, 4); pid in a.procs && a.procs[pid].pc.RotateOpen? && a.procs[pid].pc.x.id == u
    ensures var pc, commit := Left(At(r), pid, t, 4).procs[pid].pc, Sees(At(r), pid, t, 4);
      var back := Sees(At(r), pid, t, 5);
      var end, v := Play(At(r), pid, t), commit.db.nextUid;
      && pid in end.procs
      && if t[4].fault == Refused || !LiveAt(commit, u) then end.procs[pid].pc == Done(Failed(None)) && end.w == commit
         else && u in commit.hist.births
              && Replaces(commit, Left(At(r), pid, t, 5).w, u, v,
                          commit.hist.births[u].core.(
                            accessHash := Hash(pc.mint.access), refreshHash := Hash(pc.mint.refresh),
                            refreshJti := pc.mint.jti, createdAt := Trunc(commit.clock),
                            expiresAt := Trunc(pc.at + if commit.cfg.accessTtl == 0 then 15 * MINUTE
                                                       else commit.cfg.accessTtl),
                            userAgent := op.userAgent, ipAddress := op.ipAddress))
              && v in back.hist.births
              && end.procs[pid].pc == Done(if t[4].fault != NoFault || t[5].fault != NoFault then Failed(Some(v))
                                           else Tokens(pc.mint, v, Shown(back, v)))
  {
    hide Run, Play, Next, FreshDraws, AlwaysFresh, Inv, WritesInv, Foreign, Sees, LiveAt, Visible, Shown;
    hide Bears, RotationCore, RotationAborts, CommitRotate, Trunc;
    CallMoves(r, pid, op, t, 6, 4);
    var pc, m := Left(At(r), pid, t, 4).procs[pid].pc, Met(Left(At(r), pid, t, 4), t[4]);
    Opened(m, pid, u);
    if !LiveAt(m.w, u) {
      OpenTurn(m.w, pid, op, pc, t[4].fault, t[4].draws);
      Ended(At(r), pid, t, 5);
    } else {
      RotateTurn(m.w, pid, op, pc, t[4].fault, t[4].draws);
      if t[4].fault == Refused {
        Ended(At(r), pid, t, 5);
      } else {
        var core := RotationCore(m.w, op, pc);
        RotateStored(m.w, op, pc);
        CommitReplaces(m, pid, u, core, pc.at, pc.at - pc.checkedAt);
        BornThen(m.w, CommitRotate(m.w, pid, u, core, pc.at, pc.at - pc.checkedAt), m.w.db.nextUid);
        Reported(r, pid, op, t, 6, 5, pc.mint, m.w.db.nextUid);
      }
    }
  }

  /** Where a refresh stops short of its commit without a replay, and that it has
      then written nothing. */
  lemma RefreshRefuses(r: Trace, pid: Pid, op: Op, t: seq<Turn>, u: D.Uid)
    requires op.RefreshOp? && Called(r, pid, op, t, 6) && Renews(Sees(At(r), pid, t, 0), op.raw, u)
    ensures var lookup, check, mint := Sees(At(r), pid, t, 0), Sees(At(r), pid, t, 1), Sees(At(r), pid, t, 2);
      var read, end := Sees(At(r), pid, t, 3), Play(At(r), pid, t);
      && pid in end.procs
      && if t[0].fault != NoFault then end.procs[pid].pc == Done(Failed(None)) && end.w == lookup
         else if !Visible(lookup, u) then end.procs[pid].pc == Done(NotFound) && end.w == lookup
         else if !LiveAt(lookup, u) then true
         else if check.clock > lookup.hist.births[u].core.refreshExpiresAt then
           end.procs[pid].pc == Done(RefreshExpired) && end.w == check
         else if t[2].fault != NoFault then end.procs[pid].pc == Done(Failed(None)) && end.w == mint
         else t[3].fault != NoFault || !Visible(read, u) ==> end.procs[pid].pc == Done(Failed(None)) && end.w == read
  {
    hide Run, Play, Next, FreshDraws, AlwaysFresh, Sound, Foreign, Sees, LiveAt, Visible;
    hide LookupRefresh, Minted, GetByID;
    CallMoves(r, pid, op, t, 6, 0);
    CallMoves(r, pid, op, t, 6, 1);
    CallMoves(r, pid, op, t, 6, 2);
    CallMoves(r, pid, op, t, 6, 3);
    var m, m3 := Met(Left(At(r), pid, t, 0), t[0]), Met(Left(At(r), pid, t, 3), t[3]);
    RefreshLookup(m.w, pid, op, t[0].fault, t[0].draws);
    SoundRefresh(m, op.raw, u);
    SoundVisible(m, u);
    SoundById(m3, u);
    SameOp(At(r), pid, t);
    if Left(At(r), pid, t, 1).procs[pid].pc.Looked? {
      var x, check, mint := LookupRefresh(m.w, op.raw).value, Sees(At(r), pid, t, 1), Sees(At(r), pid, t, 2);
      RefreshCheck(check, pid, op, x, t[1].fault, t[1].draws);
      if Left(At(r), pid, t, 2).procs[pid].pc.Checked? {
        RefreshMint(mint, pid, op, x, check.clock, t[2].fault, t[2].draws);
      }
      RefreshRead(m3.w, pid, op, x, Minted(t[2].draws), mint.clock, check.clock, t[3].fault, t[3].draws);
    }
    forall k | 1 <= k <= 4 && Left(At(r), pid, t, k).procs[pid].pc.Done?
      ensures Play(At(r), pid, t) == Left(At(r), pid, t, k)
    {
      Ended(At(r), pid, t, k);
    }
  }

  /** From its k-th round trip on a refresh revokes what `user` had at the list, and
      reports a replay whether that works or not. */
  ghost predicate Chases(s: State, pid: Pid, t: seq<Turn>, k: nat, user: string)
    requires k + 1 < |t|
  {
    var list, write, end := Sees(s, pid, t, k), Sees(s, pid, t, k + 1), Play(s, pid, t);
    && pid in end.procs
    && if t[k].fault != NoFault then end.procs[pid].pc == Done(Replayed(user, None)) && end.w == list
       else if LiveSessions(list, user) == {} then
         end.procs[pid].pc == Done(Replayed(user, Some(list.db.ts))) && end.w == list
       else if t[k + 1].fault == Refused then end.procs[pid].pc == Done(Replayed(user, None)) && end.w == write
       else && end.procs[pid].pc == Done(Replayed(user, Some(list.db.ts)))
            && Revokes(write, end.w, LiveSessions(list, user))
  }

  /** A refresh whose lookup finds its session dead goes after the owner of that session. */
  lemma LookupReplays(r: Trace, pid: Pid, op: Op, t: seq<Turn>, u: D.Uid)
    requires op.RefreshOp? && Called(r, pid, op, t, 3) && Renews(Sees(At(r), pid, t, 0), op.raw, u)
    requires t[0].fault == NoFault && Visible(Sees(At(r), pid, t, 0), u) && !LiveAt(Sees(At(r), pid, t, 0), u)
    ensures Chases(At(r), pid, t, 1, Sees(At(r), pid, t, 0).hist.births[u].core.who.userId)
  {
    hide Run, Play, Next, FreshDraws, AlwaysFresh, Sound, Foreign, Sees, LiveAt, Visible, LookupRefresh, Revokes;
    hide LiveSessions;
    CallMoves(r, pid, op, t, 3, 0);
    var m := Met(Left(At(r), pid, t, 0), t[0]);
    RefreshLookup(m.w, pid, op, t[0].fault, t[0].draws);
    SoundRefresh(m, op.raw, u);
    SweepTurns(r, pid, op, t, 1, m.w.hist.births[u].core.who.userId);
  }

  /** And so does one whose read finds it dead. */
  lemma ReadReplays(r: Trace, pid: Pid, op: Op, t: seq<Turn>, u: D.Uid)
    requires Refreshes(r, pid, op, t, u)
    requires Visible(Sees(At(r), pid, t, 3), u) && !LiveAt(Sees(At(r), pid, t, 3), u)
    ensures Chases(At(r), pid, t, 4, Sees(At(r), pid, t, 0).hist.births[u].core.who.userId)
  {
    hide Run, Play, Next, FreshDraws, AlwaysFresh, Sound, Foreign, Sees, LiveAt, Visible, Minted, GetByID, Revokes;
    hide LiveSessions, Renews;
    ToRead(r, pid, op, t, u);
    CallMoves(r, pid, op, t, 6, 3);
    var pc, m := Left(At(r), pid, t, 3).procs[pid].pc, Met(Left(At(r), pid, t, 3), t[3]);
    RefreshRead(m.w, pid, op, pc.x, pc.mint, pc.at, pc.checkedAt, t[3].fault, t[3].draws);
    SoundById(m, u);
    SweepTurns(r, pid, op, t, 4, pc.x.core.who.userId);
  }

  // --- An activation --------------------------------------------------------------------------------

  lemma ActivateLookup(w: World, pid: Pid, op: Op, f: Fault, d: Draws)
    requires op.ActivateOp?
    ensures Next(w, pid, op, Start, f, d)
         == (w, if f != NoFault then Done(Failed(None))
                else if Lookup(w, op.raw).None? then Done(NotFound) else Looked(Lookup(w, op.raw).value))
  {
    hide Lookup;
  }

  lemma ActivateJudge(w: World, pid: Pid, op: Op, x: Session, f: Fault, d: Draws)
    requires op.ActivateOp?
    ensures Next(w, pid, op, Looked(x), f, d)
         == (w, if x.status.revoked || w.clock > x.core.expiresAt then Done(NotFound) else RevokeReady(x))
  {
  }

  lemma ActivateRevoke(w: World, pid: Pid, op: Op, x: Session, f: Fault, d: Draws)
    requires op.ActivateOp?
    ensures Next(w, pid, op, RevokeReady(x), f, d)
         == (if f == Refused then w else Store(w, Revoke([x.id], w.clock)),
             if f == NoFault then Renew(x) else Done(Failed(None)))
  {
    hide Store;
  }

  lemma ActivateMint(w: World, pid: Pid, op: Op, x: Session, f: Fault, d: Draws)
    requires op.ActivateOp? && FreshDraws(w.hist.mints, d)
    ensures Next(w, pid, op, Renew(x), f, d)
         == if f != NoFault then (w, Done(Failed(None)))
            else (Draw(w, pid, d),
                  CreateReady(Principal(x.core.who.kind, x.core.who.userId, op.actorId, op.actorType,
                                        x.core.who.clientId, op.permissions, op.delegated, op.policyGroups),
                              op.permVersion, "", "", Minted(d), w.clock, Activated(x.id)))
  {
    hide FreshDraws, Hex;
  }

  /** Over every schedule, what the first half of an activation comes to: it refuses unless
      the lookup finds the presented session live and the check finds it unexpired;
      then it revokes exactly that session. */
  lemma ActivateRevokes(r: Trace, pid: Pid, op: Op, t: seq<Turn>, u: D.Uid)
    requires op.ActivateOp? && Called(r, pid, op, t, 6) && Names(Sees(At(r), pid, t, 0), op.raw, u)
    ensures var lookup, check, write := Sees(At(r), pid, t, 0), Sees(At(r), pid, t, 1), Sees(At(r), pid, t, 2);
      var end, left, x := Play(At(r), pid, t), Left(At(r), pid, t, 3), lookup.hist.births[u].core;
      && pid in end.procs && pid in left.procs
      && if t[0].fault != NoFault then end.procs[pid].pc == Done(Failed(None)) && end.w == lookup
         else if !LiveAt(lookup, u) then
           end.procs[pid].pc == Done(NotFound) && end.w == if Visible(lookup, u) then check else lookup
         else if check.clock > x.expiresAt then end.procs[pid].pc == Done(NotFound) && end.w == check
         else if t[2].fault == Refused then end.procs[pid].pc == Done(Failed(None)) && end.w == write
         else && Revokes(write, left.w, {u})
              && if t[2].fault != NoFault then end == left && end.procs[pid].pc == Done(Failed(None))
                 else && left.procs[pid].pc.Renew? && left.procs[pid].pc.x.id == u && left.procs[pid].pc.x.core == x
  {
    hide Run, Play, Next, FreshDraws, AlwaysFresh, Inv, WritesInv, Foreign, Sees, LiveAt, Visible;
    hide Lookup, Revokes, Apply;
    CallMoves(r, pid, op, t, 6, 0);
    CallMoves(r, pid, op, t, 6, 1);
    CallMoves(r, pid, op, t, 6, 2);
    var m, m2 := Met(Left(At(r), pid, t, 0), t[0]), Met(Left(At(r), pid, t, 2), t[2]);
    ActivateLookup(m.w, pid, op, t[0].fault, t[0].draws);
    SoundLookup(m, op.raw, u);
    SoundVisible(m, u);
    var x := Lookup(m.w, op.raw);
    if x.Some? {
      ActivateJudge(Sees(At(r), pid, t, 1), pid, op, x.value, t[1].fault, t[1].draws);
      ActivateRevoke(m2.w, pid, op, x.value, t[2].fault, t[2].draws);
    }
    if Left(At(r), pid, t, 2).procs[pid].pc.RevokeReady? {
      AimsAt(m2, pid);
      RevokeStores(m2, [u], {u});
    }
    if Left(At(r), pid, t, 3).procs[pid].pc.Done? {
      Ended(At(r), pid, t, 3);
    }
    SameOp(At(r), pid, t);
  }

  /** And the second half: one new session under the same login, with the activated
      actor and its permissions, that names the presented session as its origin. */
  lemma ActivateCreates(r: Trace, pid: Pid, op: Op, t: seq<Turn>, u: D.Uid)
    requires op.ActivateOp? && Called(r, pid, op, t, 6) && Names(Sees(At(r), pid, t, 0), op.raw, u)
    requires t[0].fault == NoFault && t[2].fault == NoFault && LiveAt(Sees(At(r), pid, t, 0), u)
    requires Sees(At(r), pid, t, 1).clock <= Sees(At(r), pid, t, 0).hist.births[u].core.expiresAt
    ensures var mint, commit, back := Sees(At(r), pid, t, 3), Sees(At(r), pid, t, 4), Sees(At(r), pid, t, 5);
      var end, v, m := Play(At(r), pid, t), commit.db.nextUid, Minted(t[3].draws);
      var login := Sees(At(r), pid, t, 0).hist.births[u].core.who;
      && pid in end.procs
      && if t[3].fault != NoFault then end.procs[pid].pc == Done(Failed(None)) && end.w == mint
         else if t[4].fault == Refused then end.procs[pid].pc == Done(Failed(None)) && end.w == commit
         else && Opens(commit, Left(At(r), pid, t, 5).w, v,
                       Core(Principal(login.kind, login.userId, op.actorId, op.actorType, login.clientId,
                                      op.permissions, op.delegated, op.policyGroups),
                            op.permVersion, Hash(m.access), Hash(m.refresh), m.jti, Trunc(commit.clock),
                            Trunc(mint.clock + if commit.cfg.accessTtl == 0 then 15 * MINUTE else commit.cfg.accessTtl),
                            Trunc(mint.clock + if commit.cfg.refreshTtl == 0 then 30 * DAY else commit.cfg.refreshTtl),
                            "", ""),
                       Activated(u))
              && v in back.hist.births
              && end.procs[pid].pc == Done(if t[4].fault != NoFault || t[5].fault != NoFault then Failed(Some(v))
                                           else Tokens(m, v, Shown(back, v)))
  {
    hide Run, Play, Next, FreshDraws, AlwaysFresh, Sound, Foreign, Sees, LiveAt, Visible, Shown;
    hide Opens, OpenCore, Minted;
    hide Trunc, Revokes, Names;
    ActivateRevokes(r, pid, op, t, u);
    CallMoves(r, pid, op, t, 6, 3);
    var x, mint := Left(At(r), pid, t, 3).procs[pid].pc.x, Sees(At(r), pid, t, 3);
    ActivateMint(mint, pid, op, x, t[3].fault, t[3].draws);
    if t[3].fault == NoFault {
      var pc := Left(At(r), pid, t, 4).procs[pid].pc;
      CreateTurns(r, pid, op, t, 4, pc);
      OpenStored(Sees(At(r), pid, t, 4), pc);
    } else {
      Ended(At(r), pid, t, 4);
    }
  }
}
