// The guarantee of each step, and the invariant over whole runs.

module SessionSteps {
  import opened Prelude
  import opened Times
  import opened OpaqueToken
  import opened Sessions
  import opened SessionStore
  import opened SessionProtocol
  import opened SessionInvariants
  import opened SessionPreservation
  import D = Dgraph

  // --- What the queries return ---------------------------------------------------

  lemma ReadNode(w: World, u: D.Uid)
    requires WorldOk(w)
    ensures GetByID(w.db, u).Some? ==>
      && Observed(w, GetByID(w.db, u).value) && GetByID(w.db, u).value.id == u
      && (!GetByID(w.db, u).value.status.revoked ==> LiveAt(w, u))
  {
    assert NodeOk(Node(w, u), w.hist.births, w.hist.succ, u);
    hide FamiliesOk, MintsOk, PastOk, D.WellFormed, CoreOf;
  }

  /** A lookup returns a session that holds the digest asked for. */
  lemma LookupOk(w: World, raw: string)
    requires WorldOk(w)
    ensures Lookup(w, raw).Some? ==>
      Observed(w, Lookup(w, raw).value) && Lookup(w, raw).value.core.accessHash == Hash(raw)
    ensures LookupRefresh(w, raw).Some? ==>
      Observed(w, LookupRefresh(w, raw).value) && LookupRefresh(w, raw).value.core.refreshHash == Hash(raw)
  {
    hide FamiliesOk, MintsOk, PastOk, D.WellFormed, NodeOk, PrincipalOf, StatusOf, Select;
    var a := Query(w.db, ByAccessHash(Hash(raw)));
    if a != [] {
      assert a[0] in a;
      ReadNode(w, a[0]);
    }
    var r := Query(w.db, ByRefreshHash(Hash(raw)));
    if r != [] {
      assert r[0] in r;
      ReadNode(w, r[0]);
    }
  }

  /** The bulk list names exactly the user's live sessions. */
  lemma ListOk(w: World, user: string)
    requires WorldOk(w)
    ensures SweepOk(w, user, Query(w.db, LiveOf(user)), w.db.ts)
  {
    hide FamiliesOk, MintsOk, D.WellFormed, CoreOf, StatusOf, Select;
    var found := Query(w.db, LiveOf(user));
    forall u ensures u in found <==> BornOf(w, user, w.db.ts, u) && LiveAt(w, u) {
      ListNode(w, user, u);
    }
  }

  lemma ListNode(w: World, user: string, u: D.Uid)
    requires WorldOk(w)
    ensures u < w.db.nextUid && u in w.db.nodes && Matches(LiveOf(user), w.db.nodes[u])
       <==> BornOf(w, user, w.db.ts, u) && LiveAt(w, u)
  {
    hide FamiliesOk, MintsOk, D.WellFormed, CoreOf;
    assert NodeOk(Node(w, u), w.hist.births, w.hist.succ, u);
  }

  lemma ExpiredOk(w: World, t: int)
    requires WorldOk(w)
    ensures forall u :: u in Query(w.db, ExpiredBy(t)) ==>
      u in w.hist.births && w.hist.births[u].core.refreshExpiresAt <= t && Visible(w, u)
  {
    hide FamiliesOk, MintsOk, PastOk, D.WellFormed, PrincipalOf, StatusOf, Select, NodeOk;
    forall u | u in Query(w.db, ExpiredBy(t))
      ensures u in w.hist.births && w.hist.births[u].core.refreshExpiresAt <= t && Visible(w, u)
    {
      ReadNode(w, u);
    }
  }

  // --- Where each step leaves its process ------------------------------------------

  lemma ResolvedOk(w: World, pid: Pid, op: Op, f: Fault, found: Option<Session>)
    requires Unminted(w, pid)
    requires found.Some? ==> Observed(w, found.value) && (op.RefreshOp? ==> ToRefresh(w, op, found.value))
    ensures ProcOk(w, pid, op, Answered(f, Resolved(found)))
  {
    hide Observed, ToRefresh;
  }

  lemma StartedOk(w: World, pid: Pid, op: Op, f: Fault)
    requires WorldOk(w) && Unminted(w, pid)
    ensures ProcOk(w, pid, op, Started(w, op, f))
  {
    hide WorldOk, Lookup, LookupRefresh, Query, GetByID, Observed, Unborn;
    match op
    case OpenOp(_, _, _, _) =>
    case VerifyOp(raw) => LookupOk(w, raw); ResolvedOk(w, pid, op, f, Lookup(w, raw));
    case ActivateOp(raw, _, _, _, _, _, _) => LookupOk(w, raw); ResolvedOk(w, pid, op, f, Lookup(w, raw));
    case RefreshOp(raw, _, _) => LookupOk(w, raw); ResolvedOk(w, pid, op, f, LookupRefresh(w, raw));
    case LogoutOp(raw) => LookupOk(w, raw);
    case LogoutAllOp(_) =>
    case RevokeOp(id, _) => ReadNode(w, id);
    case PurgeOp => ExpiredOk(w, Trunc(w.clock));
  }

  lemma JudgedOk(w: World, pid: Pid, op: Op, x: Session)
    requires ProcOk(w, pid, op, Looked(x))
    ensures ProcOk(w, pid, op, Judged(w, op, x))
  {
    hide Observed, Unborn;
  }

  lemma RotationRead(w: World, pid: Pid, op: Op, pc: Pc)
    requires WorldOk(w) && ProcOk(w, pid, op, pc) && pc.RotateReady? && GetByID(w.db, pc.x.id).Some?
    ensures var prev := GetByID(w.db, pc.x.id).value;
      !prev.status.revoked ==> ProcOk(w, pid, op, RotateOpen(pc.x, pc.mint, pc.at, pc.checkedAt, w.db.ts, prev))
  {
    hide WorldOk, GetByID, LiveAt, HasMint, Unborn;
    ReadNode(w, pc.x.id);
  }

  lemma CommittedOk(w: World, t: World, pid: Pid, op: Op, m: Mint, u: D.Uid, f: Fault)
    requires MadeBy(t, pid, op, u) && HasMint(t, pid, m)
    ensures ProcOk(t, pid, op, if f == NoFault then Created(m, u) else Done(Failed(Some(u))))
  {
    hide MadeBy, HasMint;
  }

  lemma SweptOk(w: World, t: World, pid: Pid, op: Op, pc: Pc, f: Fault)
    requires ProcOk(w, pid, op, pc) && pc.Sweeping?
    requires w.db.ts <= t.db.ts && t.hist == w.hist
    requires forall u :: LiveAt(t, u) <==> LiveAt(w, u) && u !in pc.uids
    ensures ProcOk(t, pid, op, Done(if f == NoFault then SweptOutcome(op, pc.userId, pc.listTs)
                                    else SweepFailed(op, pc.userId, Some(pc.listTs))))
  {
    hide LiveAt;
    assert SweptUpTo(t, pc.userId, pc.listTs);
  }

  // --- The rotation that commits -----------------------------------------------------

  /** A transaction that passes the commit check still finds the session live:
      `revoked` is among the keys it writes, so nobody has written it since. */
  lemma UnchangedSince(w: World, op: Op, pc: Pc)
    requires op.RefreshOp? && pc.RotateOpen? && !RotationAborts(w, op, pc)
    ensures D.LastWrite(w.db, D.Data(pc.x.id, D.Revoked)) <= pc.startTs
  {
    var core := RotationCore(w, op, pc);
    var quads := QuadsOf(Rotate(pc.x.id, w.clock, core));
    WritesRevoked(w.db.nodes, pc.x.id, w.clock, core, w.db.nextUid);
    hide D.Touched, QuadsOf;
  }

  lemma WritesRevoked(nodes: map<D.Uid, D.Fields>, p: D.Uid, now: int, core: Core, blank: D.Uid)
    ensures D.Data(p, D.Revoked) in D.Touched(nodes, QuadsOf(Rotate(p, now, core)), blank)
  {
    hide NewFields;
    var a := D.Block(D.Iri(p), ReplaceFields(now, core.refreshJti));
    var b := D.Block(D.Blank, NewFields(core));
    assert [a, b][..1] == [a];
    assert [a][..0] == [];
    assert D.Data(p, D.Revoked) in D.KeysOf(p, D.Read(nodes, p), a);
    assert D.Touched(nodes, [a], blank) == D.Touched(nodes, [], blank) + D.KeysOf(p, D.Read(nodes, p), a);
  }

  lemma BornBelow(w: World, u: D.Uid)
    requires WorldOk(w) && u in w.hist.births
    ensures u < w.db.nextUid
  {
    hide NodesOk, FamiliesOk, MintsOk, D.WellFormed;
  }

  lemma RotationCommit(w: World, pid: Pid, op: Op, pc: Pc)
    requires WorldOk(w) && ProcOk(w, pid, op, pc) && op.RefreshOp? && pc.RotateOpen? && !RotationAborts(w, op, pc)
    ensures var t := CommitRotate(w, pid, pc.x.id, RotationCore(w, op, pc), pc.at, pc.at - pc.checkedAt);
      WorldOk(t) && Moves(w, t, pid) && MadeBy(t, pid, op, w.db.nextUid) && HasMint(t, pid, pc.mint)
  {
    hide WorldOk, MintOf, LiveAt, Apply, Moves;
    BornBelow(w, pc.x.id);
    UnchangedSince(w, op, pc);
    hide RotationAborts, D.LastWrite;
    RotateMoves(w, pid, pc.x.id, RotationCore(w, op, pc), pc.at, pc.at - pc.checkedAt);
  }

  lemma CreateCommit(w: World, pid: Pid, op: Op, pc: Pc)
    requires WorldOk(w) && ProcOk(w, pid, op, pc) && pc.CreateReady?
    ensures var t := CommitCreate(w, pid, OpenCore(w, pc), pc.origin, pc.at);
      WorldOk(t) && Moves(w, t, pid) && MadeBy(t, pid, op, w.db.nextUid) && HasMint(t, pid, pc.mint)
  {
    hide WorldOk, MintOf, LiveAt, Apply, Moves;
    CreateMoves(w, pid, OpenCore(w, pc), pc.origin, pc.at);
  }

  // --- One step, and any number --------------------------------------------------------

  /** A step kept the world sound, moved it only forward, and left its process
      at a point whose assertion holds. */
  ghost predicate Kept(w: World, pid: Pid, op: Op, t: World, pc: Pc) {
    WorldOk(t) && Moves(w, t, pid) && ProcOk(t, pid, op, pc)
  }

  lemma StartNext(w: World, pid: Pid, op: Op, f: Fault, d: Draws)
    requires WorldOk(w) && ProcOk(w, pid, op, Start)
    ensures var r := Next(w, pid, op, Start, f, d); Kept(w, pid, op, r.0, r.1)
  {
    hide WorldOk, Moves, Started, FreshDraws, MintOf;
    SameMoves(w, pid);
    StartedOk(w, pid, op, f);
    if FreshDraws(w.hist.mints, d) {
      DrawMoves(w, pid, d);
    }
  }

  lemma DrawNext(w: World, pid: Pid, op: Op, pc: Pc, f: Fault, d: Draws)
    requires WorldOk(w) && ProcOk(w, pid, op, pc) && (pc.Checked? || pc.Renew?)
    ensures var r := Next(w, pid, op, pc, f, d); Kept(w, pid, op, r.0, r.1)
  {
    hide WorldOk, Moves, FreshDraws, MintOf;
    SameMoves(w, pid);
    if FreshDraws(w.hist.mints, d) {
      DrawMoves(w, pid, d);
    }
  }

  lemma TxnNext(w: World, pid: Pid, op: Op, pc: Pc, f: Fault, d: Draws)
    requires WorldOk(w) && ProcOk(w, pid, op, pc) && pc.RotateReady?
    ensures var r := Next(w, pid, op, pc, f, d); Kept(w, pid, op, r.0, r.1)
  {
    hide WorldOk, Moves, GetByID, LiveAt, Observed, HasMint;
    SameMoves(w, pid);
    if GetByID(w.db, pc.x.id).Some? {
      RotationRead(w, pid, op, pc);
    }
  }

  lemma RotateNext(w: World, pid: Pid, op: Op, pc: Pc, f: Fault, d: Draws)
    requires WorldOk(w) && ProcOk(w, pid, op, pc) && pc.RotateOpen?
    ensures var r := Next(w, pid, op, pc, f, d); Kept(w, pid, op, r.0, r.1)
  {
    hide WorldOk, Moves, RotationAborts, CommitRotate, RotationCore, LiveAt, Observed, HasMint, MadeBy;
    SameMoves(w, pid);
    if op.RefreshOp? && !RotationAborts(w, op, pc) {
      RotationCommit(w, pid, op, pc);
      var t := CommitRotate(w, pid, pc.x.id, RotationCore(w, op, pc), pc.at, pc.at - pc.checkedAt);
      CommittedOk(w, t, pid, op, pc.mint, w.db.nextUid, f);
    }
  }

  lemma CreateNext(w: World, pid: Pid, op: Op, pc: Pc, f: Fault, d: Draws)
    requires WorldOk(w) && ProcOk(w, pid, op, pc) && pc.CreateReady?
    ensures var r := Next(w, pid, op, pc, f, d); Kept(w, pid, op, r.0, r.1)
  {
    hide WorldOk, Moves, CommitCreate, OpenCore, LiveAt, OriginReady, HasMint, MadeBy;
    SameMoves(w, pid);
    CreateCommit(w, pid, op, pc);
    var t := CommitCreate(w, pid, OpenCore(w, pc), pc.origin, pc.at);
    CommittedOk(w, t, pid, op, pc.mint, w.db.nextUid, f);
  }

  lemma SweepNext(w: World, pid: Pid, op: Op, pc: Pc, f: Fault, d: Draws)
    requires WorldOk(w) && ProcOk(w, pid, op, pc) && (pc.SweepReady? || pc.Sweeping?)
    ensures var r := Next(w, pid, op, pc, f, d); Kept(w, pid, op, r.0, r.1)
  {
    hide WorldOk, Moves, Apply, Query, LiveAt, BornOf;
    SameMoves(w, pid);
    if pc.SweepReady? {
      ListOk(w, pc.userId);
    } else {
      ListedBorn(w, pid, op, pc);
      RevokeMoves(w, pc.uids, pid);
      MovesForward(w, Store(w, Revoke(pc.uids, w.clock)), pid);
      SweptOk(w, Store(w, Revoke(pc.uids, w.clock)), pid, op, pc, f);
    }
  }

  lemma MovesForward(w: World, t: World, pid: Pid)
    requires Moves(w, t, pid)
    ensures w.db.ts <= t.db.ts
  {
  }

  lemma ListedBorn(w: World, pid: Pid, op: Op, pc: Pc)
    requires ProcOk(w, pid, op, pc) && pc.Sweeping?
    ensures forall u :: u in pc.uids ==> u in w.hist.births
  {
  }

  lemma RevokeNext(w: World, pid: Pid, op: Op, pc: Pc, f: Fault, d: Draws)
    requires WorldOk(w) && ProcOk(w, pid, op, pc) && pc.RevokeReady?
    ensures var r := Next(w, pid, op, pc, f, d); Kept(w, pid, op, r.0, r.1)
  {
    hide WorldOk, Moves, Apply, LiveAt, RotationAborts, CommitRotate, CommitCreate, Started, Judged, FreshDraws;
    SameMoves(w, pid);
    assert pc.x.id in [pc.x.id];
    RevokeMoves(w, [pc.x.id], pid);
  }

  lemma TouchNext(w: World, pid: Pid, op: Op, pc: Pc, f: Fault, d: Draws)
    requires WorldOk(w) && ProcOk(w, pid, op, pc) && pc.TouchReady?
    ensures var r := Next(w, pid, op, pc, f, d); Kept(w, pid, op, r.0, r.1)
  {
    hide WorldOk, Moves, Apply, LiveAt, RotationAborts, CommitRotate, CommitCreate, Started, Judged, FreshDraws;
    SameMoves(w, pid);
    TouchMoves(w, pc.x.id, pid);
  }

  lemma PurgeNext(w: World, pid: Pid, op: Op, pc: Pc, f: Fault, d: Draws)
    requires WorldOk(w) && ProcOk(w, pid, op, pc) && pc.Purging?
    ensures var r := Next(w, pid, op, pc, f, d); Kept(w, pid, op, r.0, r.1)
  {
    hide WorldOk, Moves, Apply, LiveAt, RotationAborts, CommitRotate, CommitCreate, Started, Judged, FreshDraws;
    SameMoves(w, pid);
    PurgeMoves(w, pc.uids, pid);
  }

  lemma QuietNext(w: World, pid: Pid, op: Op, pc: Pc, f: Fault, d: Draws)
    requires WorldOk(w) && ProcOk(w, pid, op, pc) && (pc.Looked? || pc.Created? || pc.Done?)
    ensures var r := Next(w, pid, op, pc, f, d); Kept(w, pid, op, r.0, r.1)
  {
    hide WorldOk, Moves, MadeBy, HasMint, Judged;
    SameMoves(w, pid);
    if pc.Looked? {
      JudgedOk(w, pid, op, pc.x);
    }
  }

  lemma NextKeeps(w: World, pid: Pid, op: Op, pc: Pc, f: Fault, d: Draws)
    requires WorldOk(w) && ProcOk(w, pid, op, pc)
    ensures var r := Next(w, pid, op, pc, f, d); Kept(w, pid, op, r.0, r.1)
  {
    hide WorldOk, ProcOk, Kept, Next;
    match pc
    case Start => StartNext(w, pid, op, f, d);
    case Checked(_, _) => DrawNext(w, pid, op, pc, f, d);
    case Renew(_) => DrawNext(w, pid, op, pc, f, d);
    case RotateReady(_, _, _, _) => TxnNext(w, pid, op, pc, f, d);
    case RotateOpen(_, _, _, _, _, _) => RotateNext(w, pid, op, pc, f, d);
    case CreateReady(_, _, _, _, _, _, _) => CreateNext(w, pid, op, pc, f, d);
    case SweepReady(_) => SweepNext(w, pid, op, pc, f, d);
    case Sweeping(_, _, _) => SweepNext(w, pid, op, pc, f, d);
    case RevokeReady(_) => RevokeNext(w, pid, op, pc, f, d);
    case TouchReady(_) => TouchNext(w, pid, op, pc, f, d);
    case Purging(_, _) => PurgeNext(w, pid, op, pc, f, d);
    case Looked(_) => QuietNext(w, pid, op, pc, f, d);
    case Created(_, _) => QuietNext(w, pid, op, pc, f, d);
    case Done(_) => QuietNext(w, pid, op, pc, f, d);
  }

  /** `t` is reachable from `s`. */
  ghost predicate After(s: State, t: State) {
    && Later(s.w, t.w)
    && (forall p :: p in s.procs ==> p in t.procs && t.procs[p].op == s.procs[p].op)
    && (forall p :: p in s.procs && s.procs[p].pc.Done? ==> t.procs[p] == s.procs[p])
  }

  lemma OthersKeep(s: State, t: World, actor: Pid, op: Op, pc: Pc)
    requires Inv(s) && Kept(s.w, actor, op, t, pc)
    ensures Inv(State(t, s.procs[actor := Proc(op, pc)]))
  {
    hide WorldOk, ProcOk, Later;
    forall pid | pid in s.procs && pid != actor ensures ProcOk(t, pid, s.procs[pid].op, s.procs[pid].pc) {
      hide Moves;
      ProcStable(s.w, t, actor, pid, s.procs[pid].op, s.procs[pid].pc);
    }
  }

  lemma StepKeeps(s: State, e: Event)
    requires Inv(s)
    ensures Inv(Step(s, e)) && After(s, Step(s, e))
  {
    hide WorldOk, ProcOk, Later, Next, Kept, Moves;
    match e
    case Begin(pid, op) =>
      LaterRefl(s.w);
      if pid !in s.procs {
        BeginOk(s, pid, op);
      }
    case Tick(d) =>
      TickKeeps(s, d);
    case Act(pid, f, d) =>
      LaterRefl(s.w);
      if pid in s.procs {
        var Proc(op, pc) := s.procs[pid];
        var r := Next(s.w, pid, op, pc, f, d);
        NextKeeps(s.w, pid, op, pc, f, d);
        OthersKeep(s, r.0, pid, op, r.1);
        KeptLater(s.w, pid, op, r.0, r.1);
        DoneStays(s.w, pid, op, pc, f, d);
      }
  }

  lemma KeptLater(w: World, pid: Pid, op: Op, t: World, pc: Pc)
    requires Kept(w, pid, op, t, pc)
    ensures Later(w, t)
  {
    hide Later, WorldOk, ProcOk;
  }

  lemma DoneStays(w: World, pid: Pid, op: Op, pc: Pc, f: Fault, d: Draws)
    ensures pc.Done? ==> Next(w, pid, op, pc, f, d).1 == pc
  {
  }

  lemma BeginOk(s: State, pid: Pid, op: Op)
    requires Inv(s) && pid !in s.procs
    ensures Inv(s.(procs := s.procs[pid := Proc(op, Start)]))
  {
    UnknownUnborn(s, pid);
    hide WorldOk, Unborn;
  }

  lemma UnknownUnborn(s: State, pid: Pid)
    requires Inv(s) && pid !in s.procs
    ensures Unminted(s.w, pid)
  {
    hide ProcOk, NodesOk, FamiliesOk, PastOk, D.WellFormed;
  }

  lemma TickKeeps(s: State, elapsed: nat)
    requires Inv(s)
    ensures Inv(Step(s, Tick(elapsed))) && Later(s.w, Step(s, Tick(elapsed)).w)
  {
    hide WorldOk, ProcOk, Later;
    var t := s.w.(clock := s.w.clock + elapsed);
    forall pid | pid in s.procs ensures ProcOk(t, pid, s.procs[pid].op, s.procs[pid].pc) {
      TickMoves(s.w, elapsed, pid + 1);
      ProcStable(s.w, t, pid + 1, pid, s.procs[pid].op, s.procs[pid].pc);
    }
    TickMoves(s.w, elapsed, 0);
  }

  lemma InitOk(cfg: Config, clock: int)
    ensures Inv(Init(cfg, clock))
  {
  }

  /** Over any events whatever: the invariant holds at the end, and the end is later. */
  lemma {:induction false} RunKeeps(s: State, es: seq<Event>)
    requires Inv(s)
    ensures Inv(Run(s, es)) && After(s, Run(s, es))
    decreases |es|
  {
    hide Inv, Step, Later;
    LaterRefl(s.w);
    if es != [] {
      var m := Step(s, es[0]);
      StepKeeps(s, es[0]);
      RunKeeps(m, es[1..]);
      LaterTrans(s.w, m.w, Run(m, es[1..]).w);
    }
  }

  /** Reachable: the outcome of some run from an empty store. */
  lemma Reachable(cfg: Config, clock: int, es: seq<Event>)
    ensures Inv(Run(Init(cfg, clock), es))
  {
    InitOk(cfg, clock);
    hide Inv, Run;
    RunKeeps(Init(cfg, clock), es);
  }
}
