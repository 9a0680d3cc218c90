// What every other call of internal/service/session.go comes to, told from its
// request, the fate of its round trips, and the worlds they meet.

module SessionCalls {
  import opened Prelude
  import opened Times
  import opened OpaqueToken
  import opened Sessions
  import opened SessionStore
  import opened SessionProtocol
  import opened SessionInvariants
  import opened SessionSteps
  import opened SessionTheorems
  import opened SessionServices
  import opened SessionWrites
  import opened SessionSchedules
  import opened SessionRefreshes
  import D = Dgraph

  /** A call of `op` by `pid` is about to begin, in a reachable state. */
  ghost predicate Called(r: Trace, pid: Pid, op: Op, t: seq<Turn>, n: nat) {
    && pid in At(r).procs && At(r).procs[pid] == Proc(op, Start)
    && |t| >= n && Foreign(t, pid) && AlwaysFresh(At(r), pid, t)
  }

  /** Where the first k round trips of a call leave everything. */
  ghost function Left(s: State, pid: Pid, t: seq<Turn>, k: nat): State
    requires k <= |t|
  {
    Play(s, pid, t[..k])
  }

  /** The k-th round trip of a call, unless it has ended before: what it meets is
      sound, and what it leaves is what its step says. */
  ghost predicate Moved(s: State, pid: Pid, t: seq<Turn>, k: nat)
    requires k < |t|
  {
    var a, b, m := Left(s, pid, t, k), Left(s, pid, t, k + 1), Met(Left(s, pid, t, k), t[k]);
    && pid in s.procs && pid in a.procs && pid in b.procs
    && a.procs[pid].op == s.procs[pid].op && b.procs[pid].op == s.procs[pid].op
    && Sound(m) && m.w == Sees(s, pid, t, k)
    && if a.procs[pid].pc.Done? then b == a
       else && pid in m.procs && m.procs[pid] == a.procs[pid] && FreshDraws(m.w.hist.mints, t[k].draws)
            && (b.w, b.procs[pid].pc) == Next(m.w, pid, s.procs[pid].op, a.procs[pid].pc, t[k].fault, t[k].draws)
  }

  lemma SoundPlay(s: State, pid: Pid, t: seq<Turn>)
    requires Sound(s)
    ensures Sound(Play(s, pid, t))
  {
    hide Inv, WritesInv, Run, Events, After;
    PlayIsRun(s, pid, t);
    RunKeeps(s, Events(s, pid, t));
    RunWrites(s, Events(s, pid, t));
  }

  lemma LeftNext(s: State, pid: Pid, t: seq<Turn>, k: nat)
    requires k < |t| && pid in Left(s, pid, t, k).procs
    ensures var a := Left(s, pid, t, k);
      Left(s, pid, t, k + 1) == if a.procs[pid].pc.Done? then a else Taken(a, pid, t[k])
  {
    hide Run, Step, AlwaysFresh;
    var a, u := Left(s, pid, t, k), t[..k + 1];
    PlaySplits(s, pid, u, k);
    assert u[..k] == t[..k] && u[k..] == [t[k]] && [t[k]][1..] == [];
    assert Play(a, pid, [t[k]]) == if a.procs[pid].pc.Done? then a else Taken(a, pid, t[k]);
  }

  lemma Moves(s: State, pid: Pid, t: seq<Turn>, k: nat)
    requires Sound(s) && k < |t| && pid in s.procs && Foreign(t, pid) && AlwaysFresh(s, pid, t)
    ensures Moved(s, pid, t, k)
  {
    hide Run, Next, FreshDraws, AlwaysFresh, Inv, WritesInv, Play;
    var a := Left(s, pid, t, k);
    PlaySplits(s, pid, t, k);
    SoundPlay(s, pid, t[..k]);
    SameOp(s, pid, t[..k]);
    LeftNext(s, pid, t, k);
    if a.procs[pid].pc.Done? {
      RunKeeps(a, t[k].between);
      RunWrites(a, t[k].between);
    } else {
      AnyTurn(a, pid, t[k..]);
    }
  }

  lemma CallMoves(r: Trace, pid: Pid, op: Op, t: seq<Turn>, n: nat, k: nat)
    requires Called(r, pid, op, t, n) && k < n
    ensures Moved(At(r), pid, t, k) && Left(At(r), pid, t, 0) == At(r)
  {
    hide Run, AlwaysFresh, Foreign, Inv, WritesInv;
    Reached(r);
    EverWritten(r);
    Moves(At(r), pid, t, k);
    assert t[..0] == [];
  }

  /** A call that has ended changes nothing more. */
  lemma Ended(s: State, pid: Pid, t: seq<Turn>, k: nat)
    requires k <= |t| && pid in Left(s, pid, t, k).procs && Left(s, pid, t, k).procs[pid].pc.Done?
    ensures Play(s, pid, t) == Left(s, pid, t, k)
  {
    hide Run, Step, AlwaysFresh;
    PlaySplits(s, pid, t, k);
  }

  // --- What names a session --------------------------------------------------------------------

  /** Session `u` was born with access token `raw`. */
  ghost predicate Names(w: World, raw: string, u: D.Uid) {
    u in w.hist.births && w.hist.births[u].core.accessHash == Hash(raw)
  }

  ghost predicate Unnamed(w: World, raw: string) { forall u :: !Names(w, raw, u) }

  lemma SoundUnnamed(s: State, raw: string)
    requires Sound(s) && Unnamed(s.w, raw)
    ensures Lookup(s.w, raw) == None
  {
    hide WritesInv, WorldOk, ProcOk, Lookup, LookupRefresh;
    LookupOk(s.w, raw);
    assert Lookup(s.w, raw).Some? ==> Names(s.w, raw, Lookup(s.w, raw).value.id);
  }

  lemma SoundLookup(s: State, raw: string, u: D.Uid)
    requires Sound(s) && Names(s.w, raw, u)
    ensures var x := Lookup(s.w, raw);
      if !Visible(s.w, u) then x.None?
      else x.Some? && x.value.id == u && x.value.core == s.w.hist.births[u].core
           && (x.value.status.revoked <==> !LiveAt(s.w, u))
  {
    hide WritesInv, Visible, LiveAt, Lookup, View, GetByID, WorldOk, ProcOk;
    AccessFinds(s.w, raw, u);
    if Visible(s.w, u) {
      ViewLive(s.w, u);
    }
  }

  lemma SoundById(s: State, u: D.Uid)
    requires Sound(s)
    ensures GetByID(s.w.db, u).Some? <==> Visible(s.w, u)
    ensures Visible(s.w, u) ==>
      && u in s.w.hist.births && GetByID(s.w.db, u).value.id == u
      && GetByID(s.w.db, u).value.core == s.w.hist.births[u].core
      && (GetByID(s.w.db, u).value.status.revoked <==> !LiveAt(s.w, u))
  {
    hide WritesInv, LiveAt, View, WorldOk, ProcOk;
    if Visible(s.w, u) {
      ViewLive(s.w, u);
    }
  }

  // --- What a call leaves in the store -----------------------------------------------------------

  /** `t` is `w` with exactly the sessions in `us` revoked at the present second. */
  ghost predicate Revokes(w: World, t: World, us: set<D.Uid>) {
    && t.cfg == w.cfg && t.clock == w.clock && t.hist == w.hist
    && forall v :: Node(t, v) ==
         if v in us then Node(w, v)[D.Revoked := D.Flag(true)][D.RevokedAt := D.Instant(Trunc(w.clock))]
                                   [D.UpdatedAt := D.Instant(Trunc(w.clock))]
         else Node(w, v)
  }

  lemma RevokeStores(s: State, uids: seq<D.Uid>, us: set<D.Uid>)
    requires Sound(s) && forall u :: u in uids <==> u in us
    requires forall u :: u in us ==> u in s.w.hist.births
    ensures Revokes(s.w, Store(s.w, Mutation.Revoke(uids, s.w.clock)), us)
  {
    hide WritesInv, WorldOk, ProcOk, Apply, D.WellFormed;
    SoundStore(s.w);
    forall u | u in us ensures u < s.w.db.nextUid { BornBelow(s.w, u); }
    var m := Mutation.Revoke(uids, s.w.clock);
    forall v ensures Node(Store(s.w, m), v) == Effect(s.w.db, m, v) { ApplyEffect(s.w.db, m, v); }
  }

  /** `t` is `w` with session `u` last seen at the present second. */
  ghost predicate Touches(w: World, t: World, u: D.Uid) {
    && t.cfg == w.cfg && t.clock == w.clock && t.hist == w.hist
    && forall v :: Node(t, v) ==
         if v == u then Node(w, v)[D.LastSeenAt := D.Instant(Trunc(w.clock))] else Node(w, v)
  }

  lemma TouchStores(s: State, u: D.Uid)
    requires Sound(s) && u in s.w.hist.births
    ensures Touches(s.w, Store(s.w, Mutation.Touch(u, s.w.clock)), u)
  {
    hide WritesInv, WorldOk, ProcOk, Apply, D.WellFormed;
    SoundStore(s.w);
    BornBelow(s.w, u);
    var m := Mutation.Touch(u, s.w.clock);
    forall v ensures Node(Store(s.w, m), v) == Effect(s.w.db, m, v) { ApplyEffect(s.w.db, m, v); }
  }

  // --- Verification --------------------------------------------------------------------------

  /** The answer of a verification: it is out before the touch. */
  function Said(pc: Pc): Option<Outcome> {
    match pc
    case TouchReady(x) => Some(Verified(x.core.who))
    case Done(o) => Some(o)
    case _ => None
  }

  lemma VerifyLookup(w: World, pid: Pid, raw: string, f: Fault, d: Draws)
    ensures Next(w, pid, VerifyOp(raw), Start, f, d)
         == (w, if f != NoFault then Done(Failed(None))
                else if Lookup(w, raw).None? then Done(NotFound) else Looked(Lookup(w, raw).value))
  {
    hide Lookup;
  }

  lemma VerifyCheck(w: World, pid: Pid, raw: string, x: Session, f: Fault, d: Draws)
    ensures Next(w, pid, VerifyOp(raw), Looked(x), f, d)
         == (w, if x.status.revoked then Done(SessionRevoked)
                else if w.clock > x.core.expiresAt then Done(AccessExpired) else TouchReady(x))
  {
  }

  lemma VerifyTouch(w: World, pid: Pid, raw: string, x: Session, f: Fault, d: Draws)
    ensures Next(w, pid, VerifyOp(raw), TouchReady(x), f, d)
         == (if f == Refused then w else Store(w, Touch(x.id, w.clock)), Done(Verified(x.core.who)))
  {
    hide Store;
  }

  /** Over every schedule, what a verification answers: the principal if and only if
      its lookup is answered and finds the session the token names live, and the
      clock at the check has not passed that session's expiry. */
  lemma VerifyIff(r: Trace, pid: Pid, raw: string, t: seq<Turn>, u: D.Uid)
    requires Called(r, pid, VerifyOp(raw), t, 2) && Names(Sees(At(r), pid, t, 0), raw, u)
    ensures var lookup, check := Sees(At(r), pid, t, 0), Sees(At(r), pid, t, 1);
      var end, b := Left(At(r), pid, t, 2), lookup.hist.births[u];
      && pid in end.procs
      && Said(end.procs[pid].pc)
         == Some(if t[0].fault != NoFault then Failed(None)
                 else if !Visible(lookup, u) then NotFound
                 else if !LiveAt(lookup, u) then SessionRevoked
                 else if check.clock > b.core.expiresAt then AccessExpired
                 else Verified(b.core.who))
      && (if end.procs[pid].pc.TouchReady? then end.procs[pid].pc.x.id == u
          else !Said(end.procs[pid].pc).value.Verified?)
      && end.w == if t[0].fault != NoFault || !Visible(lookup, u) then lookup else check
  {
    hide Run, Play, Next, FreshDraws, AlwaysFresh, Sound, Foreign, Sees, LiveAt, Visible, Lookup, View, GetByID;
    CallMoves(r, pid, VerifyOp(raw), t, 2, 0);
    CallMoves(r, pid, VerifyOp(raw), t, 2, 1);
    var m0, m1 := Met(Left(At(r), pid, t, 0), t[0]), Met(Left(At(r), pid, t, 1), t[1]);
    VerifyLookup(m0.w, pid, raw, t[0].fault, t[0].draws);
    SoundLookup(m0, raw, u);
    var pc := Left(At(r), pid, t, 1).procs[pid].pc;
    if pc.Looked? {
      VerifyCheck(m1.w, pid, raw, pc.x, t[1].fault, t[1].draws);
    }
  }

  /** A verification leaves the store alone, but for the last use of the session
      whose token it accepted. */
  lemma VerifyTouches(r: Trace, pid: Pid, raw: string, t: seq<Turn>, u: D.Uid)
    requires Called(r, pid, VerifyOp(raw), t, 3) && Names(Sees(At(r), pid, t, 0), raw, u)
    ensures var said, end := Left(At(r), pid, t, 2), Play(At(r), pid, t);
      && pid in said.procs && pid in end.procs && Said(said.procs[pid].pc).Some?
      && var o := Said(said.procs[pid].pc).value;
      && end.procs[pid].pc == Done(o)
      && if o.Verified? && t[2].fault != Refused then Touches(Sees(At(r), pid, t, 2), end.w, u)
         else end.w == if o.Verified? then Sees(At(r), pid, t, 2)
                       else if o.Failed? || o.NotFound? then Sees(At(r), pid, t, 0) else Sees(At(r), pid, t, 1)
  {
    hide Run, Play, Next, FreshDraws, AlwaysFresh, Inv, WritesInv, Foreign, Sees, LiveAt, Visible;
    hide Lookup, View, GetByID;
    hide Touches, Apply;
    VerifyIff(r, pid, raw, t, u);
    CallMoves(r, pid, VerifyOp(raw), t, 3, 2);
    var pc, m2 := Left(At(r), pid, t, 2).procs[pid].pc, Met(Left(At(r), pid, t, 2), t[2]);
    if pc.TouchReady? {
      VerifyTouch(m2.w, pid, raw, pc.x, t[2].fault, t[2].draws);
      AimsAt(m2, pid);
      TouchStores(m2, u);
    }
    Ended(At(r), pid, t, 3);
  }

  lemma AimsAt(s: State, pid: Pid)
    requires Sound(s) && pid in s.procs
    ensures var pc := s.procs[pid].pc;
      && (pc.TouchReady? || pc.RevokeReady? ==>
            pc.x.id in s.w.hist.births && pc.x.core == s.w.hist.births[pc.x.id].core)
      && (pc.Sweeping? ==> forall u :: u in pc.uids ==> u in s.w.hist.births)
  {
    hide WorldOk, WritesInv, Unborn, Unminted, LiveAt;
    assert ProcOk(s.w, pid, s.procs[pid].op, s.procs[pid].pc);
  }

  lemma VerifyUnknown(r: Trace, pid: Pid, raw: string, t: seq<Turn>)
    requires Called(r, pid, VerifyOp(raw), t, 1) && Unnamed(Sees(At(r), pid, t, 0), raw)
    ensures var end := Play(At(r), pid, t);
      && pid in end.procs && end.procs[pid].pc == Done(if t[0].fault != NoFault then Failed(None) else NotFound)
      && end.w == Sees(At(r), pid, t, 0)
  {
    hide Run, Play, Next, FreshDraws, AlwaysFresh, Sound, Foreign, Sees, Lookup, Unnamed;
    CallMoves(r, pid, VerifyOp(raw), t, 1, 0);
    var m := Met(Left(At(r), pid, t, 0), t[0]);
    VerifyLookup(m.w, pid, raw, t[0].fault, t[0].draws);
    SoundUnnamed(m, raw);
    Ended(At(r), pid, t, 1);
  }

  // --- Logging out of one session -----------------------------------------------------------------

  lemma LogoutLookup(w: World, pid: Pid, raw: string, f: Fault, d: Draws)
    ensures Next(w, pid, LogoutOp(raw), Start, f, d)
         == (w, if f != NoFault then Done(Failed(None))
                else if Lookup(w, raw).None? then Done(LoggedOut) else RevokeReady(Lookup(w, raw).value))
  {
    hide Lookup;
  }

  lemma OneRevoked(w: World, pid: Pid, op: Op, x: Session, f: Fault, d: Draws)
    requires op.LogoutOp? || op.RevokeOp?
    ensures Next(w, pid, op, RevokeReady(x), f, d)
         == (if f == Refused then w else Store(w, Revoke([x.id], w.clock)),
             Done(if f == NoFault then LoggedOut else Failed(None)))
  {
    hide Store;
  }

  /** The second round trip of a logout or a revocation. */
  lemma LastTurn(r: Trace, pid: Pid, op: Op, t: seq<Turn>)
    requires Called(r, pid, op, t, 2) && (op.LogoutOp? || op.RevokeOp?)
    requires var a := Left(At(r), pid, t, 1); pid in a.procs && a.procs[pid].pc.RevokeReady?
    ensures var write, end := Sees(At(r), pid, t, 1), Play(At(r), pid, t);
      && pid in end.procs
      && end.procs[pid].pc == Done(if t[1].fault == NoFault then LoggedOut else Failed(None))
      && if t[1].fault == Refused then end.w == write
         else Revokes(write, end.w, {Left(At(r), pid, t, 1).procs[pid].pc.x.id})
  {
    hide Run, Play, Next, FreshDraws, AlwaysFresh, Inv, WritesInv, Foreign, Sees, Revokes, Apply;
    CallMoves(r, pid, op, t, 2, 1);
    var a, m := Left(At(r), pid, t, 1), Met(Left(At(r), pid, t, 1), t[1]);
    var x := a.procs[pid].pc.x;
    OneRevoked(m.w, pid, op, x, t[1].fault, t[1].draws);
    AimsAt(m, pid);
    RevokeStores(m, [x.id], {x.id});
    Ended(At(r), pid, t, 2);
  }

  /** Over every schedule, what a logout comes to: with an answered lookup and an
      answered write it succeeds and exactly the session the token names is revoked,
      if it is still there; a session that is gone is a success too. */
  lemma LogoutIff(r: Trace, pid: Pid, raw: string, t: seq<Turn>, u: D.Uid)
    requires Called(r, pid, LogoutOp(raw), t, 2) && Names(Sees(At(r), pid, t, 0), raw, u)
    ensures var lookup, write, end := Sees(At(r), pid, t, 0), Sees(At(r), pid, t, 1), Play(At(r), pid, t);
      && pid in end.procs
      && if t[0].fault != NoFault then end.procs[pid].pc == Done(Failed(None)) && end.w == lookup
         else if !Visible(lookup, u) then end.procs[pid].pc == Done(LoggedOut) && end.w == lookup
         else && end.procs[pid].pc == Done(if t[1].fault == NoFault then LoggedOut else Failed(None))
              && if t[1].fault == Refused then end.w == write else Revokes(write, end.w, {u})
  {
    hide Run, Play, Next, FreshDraws, AlwaysFresh, Sound, Foreign, Sees, LiveAt, Visible, Lookup;
    hide View, GetByID, Revokes;
    CallMoves(r, pid, LogoutOp(raw), t, 2, 0);
    var m := Met(Left(At(r), pid, t, 0), t[0]);
    LogoutLookup(m.w, pid, raw, t[0].fault, t[0].draws);
    SoundLookup(m, raw, u);
    if Left(At(r), pid, t, 1).procs[pid].pc.RevokeReady? {
      LastTurn(r, pid, LogoutOp(raw), t);
    } else {
      Ended(At(r), pid, t, 1);
    }
  }

  /** Logging out with a token no session was born with succeeds and changes nothing. */
  lemma LogoutUnknown(r: Trace, pid: Pid, raw: string, t: seq<Turn>)
    requires Called(r, pid, LogoutOp(raw), t, 1) && Unnamed(Sees(At(r), pid, t, 0), raw)
    ensures var end := Play(At(r), pid, t);
      && pid in end.procs && end.procs[pid].pc == Done(if t[0].fault != NoFault then Failed(None) else LoggedOut)
      && end.w == Sees(At(r), pid, t, 0)
  {
    hide Run, Play, Next, FreshDraws, AlwaysFresh, Sound, Foreign, Sees, Lookup, Unnamed;
    CallMoves(r, pid, LogoutOp(raw), t, 1, 0);
    var m := Met(Left(At(r), pid, t, 0), t[0]);
    LogoutLookup(m.w, pid, raw, t[0].fault, t[0].draws);
    SoundUnnamed(m, raw);
    Ended(At(r), pid, t, 1);
  }

  lemma RevokeLookup(w: World, pid: Pid, id: D.Uid, requester: string, f: Fault, d: Draws)
    ensures Next(w, pid, RevokeOp(id, requester), Start, f, d)
         == (w, if f != NoFault then Done(Failed(None))
                else if GetByID(w.db, id).None? then Done(NotFound)
                else if GetByID(w.db, id).value.core.who.userId != requester then Done(NotOwned)
                else RevokeReady(GetByID(w.db, id).value))
  {
    hide GetByID;
  }

  /** Over every schedule, what revoking a session by its id comes to. */
  lemma RevokeIff(r: Trace, pid: Pid, id: D.Uid, requester: string, t: seq<Turn>)
    requires Called(r, pid, RevokeOp(id, requester), t, 2)
    ensures Visible(Sees(At(r), pid, t, 0), id) ==> id in Sees(At(r), pid, t, 0).hist.births
    ensures var lookup, write, end := Sees(At(r), pid, t, 0), Sees(At(r), pid, t, 1), Play(At(r), pid, t);
      && pid in end.procs
      && if t[0].fault != NoFault then end.procs[pid].pc == Done(Failed(None)) && end.w == lookup
         else if !Visible(lookup, id) then end.procs[pid].pc == Done(NotFound) && end.w == lookup
         else if lookup.hist.births[id].core.who.userId != requester then
           end.procs[pid].pc == Done(NotOwned) && end.w == lookup
         else && end.procs[pid].pc == Done(if t[1].fault == NoFault then LoggedOut else Failed(None))
              && if t[1].fault == Refused then end.w == write else Revokes(write, end.w, {id})
  {
    hide Run, Play, Next, FreshDraws, AlwaysFresh, Sound, Foreign, Sees, LiveAt, Visible, View, GetByID, Revokes;
    CallMoves(r, pid, RevokeOp(id, requester), t, 2, 0);
    var m := Met(Left(At(r), pid, t, 0), t[0]);
    RevokeLookup(m.w, pid, id, requester, t[0].fault, t[0].draws);
    SoundById(m, id);
    if Left(At(r), pid, t, 1).procs[pid].pc.RevokeReady? {
      LastTurn(r, pid, RevokeOp(id, requester), t);
    } else {
      Ended(At(r), pid, t, 1);
    }
  }

  // --- Logging out everywhere ---------------------------------------------------------------------

  /** The user's live sessions. */
  ghost function LiveSessions(w: World, user: string): set<D.Uid> {
    set u | u in w.hist.births && w.hist.births[u].core.who.userId == user && LiveAt(w, u)
  }

  lemma AllStart(w: World, pid: Pid, user: string, f: Fault, d: Draws)
    ensures Next(w, pid, LogoutAllOp(user), Start, f, d) == (w, SweepReady(user))
  {
  }

  /** How a bulk revocation is reported: by a logout as what it was, by a refresh
      always as the replay it went after. */
  function SweepReport(op: Op, user: string, swept: Option<nat>, answered: bool): Outcome {
    if op.RefreshOp? then Replayed(user, swept)
    else if answered && swept.Some? then SweptAll(user, swept.value) else Failed(None)
  }

  lemma SweepList(w: World, pid: Pid, op: Op, user: string, f: Fault, d: Draws)
    requires op.LogoutAllOp? || op.RefreshOp?
    ensures Next(w, pid, op, SweepReady(user), f, d)
         == (w, if f != NoFault then Done(SweepReport(op, user, None, false))
                else if Query(w.db, LiveOf(user)) == [] then Done(SweepReport(op, user, Some(w.db.ts), true))
                else Sweeping(user, Query(w.db, LiveOf(user)), w.db.ts))
  {
    hide Query;
  }

  lemma SweepWrite(w: World, pid: Pid, op: Op, user: string, uids: seq<D.Uid>, listTs: nat, f: Fault, d: Draws)
    requires op.LogoutAllOp? || op.RefreshOp?
    ensures Next(w, pid, op, Sweeping(user, uids, listTs), f, d)
         == (if f == Refused then w else Store(w, Revoke(uids, w.clock)),
             Done(SweepReport(op, user, if f == Refused then None else Some(listTs), f == NoFault)))
  {
    hide Store;
  }

  lemma ListedLive(s: State, user: string)
    requires Sound(s)
    ensures forall u :: u in Query(s.w.db, LiveOf(user)) <==> u in LiveSessions(s.w, user)
    ensures Query(s.w.db, LiveOf(user)) == [] <==> LiveSessions(s.w, user) == {}
  {
    hide WritesInv, WorldOk, ProcOk, LiveAt, Matches;
    forall u ensures u in Query(s.w.db, LiveOf(user)) <==> u in LiveSessions(s.w, user) {
      ListNode(s.w, user, u);
      if u in LiveSessions(s.w, user) {
        BornPast(s.w, u);
      }
    }
    var found := Query(s.w.db, LiveOf(user));
    assert found != [] ==> found[0] in found;
  }

  /** The two round trips of a bulk revocation. */
  lemma SweepTurns(r: Trace, pid: Pid, op: Op, t: seq<Turn>, k: nat, user: string)
    requires Called(r, pid, op, t, k + 2) && (op.LogoutAllOp? || op.RefreshOp?)
    requires var a := Left(At(r), pid, t, k); pid in a.procs && a.procs[pid].pc == SweepReady(user)
    ensures var list, write, end := Sees(At(r), pid, t, k), Sees(At(r), pid, t, k + 1), Play(At(r), pid, t);
      var mine := LiveSessions(list, user);
      && pid in end.procs
      && if t[k].fault != NoFault then
           end.procs[pid].pc == Done(SweepReport(op, user, None, false)) && end.w == list
         else if mine == {} then
           end.procs[pid].pc == Done(SweepReport(op, user, Some(list.db.ts), true)) && end.w == list
         else if t[k + 1].fault == Refused then
           end.procs[pid].pc == Done(SweepReport(op, user, None, false)) && end.w == write
         else && end.procs[pid].pc == Done(SweepReport(op, user, Some(list.db.ts), t[k + 1].fault == NoFault))
              && Revokes(write, end.w, mine)
  {
    hide Run, Play, Next, FreshDraws, AlwaysFresh, Inv, WritesInv, Foreign, Sees, LiveSessions, Query, Revokes, Apply;
    hide SweepReport;
    CallMoves(r, pid, op, t, k + 2, k);
    CallMoves(r, pid, op, t, k + 2, k + 1);
    var m1, m2 := Met(Left(At(r), pid, t, k), t[k]), Met(Left(At(r), pid, t, k + 1), t[k + 1]);
    SweepList(m1.w, pid, op, user, t[k].fault, t[k].draws);
    ListedLive(m1, user);
    var a2 := Left(At(r), pid, t, k + 1);
    if a2.procs[pid].pc.Sweeping? {
      var uids := a2.procs[pid].pc.uids;
      SweepWrite(m2.w, pid, op, user, uids, m1.w.db.ts, t[k + 1].fault, t[k + 1].draws);
      AimsAt(m2, pid);
      RevokeStores(m2, uids, LiveSessions(m1.w, user));
    }
    Ended(At(r), pid, t, k + 2);
  }

  /** Over every schedule, what logging out everywhere comes to: with an answered list
      and an answered write it succeeds, and exactly the sessions of the requested
      user that were live at the list are revoked; nobody else's are touched. */
  lemma LogoutAllIff(r: Trace, pid: Pid, user: string, t: seq<Turn>)
    requires Called(r, pid, LogoutAllOp(user), t, 3)
    ensures var list, write, end := Sees(At(r), pid, t, 1), Sees(At(r), pid, t, 2), Play(At(r), pid, t);
      var mine := LiveSessions(list, user);
      && pid in end.procs
      && if t[1].fault != NoFault then end.procs[pid].pc == Done(Failed(None)) && end.w == list
         else if mine == {} then end.procs[pid].pc == Done(SweptAll(user, list.db.ts)) && end.w == list
         else && end.procs[pid].pc
                 == Done(if t[2].fault == NoFault then SweptAll(user, list.db.ts) else Failed(None))
              && if t[2].fault == Refused then end.w == write else Revokes(write, end.w, mine)
  {
    hide Run, Play, Next, FreshDraws, AlwaysFresh, Inv, WritesInv, Foreign, Sees, LiveSessions, Query, Revokes, Apply;
    CallMoves(r, pid, LogoutAllOp(user), t, 3, 0);
    AllStart(Met(Left(At(r), pid, t, 0), t[0]).w, pid, user, t[0].fault, t[0].draws);
    SweepTurns(r, pid, LogoutAllOp(user), t, 1, user);
  }

  /** After a successful logout of `user` everywhere, every session of that user
      created by the time of the list is dead, in every continuation. */
  lemma LoggedOutEverywhere(r: Trace, pid: Pid, user: string, t: seq<Turn>, more: seq<Event>, u: D.Uid)
    requires Called(r, pid, LogoutAllOp(user), t, 3)
    requires var end := Play(At(r), pid, t).procs; pid in end && end[pid].pc.Done? && end[pid].pc.outcome.SweptAll?
    requires var list := Sees(At(r), pid, t, 1);
      u in list.hist.births && list.hist.births[u].core.who.userId == user
    ensures !LiveAt(Play(At(r), pid, t).w, u) && !LiveAt(Run(Play(At(r), pid, t), more).w, u)
  {
    hide Run, Play, Next, AlwaysFresh, Inv, WritesInv, Foreign, Sees, LiveAt, D.Extends, Visible, FreshDraws;
    LogoutAllIff(r, pid, user, t);
    CallMoves(r, pid, LogoutAllOp(user), t, 3, 0);
    CallMoves(r, pid, LogoutAllOp(user), t, 3, 1);
    AllStart(Met(Left(At(r), pid, t, 0), t[0]).w, pid, user, t[0].fault, t[0].draws);
    CallEnds(r, pid, LogoutAllOp(user), t, 3, 1, more);
    RevokedDead(Sees(At(r), pid, t, 1), Sees(At(r), pid, t, 2), Play(At(r), pid, t).w, user, u);
  }

  lemma RevokedDead(list: World, write: World, end: World, user: string, u: D.Uid)
    requires u in list.hist.births && list.hist.births[u].core.who.userId == user
    requires LiveSessions(list, user) == {} || Revokes(write, end, LiveSessions(list, user))
    ensures LiveAt(list, u) ==> !LiveAt(end, u)
  {
    assert LiveAt(list, u) ==> u in LiveSessions(list, user);
  }

  /** What a call meets, unless it has ended, comes before what it leaves, and that
      before every continuation. */
  lemma CallEnds(r: Trace, pid: Pid, op: Op, t: seq<Turn>, n: nat, k: nat, more: seq<Event>)
    requires Called(r, pid, op, t, n) && k < n
    requires var a := Left(At(r), pid, t, k); pid in a.procs && !a.procs[pid].pc.Done?
    ensures Later(Sees(At(r), pid, t, k), Play(At(r), pid, t).w)
    ensures Later(Play(At(r), pid, t).w, Run(Play(At(r), pid, t), more).w)
    ensures Sound(Play(At(r), pid, t))
  {
    hide Run, Play, Step, AlwaysFresh, Inv, WritesInv, Foreign, Later, Events;
    Reached(r);
    EverWritten(r);
    var s, m := At(r), Met(Left(At(r), pid, t, k), t[k]);
    CallMoves(r, pid, op, t, n, k);
    LeftNext(s, pid, t, k);
    PlaySplits(s, pid, t, k + 1);
    var b, rest := Left(s, pid, t, k + 1), t[k + 1..];
    StepKeeps(m, Act(pid, t[k].fault, t[k].draws));
    PlayIsRun(b, pid, rest);
    RunKeeps(b, Events(b, pid, rest));
    LaterTrans(m.w, b.w, Play(s, pid, t).w);
    SoundPlay(s, pid, t);
    RunKeeps(Play(s, pid, t), more);
  }

  // --- The purge ----------------------------------------------------------------------------------

  /** The stored sessions whose refresh deadline has come by the present second. */
  ghost function Due(w: World): set<D.Uid> {
    set u | u in w.hist.births && Visible(w, u) && w.hist.births[u].core.refreshExpiresAt <= Trunc(w.clock)
  }

  /** `t` is `w` without the sessions in `us`. */
  ghost predicate Clears(w: World, t: World, us: set<D.Uid>) {
    && t.cfg == w.cfg && t.clock == w.clock && t.hist == w.hist
    && forall v :: Node(t, v) == if v in us && Visible(w, v) then map[] else Node(w, v)
  }

  lemma PurgeList(w: World, pid: Pid, f: Fault, d: Draws)
    ensures var found := Query(w.db, ExpiredBy(Trunc(w.clock)));
      Next(w, pid, PurgeOp, Start, f, d)
      == (w, if f != NoFault then Done(Failed(None))
             else if found == [] then Done(Purged(0)) else Purging(found, Trunc(w.clock)))
  {
    hide Query, Trunc;
  }

  lemma PurgeWrite(w: World, pid: Pid, uids: seq<D.Uid>, threshold: int, f: Fault, d: Draws)
    ensures Next(w, pid, PurgeOp, Purging(uids, threshold), f, d)
         == (if f == Refused then w else Store(w, Purge(uids)),
             Done(if f == NoFault then Purged(|uids|) else Failed(None)))
  {
    hide Store;
  }

  lemma ExpiredNode(w: World, u: D.Uid)
    requires WorldOk(w)
    ensures u < w.db.nextUid && u in w.db.nodes && Matches(ExpiredBy(Trunc(w.clock)), w.db.nodes[u]) <==> u in Due(w)
  {
    hide FamiliesOk, MintsOk, CoreOf, StatusOf, Trunc;
    assert NodeOk(Node(w, u), w.hist.births, w.hist.succ, u);
  }

  lemma ListedDue(s: State)
    requires Sound(s)
    ensures forall u :: u in Query(s.w.db, ExpiredBy(Trunc(s.w.clock))) <==> u in Due(s.w)
    ensures |Query(s.w.db, ExpiredBy(Trunc(s.w.clock)))| == |Due(s.w)|
  {
    hide WritesInv, WorldOk, ProcOk, Matches, Trunc, Due;
    forall u ensures u in Query(s.w.db, ExpiredBy(Trunc(s.w.clock))) <==> u in Due(s.w) { ExpiredNode(s.w, u); }
    Counted(Query(s.w.db, ExpiredBy(Trunc(s.w.clock))), Due(s.w));
  }

  lemma {:induction false} Counted(a: seq<D.Uid>, us: set<D.Uid>)
    requires forall i, j :: 0 <= i < j < |a| ==> a[i] < a[j]
    requires forall u :: u in a <==> u in us
    ensures |a| == |us|
  {
    if a != [] {
      var init, last := a[..|a| - 1], a[|a| - 1];
      assert a == init + [last];
      Counted(init, us - {last});
    }
  }

  lemma PurgeStores(s: State, uids: seq<D.Uid>, us: set<D.Uid>)
    requires Sound(s) && forall u :: u in uids <==> u in us
    ensures Clears(s.w, Store(s.w, Mutation.Purge(uids)), us)
  {
    hide WritesInv, ProcOk, Apply, FamiliesOk, MintsOk, PastOk, D.WellFormed, CoreOf, StatusOf;
    SoundStore(s.w);
    var m := Mutation.Purge(uids);
    forall v ensures Node(Store(s.w, m), v) == if v in us && Visible(s.w, v) then map[] else Node(s.w, v) {
      ApplyEffect(s.w.db, m, v);
      assert NodeOk(Node(s.w, v), s.w.hist.births, s.w.hist.succ, v);
    }
  }

  /** Over every schedule, what a purge comes to: with an answered list and an
      answered write it removes exactly the stored sessions whose deadline had come
      by the second of the list, and reports how many they were. */
  lemma PurgeIff(r: Trace, pid: Pid, t: seq<Turn>)
    requires Called(r, pid, PurgeOp, t, 2)
    ensures var list, write, end := Sees(At(r), pid, t, 0), Sees(At(r), pid, t, 1), Play(At(r), pid, t);
      var due := Due(list);
      && pid in end.procs
      && if t[0].fault != NoFault then end.procs[pid].pc == Done(Failed(None)) && end.w == list
         else if due == {} then end.procs[pid].pc == Done(Purged(0)) && end.w == list
         else && end.procs[pid].pc == Done(if t[1].fault == NoFault then Purged(|due|) else Failed(None))
              && if t[1].fault == Refused then end.w == write else Clears(write, end.w, due)
  {
    hide Run, Play, Next, FreshDraws, AlwaysFresh, Inv, WritesInv, Foreign, Sees, Due, Query, Clears, Apply, Trunc;
    CallMoves(r, pid, PurgeOp, t, 2, 0);
    CallMoves(r, pid, PurgeOp, t, 2, 1);
    var m0, m1 := Met(Left(At(r), pid, t, 0), t[0]), Met(Left(At(r), pid, t, 1), t[1]);
    PurgeList(m0.w, pid, t[0].fault, t[0].draws);
    ListedDue(m0);
    var a1 := Left(At(r), pid, t, 1);
    if a1.procs[pid].pc.Purging? {
      var uids := a1.procs[pid].pc.uids;
      PurgeWrite(m1.w, pid, uids, a1.procs[pid].pc.threshold, t[1].fault, t[1].draws);
      PurgeStores(m1, uids, Due(m0.w));
    }
    Ended(At(r), pid, t, 2);
  }

  // --- Failed round trips ---------------------------------------------------------------------------

  /** Where the calls that create a session wait for a round trip, the entropy
      source included; the checks on a session that was looked up are none. */
  predicate AtTrip(op: Op, pc: Pc) {
    match op
    case OpenOp(_, _, _, _) => pc.Start? || pc.CreateReady? || pc.Created?
    case ActivateOp(_, _, _, _, _, _, _) => pc.Start? || pc.RevokeReady? || pc.Renew? || pc.CreateReady? || pc.Created?
    case RefreshOp(_, _, _) =>
      pc.Start? || pc.Checked? || pc.RotateReady? || pc.RotateOpen? || pc.Created? || pc.SweepReady? || pc.Sweeping?
    case _ => false
  }

  lemma FaultTurn(w: World, pid: Pid, op: Op, pc: Pc, f: Fault, d: Draws)
    requires AtTrip(op, pc) && f != NoFault
    ensures var next := Next(w, pid, op, pc, f, d).1;
      next.Done? && if pc.SweepReady? || pc.Sweeping? then next.outcome.Replayed? else next.outcome.Failed?
  {
    hide Lookup, LookupRefresh, Query, GetByID, RotationAborts, FreshDraws, CommitRotate, CommitCreate, Store, MintOf;
    hide RotationCore, OpenCore;
  }

  /** A creation, a refresh or an activation one of whose round trips fails ends at
      once with an error, or, where it was going after a replay, with the replay. */
  lemma FaultReported(s: State, pid: Pid, t: seq<Turn>)
    requires pid in s.procs && |t| > 0 && Foreign(t, pid) && t[0].fault != NoFault
    requires AtTrip(s.procs[pid].op, s.procs[pid].pc)
    ensures var pc, end := s.procs[pid].pc, Play(s, pid, t);
      && pid in end.procs && end.procs[pid].pc.Done?
      && if pc.SweepReady? || pc.Sweeping? then end.procs[pid].pc.outcome.Replayed?
         else end.procs[pid].pc.outcome.Failed?
  {
    hide Run, Next, AlwaysFresh;
    OneTurn(s, pid, t);
    FaultTurn(Met(s, t[0]).w, pid, s.procs[pid].op, s.procs[pid].pc, t[0].fault, t[0].draws);
  }
}
